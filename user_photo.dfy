/** `UserPhoto`: one photo of a gallery, with its media reference, its
    description and its likes. */
module UserPhotos {
  import opened JavaLang
  import opened JavaUtil

  /** The engagement state of a photo: who liked it, and the stored count. */
  datatype Likes = Likes(likedBy: seq<string>, count: int)

  /** The state `toggleLike` is designed to keep: one entry per liking user,
      and a count equal to the number of entries. */
  predicate Consistent(l: Likes)
  {
    l.count == |l.likedBy| && NoDuplicates(l.likedBy)
  }

  /** The effect of one `toggleLike(username)` on the likes. */
  function Toggled(l: Likes, username: string): Likes
  {
    Likes(ToggleMembership(l.likedBy, username),
          if username in l.likedBy then l.count - 1 else l.count + 1)
  }

  /** Liking and then unliking (or the reverse, from "not liked") restores
      the exact list and count. */
  lemma ToggleTwiceRestores(l: Likes, username: string)
    requires username !in l.likedBy
    ensures Toggled(Toggled(l, username), username) == l
  {
    ToggleTwiceFromAbsent(l.likedBy, username);
  }

  /** A toggle keeps the likes consistent. Hence the count never goes below
      zero, although the decrement itself is not clamped; and afterwards the
      user is in the list exactly when they were not before. */
  lemma TogglePreservesConsistency(l: Likes, username: string)
    requires Consistent(l)
    ensures Consistent(Toggled(l, username))
    ensures Toggled(l, username).count >= 0
    ensures username in Toggled(l, username).likedBy <==> username !in l.likedBy
  {
    ToggleFlipsMembership(l.likedBy, username);
  }

  /** Nothing clamps the decrement: once the count disagrees with the list
      (for instance after `setLikeCount(0)`), a toggle can make it negative. */
  lemma UnclampedDecrement()
    ensures Toggled(Likes(["alice"], 0), "alice").count == -1
  {
  }

  class UserPhoto {
    var imageResourceId: int
    var description: Option<string>
    /** `Date` as milliseconds since the epoch. */
    var timestamp: int
    var likeCount: int
    var likedByUsers: seq<string>
    var filePath: Option<string>
    var storageUrl: Option<string>
    var authorId: Option<string>
    var authorName: Option<string>
    var firestoreId: Option<string>

    function LikesOf(): Likes
      reads this
    {
      Likes(likedByUsers, likeCount)
    }

    /** `UserPhoto(int)`: a sample photo with an empty description. */
    constructor FromResource(imageResourceId: int, now: int)
      ensures this.imageResourceId == imageResourceId && description == Some("")
      ensures timestamp == now && likeCount == 0 && likedByUsers == []
      ensures filePath == None && storageUrl == None && firestoreId == None
      ensures authorId == None && authorName == None
    {
      this.imageResourceId := imageResourceId;
      description := Some("");
      timestamp := now;
      likeCount := 0;
      likedByUsers := [];
      filePath, storageUrl, authorId, authorName, firestoreId := None, None, None, None, None;
    }

    /** `UserPhoto(int, String)`. */
    constructor FromResourceWithDescription(imageResourceId: int, description: Option<string>, now: int)
      ensures this.imageResourceId == imageResourceId && this.description == description
      ensures timestamp == now && likeCount == 0 && likedByUsers == []
      ensures filePath == None && storageUrl == None && firestoreId == None
      ensures authorId == None && authorName == None
    {
      this.imageResourceId := imageResourceId;
      this.description := description;
      timestamp := now;
      likeCount := 0;
      likedByUsers := [];
      filePath, storageUrl, authorId, authorName, firestoreId := None, None, None, None, None;
    }

    /** `UserPhoto(String filePath, String description, String authorId, String authorName)`. */
    constructor FromFile(filePath: Option<string>, description: Option<string>,
                         authorId: Option<string>, authorName: Option<string>, now: int)
      ensures imageResourceId == 0 && this.filePath == filePath && this.description == description
      ensures this.authorId == authorId && this.authorName == authorName
      ensures timestamp == now && likeCount == 0 && likedByUsers == []
      ensures storageUrl == None && firestoreId == None
    {
      imageResourceId := 0;
      this.filePath := filePath;
      this.description := description;
      timestamp := now;
      likeCount := 0;
      likedByUsers := [];
      this.authorId := authorId;
      this.authorName := authorName;
      storageUrl, firestoreId := None, None;
    }

    /** `isLikedByUser`: `likedByUsers.contains(username)`, which Java
        defines as `indexOf(username) >= 0`. */
    function IsLikedByUser(username: string): (liked: bool)
      reads this
      ensures liked <==> IndexOf(likedByUsers, username) >= 0
    {
      username in likedByUsers
    }

    /** Adds the user's like if absent, removes one occurrence if present, and
        moves the count by one either way. The result is always true. The
        frame names the only two fields that change. */
    method ToggleLike(username: string) returns (changed: bool)
      modifies this`likedByUsers, this`likeCount
      ensures changed
      ensures old(username in likedByUsers) ==>
                likedByUsers == RemoveFirst(old(likedByUsers), username)
                && likeCount == old(likeCount) - 1
      ensures old(username !in likedByUsers) ==>
                likedByUsers == old(likedByUsers) + [username]
                && likeCount == old(likeCount) + 1
      ensures LikesOf() == Toggled(old(LikesOf()), username)
    {
      if IsLikedByUser(username) {
        likedByUsers := RemoveFirst(likedByUsers, username);
        likeCount := likeCount - 1;
        return true;
      } else {
        likedByUsers := likedByUsers + [username];
        likeCount := likeCount + 1;
        return true;
      }
    }

    predicate HasFilePath()
      reads this
    {
      HasText(filePath)
    }

    /** `authorId != null && authorId.equals(userId)`. */
    predicate IsAuthor(userId: Option<string>)
      reads this
    {
      authorId.Some? && userId == authorId
    }

    predicate HasFirestoreId()
      reads this
    {
      HasText(firestoreId)
    }

    method SetImageResourceId(id: int)
      modifies this`imageResourceId
      ensures imageResourceId == id
    {
      imageResourceId := id;
    }

    method SetFilePath(path: Option<string>)
      modifies this`filePath
      ensures filePath == path
    {
      filePath := path;
    }

    method SetDescription(d: Option<string>)
      modifies this`description
      ensures description == d
    {
      description := d;
    }

    method SetTimestamp(t: int)
      modifies this`timestamp
      ensures timestamp == t
    {
      timestamp := t;
    }

    /** Writes the count alone, so it can leave the likes inconsistent. */
    method SetLikeCount(n: int)
      modifies this`likeCount
      ensures likeCount == n
    {
      likeCount := n;
    }

    method SetStorageUrl(url: Option<string>)
      modifies this`storageUrl
      ensures storageUrl == url
    {
      storageUrl := url;
    }

    method SetAuthorId(id: Option<string>)
      modifies this`authorId
      ensures authorId == id
    {
      authorId := id;
    }

    method SetAuthorName(name: Option<string>)
      modifies this`authorName
      ensures authorName == name
    {
      authorName := name;
    }

    method SetFirestoreId(id: Option<string>)
      modifies this`firestoreId
      ensures firestoreId == id
    {
      firestoreId := id;
    }
  }

  /** `hasFilePath`, `hasFirestoreId` and `isAuthor`, stated against the
      fields: non-null and non-empty; non-null author equal to the user. */
  lemma PredicatesAgainstFields(p: UserPhoto, userId: Option<string>)
    ensures p.HasFilePath() <==> p.filePath != None && |p.filePath.value| > 0
    ensures p.HasFirestoreId() <==> p.firestoreId != None && |p.firestoreId.value| > 0
    ensures p.IsAuthor(userId) <==> p.authorId != None && userId == Some(p.authorId.value)
  {
  }
}
