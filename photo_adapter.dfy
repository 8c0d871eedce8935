/** `PhotoAdapter.onBindViewHolder`: how one gallery cell is drawn from a
    photo, the signed-in user and the current username. */
module Render {
  import opened JavaLang
  import opened Firebase
  import opened UserPhotos

  /** The photo fields a cell shows. */
  datatype PhotoView = PhotoView(storageUrl: Option<string>, filePath: Option<string>, imageResourceId: int,
                                 description: Option<string>, likeCount: int, likedByUsers: seq<string>,
                                 authorId: Option<string>)

  function ViewOf(p: UserPhoto): (v: PhotoView)
    reads p
    ensures v.likedByUsers == p.likedByUsers && v.likeCount == p.likeCount
  {
    PhotoView(p.storageUrl, p.filePath, p.imageResourceId, p.description, p.likeCount, p.likedByUsers, p.authorId)
  }

  /** Where the image comes from. `MissingFile` shows `my_img1` in place of a
      plain path whose file does not exist. */
  datatype ImageSource =
    | FromStorageUrl(url: string)
    | FromUri(uri: string)
    | FromFile(path: string)
    | MissingFile
    | FromResource(resourceId: int)
    | DefaultImage

  /** A path the adapter hands to `Uri.parse` rather than to `File`. */
  predicate IsUri(pathOrUri: string)
  {
    StartsWith(pathOrUri, "content://") || StartsWith(pathOrUri, "file://")
  }

  /** The source chain: a non-empty storage URL first, then a non-empty
      file path (a "content://" or "file://" URI, or a plain file that must
      exist), then a non-zero resource id, else `my_img1`. */
  function ImageSourceOf(v: PhotoView, fileExists: bool): (s: ImageSource)
    ensures s.FromStorageUrl? <==> HasText(v.storageUrl)
    ensures s.FromStorageUrl? ==> s.url == v.storageUrl.value
    ensures (s.FromUri? || s.FromFile? || s.MissingFile?) <==> !HasText(v.storageUrl) && HasText(v.filePath)
    ensures s.FromUri? <==> !HasText(v.storageUrl) && HasText(v.filePath) && IsUri(v.filePath.value)
    ensures s.FromUri? ==> Some(s.uri) == v.filePath
    ensures s.FromFile? <==> !HasText(v.storageUrl) && HasText(v.filePath) && !IsUri(v.filePath.value) && fileExists
    ensures s.FromFile? ==> Some(s.path) == v.filePath
    ensures s.MissingFile? <==> !HasText(v.storageUrl) && HasText(v.filePath) && !IsUri(v.filePath.value) && !fileExists
    ensures s.FromResource? <==> !HasText(v.storageUrl) && !HasText(v.filePath) && v.imageResourceId != 0
    ensures s.FromResource? ==> s.resourceId == v.imageResourceId
    ensures s.DefaultImage? <==> !HasText(v.storageUrl) && !HasText(v.filePath) && v.imageResourceId == 0
  {
    if HasText(v.storageUrl) then FromStorageUrl(v.storageUrl.value)
    else if HasText(v.filePath) then
      var pathOrUri := v.filePath.value;
      if IsUri(pathOrUri) then FromUri(pathOrUri)
      else if !fileExists then MissingFile
      else FromFile(pathOrUri)
    else if v.imageResourceId != 0 then FromResource(v.imageResourceId)
    else DefaultImage
  }

  /** `currentUser != null && photo.isAuthor(currentUser.getUid())`. */
  predicate IsAuthorOf(v: PhotoView, currentUser: Option<AuthUser>)
  {
    currentUser.Some? && v.authorId == Some(currentUser.value.uid)
  }

  /** The part of the cell bound after the image: the description text, the
      like count text, the star, the drag handle's visibility, and whether
      the delete, edit and drag gestures reach the listener. */
  datatype Details = Details(descriptionText: string, likeCountText: string, starOn: bool,
                             dragHandleVisible: bool, deleteFires: bool, editFires: bool, dragStarts: bool)

  /** A bound cell. `details` is None when binding stopped before that part,
      so the recycled cell keeps what it showed for an earlier photo. */
  datatype Cell = Cell(deleteVisible: bool, editVisible: bool, image: ImageSource, details: Option<Details>)

  function DetailsOf(v: PhotoView, currentUser: Option<AuthUser>, currentUsername: string): (d: Details)
    ensures d.descriptionText == (if HasText(v.description) then v.description.value else "No description")
    ensures d.likeCountText == IntToString(v.likeCount)
    ensures d.starOn <==> currentUsername in v.likedByUsers
    ensures d.dragHandleVisible == d.deleteFires == d.editFires == d.dragStarts == IsAuthorOf(v, currentUser)
  {
    var isAuthor := IsAuthorOf(v, currentUser);
    Details(if HasText(v.description) then v.description.value else "No description",
            IntToString(v.likeCount), currentUsername in v.likedByUsers,
            isAuthor, isAuthor, isAuthor, isAuthor)
  }

  /** `onBindViewHolder` as written: the missing-file branch returns from
      the method, skipping the description, the likes and the listeners. */
  function BindCellAsWritten(v: PhotoView, currentUser: Option<AuthUser>, currentUsername: string,
                             fileExists: bool): (c: Cell)
    ensures c.deleteVisible == c.editVisible == IsAuthorOf(v, currentUser)
    ensures c.image == ImageSourceOf(v, fileExists)
    ensures c.details.None? <==> c.image.MissingFile?
    ensures c.details.Some? ==> c.details.value == DetailsOf(v, currentUser, currentUsername)
  {
    var isAuthor := IsAuthorOf(v, currentUser);
    var image := ImageSourceOf(v, fileExists);
    if image.MissingFile? then Cell(isAuthor, isAuthor, image, None)
    else Cell(isAuthor, isAuthor, image, Some(DetailsOf(v, currentUser, currentUsername)))
  }

  /** The counterexample: a photo stored as a plain path whose file is gone
      gets no description, like count or listeners of its own. */
  lemma MissingFileSkipsDetails()
    ensures var v := PhotoView(None, Some("/data/photo.jpg"), 0, Some("Sunset"), 3, ["bob"], Some("u1"));
            BindCellAsWritten(v, Some(AuthUser("u1", Some("bob"))), "bob", false).details.None?
  {
    var path := "/data/photo.jpg";
    assert path[0] == '/';
    assert !StartsWith(path, "content://") && !StartsWith(path, "file://") by {
      assert path[..10] != "content://" by { assert path[..10][0] != 'c'; }
      assert path[..7] != "file://" by { assert path[..7][0] != 'f'; }
    }
  }

  /** `onBindViewHolder` as evidently intended: a missing file only replaces
      the image, and the rest of the cell is bound as for any photo. */
  function BindCell(v: PhotoView, currentUser: Option<AuthUser>, currentUsername: string,
                    fileExists: bool): (c: Cell)
    ensures c.deleteVisible == c.editVisible == IsAuthorOf(v, currentUser)
    ensures c.image == ImageSourceOf(v, fileExists)
    ensures c.details == Some(DetailsOf(v, currentUser, currentUsername))
  {
    var isAuthor := IsAuthorOf(v, currentUser);
    Cell(isAuthor, isAuthor, ImageSourceOf(v, fileExists), Some(DetailsOf(v, currentUser, currentUsername)))
  }

  /** With the intended binding, whether the file exists changes only the
      image; the two bindings agree on every photo whose file is present or
      that is not a plain file path. */
  lemma BindCellDetailsIndependentOfFile(v: PhotoView, currentUser: Option<AuthUser>, currentUsername: string)
    ensures BindCell(v, currentUser, currentUsername, true).details
            == BindCell(v, currentUser, currentUsername, false).details
    ensures !ImageSourceOf(v, false).MissingFile? ==>
              BindCellAsWritten(v, currentUser, currentUsername, false) == BindCell(v, currentUser, currentUsername, false)
    ensures BindCellAsWritten(v, currentUser, currentUsername, true) == BindCell(v, currentUser, currentUsername, true)
  {
    assert !ImageSourceOf(v, true).MissingFile?;
  }

  /** A photo with no author, which is every photo the profile screen creates
      itself, never shows its delete, edit or drag controls. */
  lemma AuthorlessPhotoHasNoControls(v: PhotoView, currentUser: Option<AuthUser>, currentUsername: string, fileExists: bool)
    requires v.authorId.None?
    ensures var c := BindCell(v, currentUser, currentUsername, fileExists);
            !c.deleteVisible && !c.editVisible
            && !c.details.value.dragHandleVisible && !c.details.value.deleteFires
            && !c.details.value.editFires && !c.details.value.dragStarts
  {
  }

  /** After a like click the cell's star agrees with the profile screen's
      message: it is on exactly when "Photo liked" was shown. */
  lemma StarMatchesToggle(v: PhotoView, l: Likes, currentUser: Option<AuthUser>, username: string, fileExists: bool)
    requires Consistent(l)
    requires v.likedByUsers == Toggled(l, username).likedBy && v.likeCount == Toggled(l, username).count
    ensures BindCell(v, currentUser, username, fileExists).details.value.starOn <==> username !in l.likedBy
    ensures BindCell(v, currentUser, username, fileExists).details.value.likeCountText == IntToString(|v.likedByUsers|)
  {
    TogglePreservesConsistency(l, username);
  }
}
