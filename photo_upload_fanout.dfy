/** The `onPhotoUpload` cloud function: when a photo document is created, one
    push message per follower device token of its author. */
module Fanout {
  import opened JavaLang

  /** JavaScript truthiness of a string field that may be missing: missing,
      null and "" are falsy. */
  predicate Truthy(v: Option<string>)
  {
    v.Some? && v.value != []
  }

  /** The created photo document's fields. */
  datatype PhotoDoc = PhotoDoc(authorId: Option<string>, uploadedBy: Option<string>, description: Option<string>)

  /** The author's user document; `followers` is None when the field is missing. */
  datatype AuthorDoc = AuthorDoc(followers: Option<seq<string>>)

  /** A follower's user document as returned by the `in` query. */
  datatype FollowerDoc = FollowerDoc(fcmToken: Option<string>)

  datatype MessageData = MessageData(photoId: string, authorId: string, messageType: string,
                                     clickAction: string, screen: string, userId: string)

  datatype Message = Message(token: string, title: string, body: string, data: MessageData,
                             androidPriority: string, androidSound: string, androidClickAction: string)

  const NewPhotoType: string := "new_photo"
  const FlutterClick: string := "FLUTTER_NOTIFICATION_CLICK"
  const DefaultBody: string := "Check out their latest upload!"

  /** `authorData.followers || []`. */
  function FollowersOf(author: AuthorDoc): (followers: seq<string>)
    ensures author.followers.None? ==> followers == []
    ensures author.followers.Some? ==> followers == author.followers.value
  {
    if author.followers.Some? then author.followers.value else []
  }

  /** `docs.map(doc => doc.data().fcmToken).filter(token => token)`: the
      truthy tokens, in document order. */
  function FollowerTokens(docs: seq<FollowerDoc>): (tokens: seq<string>)
    ensures |tokens| <= |docs|
    ensures forall t :: t in tokens ==> t != []
    ensures forall t :: t in tokens <==> exists d :: d in docs && d.fcmToken == Some(t) && t != []
  {
    if docs == [] then []
    else
      var front := docs[..|docs| - 1];
      var last := docs[|docs| - 1];
      assert docs == front + [last];
      FollowerTokens(front) + (if Truthy(last.fcmToken) then [last.fcmToken.value] else [])
  }

  /** Dropping falsy tokens keeps the order of the rest: each kept token
      comes from a later document than the one before it, and every document
      with a truthy token contributes its own entry, so a token that two
      documents carry is sent twice. */
  lemma {:induction false} FollowerTokensInOrder(docs: seq<FollowerDoc>) returns (idx: seq<int>)
    ensures |idx| == |FollowerTokens(docs)|
    ensures forall k :: 0 <= k < |idx| ==> 0 <= idx[k] < |docs| && docs[idx[k]].fcmToken == Some(FollowerTokens(docs)[k])
    ensures forall i, j :: 0 <= i < j < |idx| ==> idx[i] < idx[j]
    ensures forall i :: 0 <= i < |docs| && Truthy(docs[i].fcmToken) ==> i in idx
  {
    if docs == [] {
      return [];
    }
    var n := |docs| - 1;
    var sub := FollowerTokensInOrder(docs[..n]);
    assert FollowerTokens(docs) == FollowerTokens(docs[..n])
                                   + (if Truthy(docs[n].fcmToken) then [docs[n].fcmToken.value] else []);
    idx := if Truthy(docs[n].fcmToken) then sub + [n] else sub;
    TokenIndexesStep(docs, sub, FollowerTokens(docs[..n]), idx, FollowerTokens(docs));
  }

  /** One step of the induction above: the indexes for all but the last
      document, extended by the last one when its token is truthy. */
  lemma TokenIndexesStep(docs: seq<FollowerDoc>, sub: seq<int>, frontTokens: seq<string>, idx: seq<int>, tokens: seq<string>)
    requires docs != []
    requires |sub| == |frontTokens|
    requires forall k :: 0 <= k < |sub| ==> 0 <= sub[k] < |docs| - 1 && docs[..|docs| - 1][sub[k]].fcmToken == Some(frontTokens[k])
    requires forall i, j :: 0 <= i < j < |sub| ==> sub[i] < sub[j]
    requires forall i :: 0 <= i < |docs| - 1 && Truthy(docs[..|docs| - 1][i].fcmToken) ==> i in sub
    requires var last := docs[|docs| - 1];
             && tokens == frontTokens + (if Truthy(last.fcmToken) then [last.fcmToken.value] else [])
             && idx == if Truthy(last.fcmToken) then sub + [|docs| - 1] else sub
    ensures |idx| == |tokens|
    ensures forall k :: 0 <= k < |idx| ==> 0 <= idx[k] < |docs| && docs[idx[k]].fcmToken == Some(tokens[k])
    ensures forall i, j :: 0 <= i < j < |idx| ==> idx[i] < idx[j]
    ensures forall i :: 0 <= i < |docs| && Truthy(docs[i].fcmToken) ==> i in idx
  {
    var n := |docs| - 1;
    forall k | 0 <= k < |idx|
      ensures 0 <= idx[k] < |docs| && docs[idx[k]].fcmToken == Some(tokens[k])
    {
      if k < |sub| {
        assert idx[k] == sub[k] && docs[sub[k]] == docs[..n][sub[k]];
      }
    }
    forall i | 0 <= i < |docs| && Truthy(docs[i].fcmToken)
      ensures i in idx
    {
      if i < n {
        assert docs[..n][i] == docs[i];
        assert i in sub;
      } else {
        assert idx[|sub|] == i;
      }
    }
  }

  /** The message sent to one token. */
  function BuildMessage(token: string, photoId: string, authorId: string, authorName: string,
                        description: Option<string>): (m: Message)
    ensures m.token == token
    ensures m.title == authorName + " posted a new photo"
    ensures Truthy(description) ==> m.body == description.value
    ensures !Truthy(description) ==> m.body == DefaultBody
    ensures m.data == MessageData(photoId, authorId, NewPhotoType, FlutterClick, "profile", authorId)
    ensures m.androidPriority == "high" && m.androidSound == "default" && m.androidClickAction == FlutterClick
  {
    Message(token, authorName + " posted a new photo",
            if Truthy(description) then description.value else DefaultBody,
            MessageData(photoId, authorId, NewPhotoType, FlutterClick, "profile", authorId),
            "high", "default", FlutterClick)
  }

  /** The send loop. Each `send` sits in its own try/catch, so a failed send
      (an index in `failing`) is logged and the loop goes on: every token
      gets exactly one attempt, in order. */
  method SendAll(tokens: seq<string>, photoId: string, authorId: string, authorName: string,
                 description: Option<string>, failing: set<nat>)
    returns (attempted: seq<Message>, delivered: seq<bool>)
    ensures |attempted| == |tokens| && |delivered| == |tokens|
    ensures forall k :: 0 <= k < |tokens| ==>
              attempted[k] == BuildMessage(tokens[k], photoId, authorId, authorName, description)
    ensures forall k :: 0 <= k < |tokens| ==> (delivered[k] <==> k !in failing)
  {
    attempted, delivered := [], [];
    for k := 0 to |tokens|
      invariant |attempted| == k && |delivered| == k
      invariant forall j :: 0 <= j < k ==>
                  attempted[j] == BuildMessage(tokens[j], photoId, authorId, authorName, description)
      invariant forall j :: 0 <= j < k ==> (delivered[j] <==> j !in failing)
    {
      var message := BuildMessage(tokens[k], photoId, authorId, authorName, description);
      attempted := attempted + [message];
      delivered := delivered + [k !in failing];
    }
  }

  /** Why the function stopped without sending: the validation, a missing
      author document, no followers, or no follower with a token. */
  datatype Outcome = MissingAuthorData | AuthorNotFound | NoFollowers | NoTokens | Sent

  /** `onPhotoUpload`. The author document and the follower documents are
      the two query results; `failing` names the sends that throw. */
  method OnPhotoUpload(photo: PhotoDoc, photoId: string, authorDoc: Option<AuthorDoc>,
                       followerDocs: seq<FollowerDoc>, failing: set<nat>)
    returns (outcome: Outcome, attempted: seq<Message>, delivered: seq<bool>)
    ensures outcome != Sent ==> attempted == [] && delivered == []
    ensures outcome == MissingAuthorData <==> !Truthy(photo.authorId) || !Truthy(photo.uploadedBy)
    ensures outcome == AuthorNotFound <==> Truthy(photo.authorId) && Truthy(photo.uploadedBy) && authorDoc.None?
    ensures outcome == NoFollowers <==>
              Truthy(photo.authorId) && Truthy(photo.uploadedBy) && authorDoc.Some? && FollowersOf(authorDoc.value) == []
    ensures outcome == NoTokens <==>
              Truthy(photo.authorId) && Truthy(photo.uploadedBy) && authorDoc.Some? && FollowersOf(authorDoc.value) != []
              && FollowerTokens(followerDocs) == []
    ensures outcome == Sent ==>
              var tokens := FollowerTokens(followerDocs);
              && tokens != []
              && |attempted| == |tokens| && |delivered| == |tokens|
              && (forall k :: 0 <= k < |tokens| ==>
                    attempted[k] == BuildMessage(tokens[k], photoId, photo.authorId.value, photo.uploadedBy.value,
                                                 photo.description))
              && (forall k :: 0 <= k < |tokens| ==> (delivered[k] <==> k !in failing))
  {
    attempted, delivered := [], [];
    if !Truthy(photo.authorId) || !Truthy(photo.uploadedBy) {
      return MissingAuthorData, [], [];
    }
    if authorDoc.None? {
      return AuthorNotFound, [], [];
    }
    var followers := FollowersOf(authorDoc.value);
    if |followers| == 0 {
      return NoFollowers, [], [];
    }
    var tokens := FollowerTokens(followerDocs);
    if |tokens| == 0 {
      return NoTokens, [], [];
    }
    attempted, delivered := SendAll(tokens, photoId, photo.authorId.value, photo.uploadedBy.value,
                                    photo.description, failing);
    outcome := Sent;
  }
}
