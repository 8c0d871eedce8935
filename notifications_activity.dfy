/** `NotificationsActivity`: loads the signed-in user's notifications, repairs
    missing timestamps, shows them newest first, and marks every shown one
    read in a single batch write. */
module Inbox {
  import opened JavaLang
  import opened Firebase
  import opened Notifications

  /** The fields of a stored notification document. */
  datatype Fields = Fields(notificationType: Option<string>, fromUser: Option<string>,
                           toUser: Option<string>, timestamp: int, isRead: bool)

  /** A query result document: its id, and its fields when `toObject`
      converts it (None when conversion yields null or throws). */
  datatype Document = Document(docId: string, contents: Option<Fields>)

  const SignInRequired: string := "You need to be signed in to view notifications"
  const NoNotifications: string := "No notifications"
  const MissingIndexHelp: string := "First-time setup: Please check logs and create the required index in Firebase console"

  /** The recipient name the query filters on, or None when there is no
      signed-in user or the user has no display name (then nothing is queried). */
  function QueryFor(user: Option<AuthUser>): (toUser: Option<string>)
    ensures toUser.None? <==> user.None? || user.value.displayName.None?
    ensures toUser.Some? ==> user.Some? && toUser == user.value.displayName
  {
    if user.None? then None else user.value.displayName
  }

  /** The toast `loadNotifications` shows before returning without a
      query: exactly when there is no recipient name to query for. */
  function SignedOutToast(user: Option<AuthUser>): (toast: Option<string>)
    ensures toast.Some? <==> QueryFor(user).None?
    ensures toast.Some? ==> toast.value == SignInRequired
  {
    if user.None? || user.value.displayName.None? then Some(SignInRequired) else None
  }

  /** The ids of the documents that convert, in query order. */
  function ConvertedIds(docs: seq<Document>): (ids: seq<string>)
    ensures |ids| <= |docs|
    ensures forall d :: d in docs && d.contents.Some? ==> d.docId in ids
    ensures forall id :: id in ids ==> exists d :: d in docs && d.contents.Some? && d.docId == id
  {
    if docs == [] then []
    else
      var last := docs[|docs| - 1];
      var front := docs[..|docs| - 1];
      assert docs == front + [last];
      ConvertedIds(front) + (if last.contents.Some? then [last.docId] else [])
  }

  /** `n` is what the loop makes of `d`: the document's fields, its id, and
      `now` in place of a timestamp of 1 or less. */
  ghost predicate IsConversionOf(n: Notification, d: Document, now: int)
    reads n
  {
    && d.contents.Some?
    && n.id == Some(d.docId)
    && n.notificationType == d.contents.value.notificationType
    && n.fromUser == d.contents.value.fromUser
    && n.toUser == d.contents.value.toUser
    && n.isRead == d.contents.value.isRead
    && (d.contents.value.timestamp <= 1 ==> n.timestamp == now)
    && (d.contents.value.timestamp > 1 ==> n.timestamp == d.contents.value.timestamp)
  }

  /** Timestamps never increase along the list. */
  ghost predicate NewestFirst(ns: seq<Notification>)
    reads ns
  {
    forall i, j :: 0 <= i < j < |ns| ==> ns[i].timestamp >= ns[j].timestamp
  }

  /** Inserts `n` into a newest-first list, after the entries with an equal
      or later timestamp. */
  method InsertNewestFirst(sorted: seq<Notification>, n: Notification) returns (r: seq<Notification>)
    requires NewestFirst(sorted)
    ensures NewestFirst(r)
    ensures multiset(r) == multiset(sorted) + multiset{n}
  {
    var i := 0;
    while i < |sorted| && sorted[i].timestamp >= n.timestamp
      invariant 0 <= i <= |sorted|
      invariant forall k :: 0 <= k < i ==> sorted[k].timestamp >= n.timestamp
    {
      i := i + 1;
    }
    r := sorted[..i] + [n] + sorted[i..];
    assert |r| == |sorted| + 1;
    assert forall k :: 0 <= k < i ==> r[k] == sorted[k];
    assert r[i] == n;
    assert forall k :: i < k < |r| ==> r[k] == sorted[k - 1];
    forall a, b | 0 <= a < b < |r|
      ensures r[a].timestamp >= r[b].timestamp
    {
      if b == i {
        assert r[a] == sorted[a];
      } else if a == i {
        assert r[b] == sorted[b - 1];
      }
    }
    assert sorted == sorted[..i] + sorted[i..];
  }

  /** `Collections.sort` with `Long.compare(b.getTimestamp(), a.getTimestamp())`. */
  method SortNewestFirst(ns: seq<Notification>) returns (r: seq<Notification>)
    ensures NewestFirst(r)
    ensures multiset(r) == multiset(ns)
  {
    r := [];
    for k := 0 to |ns|
      invariant NewestFirst(r)
      invariant multiset(r) == multiset(ns[..k])
    {
      assert ns[..k + 1] == ns[..k] + [ns[k]];
      r := InsertNewestFirst(r, ns[k]);
    }
    assert ns[..|ns|] == ns;
  }

  /** `toObject` on a convertible document, then `setId` and the timestamp
      repair. */
  method Convert(document: Document, now: int) returns (notification: Notification)
    requires document.contents.Some?
    ensures fresh(notification) && IsConversionOf(notification, document, now)
  {
    var fields := document.contents.value;
    notification := new Notification.Empty();
    notification.SetType(fields.notificationType);
    notification.SetFromUser(fields.fromUser);
    notification.SetToUser(fields.toUser);
    notification.SetTimestamp(fields.timestamp);
    notification.SetRead(fields.isRead);
    notification.SetId(Some(document.docId));
    if notification.timestamp <= 1 {
      notification.SetTimestamp(now);
    }
  }

  /** The conversion loop: one fresh notification per convertible document,
      in order, and the id of each such document for the read-marking batch. */
  method ConvertDocuments(docs: seq<Document>, now: int) returns (converted: seq<Notification>, batch: seq<string>)
    ensures batch == ConvertedIds(docs)
    ensures |converted| == |batch|
    ensures forall i :: 0 <= i < |converted| ==> fresh(converted[i]) && converted[i].id == Some(batch[i])
    ensures forall n :: n in converted ==> exists d :: d in docs && IsConversionOf(n, d, now)
  {
    converted, batch := [], [];
    for k := 0 to |docs|
      invariant batch == ConvertedIds(docs[..k])
      invariant |converted| == |batch|
      invariant forall i :: 0 <= i < |converted| ==> fresh(converted[i]) && converted[i].id == Some(batch[i])
      invariant forall n :: n in converted ==> exists d :: d in docs && IsConversionOf(n, d, now)
    {
      var document := docs[k];
      assert docs[..k + 1][..k] == docs[..k];
      if document.contents.Some? {
        var notification := Convert(document, now);
        converted := converted + [notification];
        batch := batch + [document.docId];
      }
    }
    assert docs[..|docs|] == docs;
  }

  class NotificationsScreen {
    var notificationList: seq<Notification>

    constructor()
      ensures notificationList == []
    {
      notificationList := [];
    }

    /** The query's success listener. A null or empty result leaves the list
        as it was. Otherwise the list is rebuilt from the convertible
        documents, sorted newest first, and exactly those documents go into
        the batch, which is committed only when the list is non-empty. */
    method OnQuerySuccess(snapshot: Option<seq<Document>>, now: int)
      returns (toast: Option<string>, batch: seq<string>, commit: bool)
      modifies this`notificationList
      ensures snapshot.None? || snapshot.value == [] ==>
                notificationList == old(notificationList) && toast == Some(NoNotifications)
                && batch == [] && !commit
      ensures snapshot.Some? && snapshot.value != [] ==>
                && toast == None
                && batch == ConvertedIds(snapshot.value)
                && |notificationList| == |batch|
                && NewestFirst(notificationList)
                && (forall n :: n in notificationList ==>
                      fresh(n) && exists d :: d in snapshot.value && IsConversionOf(n, d, now))
                && (forall k :: 0 <= k < |batch| ==>
                      exists n :: n in notificationList && n.id == Some(batch[k]))
                && (commit <==> notificationList != [])
    {
      if snapshot.None? || snapshot.value == [] {
        return Some(NoNotifications), [], false;
      }
      notificationList := [];
      var converted;
      converted, batch := ConvertDocuments(snapshot.value, now);
      notificationList := SortNewestFirst(converted);
      forall k | 0 <= k < |batch|
        ensures exists n :: n in notificationList && n.id == Some(batch[k])
      {
        assert converted[k] in multiset(converted);
        assert converted[k] in notificationList;
      }
      forall n | n in notificationList
        ensures fresh(n) && exists d :: d in snapshot.value && IsConversionOf(n, d, now)
      {
        assert n in multiset(notificationList);
        assert n in converted;
        var i :| 0 <= i < |converted| && converted[i] == n;
      }
      toast := None;
      commit := notificationList != [];
    }
  }

  /** The missing-index test used by both failure listeners: the message is
      non-null and contains both "FAILED_PRECONDITION" and "index". */
  function IsMissingIndexError(errorMessage: Option<string>): (missing: bool)
    ensures missing <==> errorMessage.Some?
                         && (exists i :: OccursAt(errorMessage.value, "FAILED_PRECONDITION", i))
                         && (exists j :: OccursAt(errorMessage.value, "index", j))
  {
    if errorMessage.None? then false
    else
      ContainsIffOccurs(errorMessage.value, "FAILED_PRECONDITION");
      ContainsIffOccurs(errorMessage.value, "index");
      Contains(errorMessage.value, "FAILED_PRECONDITION") && Contains(errorMessage.value, "index")
  }

  /** The two failure listeners: the notifications query's and the batch
      commit's. They differ only in the prefix of their general message. */
  datatype Failure = LoadFailed | MarkReadFailed

  function FailurePrefix(failure: Failure): string
  {
    match failure
    case LoadFailed => "Error loading notifications: "
    case MarkReadFailed => "Error marking notifications as read: "
  }

  /** The toast of either failure listener: the setup hint for a
      missing-index error, else the listener's prefix and the message. */
  function FailureToast(failure: Failure, errorMessage: Option<string>): (toast: string)
    ensures IsMissingIndexError(errorMessage) ==> toast == MissingIndexHelp
    ensures !IsMissingIndexError(errorMessage) && failure == LoadFailed ==>
              toast == "Error loading notifications: " + Show(errorMessage)
    ensures !IsMissingIndexError(errorMessage) && failure == MarkReadFailed ==>
              toast == "Error marking notifications as read: " + Show(errorMessage)
  {
    if IsMissingIndexError(errorMessage) then MissingIndexHelp
    else FailurePrefix(failure) + Show(errorMessage)
  }

  /** A null message is never a missing-index error, and a message naming
      only one of the two words is not either. */
  lemma MissingIndexNeedsBothWords()
    ensures !IsMissingIndexError(None)
    ensures !IsMissingIndexError(Some("index"))
    ensures IsMissingIndexError(Some("FAILED_PRECONDITION: The query requires an index"))
  {
    assert OccursAt("FAILED_PRECONDITION: The query requires an index", "FAILED_PRECONDITION", 0);
    assert OccursAt("FAILED_PRECONDITION: The query requires an index", "index", 43);
    var s := "index";
    if i :| OccursAt(s, "FAILED_PRECONDITION", i) {
      assert false;
    }
  }

  /** The icon `onBindViewHolder` picks. */
  datatype Icon = StarIcon | AddIcon | InfoIcon

  /** `onBindViewHolder`'s icon and message: "like" and "follow" have their
      own, anything else (including null) the "interacted" fallback; a null
      sender prints as "null". */
  function Rendered(notificationType: Option<string>, fromUser: Option<string>): (r: (Icon, string))
    ensures notificationType == Some("like") ==> r == (StarIcon, Show(fromUser) + " liked your photo")
    ensures notificationType == Some("follow") ==> r == (AddIcon, Show(fromUser) + " started following you")
    ensures !IsAllowedType(notificationType) ==> r == (InfoIcon, Show(fromUser) + " interacted with your profile")
  {
    if notificationType == Some("like") then (StarIcon, Show(fromUser) + " liked your photo")
    else if notificationType == Some("follow") then (AddIcon, Show(fromUser) + " started following you")
    else (InfoIcon, Show(fromUser) + " interacted with your profile")
  }

  /** The fallback is shown exactly for the types the checked constructor
      rejects: so no notification made by `Create` shows it, while one made
      by the no-argument constructor and `setType` can. */
  lemma FallbackExactlyForRejectedTypes(t: Option<string>, fromUser: Option<string>)
    ensures Rendered(t, fromUser).0 == InfoIcon <==> !IsAllowedType(t)
    ensures Rendered(t, fromUser).1 == Show(fromUser) + " interacted with your profile" <==> !IsAllowedType(t)
  {
    var m := Show(fromUser);
    if t == Some("like") {
      assert (m + " liked your photo")[|m| + 1] == 'l';
      assert (m + " interacted with your profile")[|m| + 1] == 'i';
    } else if t == Some("follow") {
      assert (m + " started following you")[|m| + 1] == 's';
      assert (m + " interacted with your profile")[|m| + 1] == 'i';
    }
  }
}
