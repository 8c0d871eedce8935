/** `Notification`: a like or follow notice stored for its recipient. */
module Notifications {
  import opened JavaLang

  datatype Result<+T> = Success(value: T) | Failure(error: string)

  /** The message of the `IllegalArgumentException` the checked constructor throws. */
  const InvalidTypeMessage: string := "Type must be either 'like' or 'follow'"

  /** The only types the checked constructor accepts. */
  predicate IsAllowedType(t: Option<string>)
  {
    t == Some("like") || t == Some("follow")
  }

  class Notification {
    var id: Option<string>
    var notificationType: Option<string>
    var fromUser: Option<string>
    var toUser: Option<string>
    /** Milliseconds since the epoch (a Java `long`). */
    var timestamp: int
    var isRead: bool

    /** The no-argument constructor the document store uses: every field at
        its Java default, so the type is unset and not checked. */
    constructor Empty()
      ensures id == None && notificationType == None
      ensures fromUser == None && toUser == None
      ensures timestamp == 0 && !isRead
    {
      id, notificationType, fromUser, toUser := None, None, None, None;
      timestamp := 0;
      isRead := false;
    }

    /** `new Notification(type, fromUser, toUser)`: throws unless the type is
        "like" or "follow"; otherwise an unread notice stamped with `now`. */
    static method Create(t: Option<string>, fromUser: Option<string>, toUser: Option<string>, now: int)
      returns (r: Result<Notification>)
      ensures r.Failure? <==> !IsAllowedType(t)
      ensures r.Failure? ==> r.error == InvalidTypeMessage
      ensures r.Success? ==> fresh(r.value)
      ensures r.Success? ==> r.value.notificationType == t && IsAllowedType(r.value.notificationType)
      ensures r.Success? ==> r.value.fromUser == fromUser && r.value.toUser == toUser
      ensures r.Success? ==> r.value.timestamp == now && !r.value.isRead && r.value.id == None
    {
      if !IsAllowedType(t) {
        return Failure(InvalidTypeMessage);
      }
      var n := new Notification.Empty();
      n.notificationType := t;
      n.fromUser := fromUser;
      n.toUser := toUser;
      n.timestamp := now;
      n.isRead := false;
      return Success(n);
    }

    method SetId(v: Option<string>)
      modifies this`id
      ensures id == v
    {
      id := v;
    }

    /** Accepts any value: the type check lives only in `Create`. */
    method SetType(v: Option<string>)
      modifies this`notificationType
      ensures notificationType == v
    {
      notificationType := v;
    }

    method SetFromUser(v: Option<string>)
      modifies this`fromUser
      ensures fromUser == v
    {
      fromUser := v;
    }

    method SetToUser(v: Option<string>)
      modifies this`toUser
      ensures toUser == v
    {
      toUser := v;
    }

    method SetTimestamp(v: int)
      modifies this`timestamp
      ensures timestamp == v
    {
      timestamp := v;
    }

    method SetRead(b: bool)
      modifies this`isRead
      ensures isRead == b
    {
      isRead := b;
    }
  }

  /** The guard is not an invariant of the class: the no-argument
      constructor followed by `setType` yields a notification of any type. */
  method TypeGuardBypass(t: Option<string>) returns (n: Notification)
    ensures fresh(n) && n.notificationType == t && !n.isRead
  {
    n := new Notification.Empty();
    n.SetType(t);
  }
}
