/** `UsersActivity`: the list of other users, filtered as the search text
    changes. */
module UserSearch {
  import opened JavaLang
  import opened Firebase

  /** One user document: its id and its "username" and "profilePictureUrl"
      fields, either of which may be missing. */
  datatype Account = Account(userId: string, name: Option<string>, profilePictureUrl: Option<string>)

  /** `query == null || query.trim().isEmpty()`. */
  predicate IsBlank(query: Option<string>)
  {
    query.None? || Trim(query.value) == []
  }

  /** The text searched for: `query.toLowerCase().trim()`. */
  function Needle(query: Option<string>): (needle: string)
    ensures IsBlank(query) <==> needle == []
  {
    if query.None? then []
    else
      BlankUnderLower(query.value);
      Trim(ToLower(query.value))
  }

  predicate NameMatches(u: Account, needle: string)
  {
    u.name.Some? && Contains(ToLower(u.name.value), needle)
  }

  /** The users whose lower-cased name contains `needle`, in list order. */
  function Matching(users: seq<Account>, needle: string): (r: seq<Account>)
    ensures |r| <= |users|
    ensures forall u :: u in r <==> u in users && NameMatches(u, needle)
  {
    if users == [] then []
    else
      var front := users[..|users| - 1];
      var last := users[|users| - 1];
      assert users == front + [last];
      Matching(front, needle) + (if NameMatches(last, needle) then [last] else [])
  }

  /** `Matching` keeps order: its result is picked out of `users` at strictly
      increasing positions. */
  lemma {:induction false} MatchingIsSubsequence(users: seq<Account>, needle: string) returns (idx: seq<int>)
    ensures |idx| == |Matching(users, needle)|
    ensures forall k :: 0 <= k < |idx| ==> 0 <= idx[k] < |users| && Matching(users, needle)[k] == users[idx[k]]
    ensures forall i, j :: 0 <= i < j < |idx| ==> idx[i] < idx[j]
  {
    if users == [] {
      idx := [];
    } else {
      var front := users[..|users| - 1];
      var last := users[|users| - 1];
      var sub := MatchingIsSubsequence(front, needle);
      if NameMatches(last, needle) {
        idx := sub + [|users| - 1];
      } else {
        idx := sub;
      }
    }
  }

  lemma MatchingStep(users: seq<Account>, k: int, needle: string)
    requires 0 <= k < |users|
    ensures Matching(users[..k + 1], needle)
            == Matching(users[..k], needle) + (if NameMatches(users[k], needle) then [users[k]] else [])
  {
    assert users[..k + 1][..k] == users[..k];
  }

  /** The loop of `filterUsers` for a non-blank query: the users whose name
      contains `needle`. A user with no name stops it: `getName()` returns
      null and `toLowerCase()` on that null throws, and `shown` is what the
      list holds at the throw. */
  method Scan(users: seq<Account>, needle: string) returns (shown: seq<Account>, threw: bool)
    ensures threw <==> exists u :: u in users && u.name.None?
    ensures !threw ==> shown == Matching(users, needle)
    ensures threw ==>
              exists k :: 0 <= k < |users| && users[k].name.None?
                          && (forall j :: 0 <= j < k ==> users[j].name.Some?)
                          && shown == Matching(users[..k], needle)
  {
    shown, threw := [], false;
    var k := 0;
    while k < |users|
      invariant 0 <= k <= |users|
      invariant forall j :: 0 <= j < k ==> users[j].name.Some?
      invariant shown == Matching(users[..k], needle)
    {
      var u := users[k];
      if u.name.None? {
        assert users[k] in users;
        threw := true;
        return;
      }
      MatchingStep(users, k, needle);
      if Contains(ToLower(u.name.value), needle) {
        shown := shown + [u];
      }
      k := k + 1;
    }
    assert users[..|users|] == users;
  }

  /** The documents other than the signed-in user's own, in query order. */
  function WithoutUser(docs: seq<Account>, currentUserId: string): (r: seq<Account>)
    ensures |r| <= |docs|
    ensures forall u :: u in r <==> u in docs && u.userId != currentUserId
  {
    if docs == [] then []
    else
      var front := docs[..|docs| - 1];
      var last := docs[|docs| - 1];
      assert docs == front + [last];
      WithoutUser(front, currentUserId) + (if last.userId == currentUserId then [] else [last])
  }

  /** Skipping the signed-in user keeps query order and drops no other
      document: the result is the other documents, taken at strictly
      increasing indexes, each one of them. */
  lemma {:induction false} WithoutUserInOrder(docs: seq<Account>, currentUserId: string) returns (idx: seq<int>)
    ensures |idx| == |WithoutUser(docs, currentUserId)|
    ensures forall k :: 0 <= k < |idx| ==>
              0 <= idx[k] < |docs| && docs[idx[k]].userId != currentUserId
              && docs[idx[k]] == WithoutUser(docs, currentUserId)[k]
    ensures forall i, j :: 0 <= i < j < |idx| ==> idx[i] < idx[j]
    ensures forall i :: 0 <= i < |docs| && docs[i].userId != currentUserId ==> i in idx
  {
    if docs == [] {
      return [];
    }
    var n := |docs| - 1;
    var sub := WithoutUserInOrder(docs[..n], currentUserId);
    assert WithoutUser(docs, currentUserId) == WithoutUser(docs[..n], currentUserId)
                                               + (if docs[n].userId == currentUserId then [] else [docs[n]]);
    idx := if docs[n].userId == currentUserId then sub else sub + [n];
    AccountIndexesStep(docs, currentUserId, sub, WithoutUser(docs[..n], currentUserId), idx, WithoutUser(docs, currentUserId));
  }

  /** One step of the induction above: the indexes for all but the last
      document, extended by the last one unless it is the signed-in user's. */
  lemma AccountIndexesStep(docs: seq<Account>, currentUserId: string, sub: seq<int>, frontUsers: seq<Account>,
                           idx: seq<int>, users: seq<Account>)
    requires docs != []
    requires |sub| == |frontUsers|
    requires forall k :: 0 <= k < |sub| ==>
               0 <= sub[k] < |docs| - 1 && docs[..|docs| - 1][sub[k]].userId != currentUserId
               && docs[..|docs| - 1][sub[k]] == frontUsers[k]
    requires forall i, j :: 0 <= i < j < |sub| ==> sub[i] < sub[j]
    requires forall i :: 0 <= i < |docs| - 1 && docs[..|docs| - 1][i].userId != currentUserId ==> i in sub
    requires var last := docs[|docs| - 1];
             && users == frontUsers + (if last.userId == currentUserId then [] else [last])
             && idx == if last.userId == currentUserId then sub else sub + [|docs| - 1]
    ensures |idx| == |users|
    ensures forall k :: 0 <= k < |idx| ==>
              0 <= idx[k] < |docs| && docs[idx[k]].userId != currentUserId && docs[idx[k]] == users[k]
    ensures forall i, j :: 0 <= i < j < |idx| ==> idx[i] < idx[j]
    ensures forall i :: 0 <= i < |docs| && docs[i].userId != currentUserId ==> i in idx
  {
    var n := |docs| - 1;
    forall k | 0 <= k < |idx|
      ensures 0 <= idx[k] < |docs| && docs[idx[k]].userId != currentUserId && docs[idx[k]] == users[k]
    {
      if k < |sub| {
        assert idx[k] == sub[k] && docs[sub[k]] == docs[..n][sub[k]];
      }
    }
    forall i | 0 <= i < |docs| && docs[i].userId != currentUserId
      ensures i in idx
    {
      if i < n {
        assert docs[..n][i] == docs[i];
        assert i in sub;
      } else {
        assert idx[|sub|] == i;
      }
    }
  }

  /** The load loop: `continue` past the signed-in user's own document,
      append every other one. */
  method SkipUser(docs: seq<Account>, currentUserId: string) returns (users: seq<Account>)
    ensures users == WithoutUser(docs, currentUserId)
  {
    users := [];
    for k := 0 to |docs|
      invariant users == WithoutUser(docs[..k], currentUserId)
    {
      assert docs[..k + 1][..k] == docs[..k];
      if docs[k].userId == currentUserId {
        continue;
      }
      users := users + [docs[k]];
    }
    assert docs[..|docs|] == docs;
  }

  class UsersScreen {
    var allUsers: seq<Account>
    var displayedUsers: seq<Account>
    var contentVisible: bool

    constructor()
      ensures allUsers == [] && displayedUsers == [] && !contentVisible
    {
      allUsers, displayedUsers := [], [];
      contentVisible := false;
    }

    /** `filterUsers`: clears the display and refills it from `allUsers`, all
        of them for a blank query, else those whose name matches. On a
        non-blank query, `toLowerCase()` on a user's null name throws out of
        `filterUsers` before the adapter is refreshed; `displayedUsers` then
        holds the matches before that user. The result does not depend on the
        previous display. */
    method FilterUsers(query: Option<string>) returns (threw: bool)
      modifies this`displayedUsers
      ensures IsBlank(query) ==> !threw && displayedUsers == allUsers
      ensures !IsBlank(query) ==>
                (threw <==> exists u :: u in allUsers && u.name.None?)
      ensures !IsBlank(query) && !threw ==> displayedUsers == Matching(allUsers, Needle(query))
      ensures !IsBlank(query) && threw ==>
                exists k :: 0 <= k < |allUsers| && allUsers[k].name.None?
                            && (forall j :: 0 <= j < k ==> allUsers[j].name.Some?)
                            && displayedUsers == Matching(allUsers[..k], Needle(query))
    {
      threw := false;
      if IsBlank(query) {
        displayedUsers := allUsers;
        return;
      }
      displayedUsers, threw := Scan(allUsers, Needle(query));
    }

    /** The users query's success listener: every document except the
        signed-in user's own, then the display for an empty query. */
    method OnUsersLoaded(docs: seq<Account>, currentUserId: string)
      modifies this`allUsers, this`displayedUsers
      ensures allUsers == WithoutUser(docs, currentUserId)
      ensures forall u :: u in allUsers ==> u.userId != currentUserId
      ensures displayedUsers == allUsers
    {
      allUsers := SkipUser(docs, currentUserId);
      var _ := FilterUsers(Some(""));
    }

    /** `onCreate`'s auth guard and load: without a signed-in user the
        content stays hidden and nothing is loaded; `docs` is None when the
        users query fails, which changes nothing. */
    method OnCreate(me: Option<AuthUser>, docs: Option<seq<Account>>)
      modifies this`allUsers, this`displayedUsers, this`contentVisible
      ensures contentVisible == me.Some?
      ensures me.None? || docs.None? ==> allUsers == old(allUsers) && displayedUsers == old(displayedUsers)
      ensures me.Some? && docs.Some? ==>
                allUsers == WithoutUser(docs.value, me.value.uid) && displayedUsers == allUsers
    {
      if me.None? {
        contentVisible := false;
        return;
      }
      contentVisible := true;
      if docs.Some? {
        OnUsersLoaded(docs.value, me.value.uid);
      }
    }
  }
}
