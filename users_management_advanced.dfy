/** The advanced user administration view: the search filter, the dialog state
    and the four dialog actions, each of which needs a selected user. */
module UsersManagementAdvanced {
  import opened Common
  import opened UsersManagement

  // ---------------------------------------------------------------------------
  // Search

  /** `toLowerCase()` on one character, for the ASCII letters: 'A'..'Z' become 'a'..'z'. */
  function LowerChar(c: char): (l: char)
    ensures 'A' <= c <= 'Z' ==> l as int == c as int + 32 && 'a' <= l <= 'z'
    ensures !('A' <= c <= 'Z') ==> l == c
  {
    if 'A' <= c <= 'Z' then (c as int - 'A' as int + 'a' as int) as char else c
  }

  /** `toLowerCase()` on the ASCII letters; other characters are kept. */
  function LowerAscii(s: string): (r: string)
    ensures |r| == |s|
    ensures forall i :: 0 <= i < |s| ==> !('A' <= r[i] <= 'Z')
    ensures forall i :: 0 <= i < |s| && 'A' <= s[i] <= 'Z' ==> r[i] as int == s[i] as int + 32
    ensures forall i :: 0 <= i < |s| && !('A' <= s[i] <= 'Z') ==> r[i] == s[i]
  {
    seq(|s|, i requires 0 <= i < |s| => LowerChar(s[i]))
  }

  /** a and b spell the same text up to the case of ASCII letters. */
  predicate SameUpToCase(a: string, b: string)
  {
    |a| == |b| && forall i :: 0 <= i < |a| ==> LowerChar(a[i]) == LowerChar(b[i])
  }

  /** Lower-casing identifies exactly the strings that differ only in ASCII case. */
  lemma LowerAsciiIdentifiesCase(a: string, b: string)
    ensures LowerAscii(a) == LowerAscii(b) <==> SameUpToCase(a, b)
  {
    if LowerAscii(a) == LowerAscii(b) {
      forall i | 0 <= i < |a|
        ensures LowerChar(a[i]) == LowerChar(b[i])
      {
        assert LowerAscii(a)[i] == LowerAscii(b)[i];
      }
    }
  }

  /** needle occurs in haystack starting at position i. */
  predicate OccursAt(haystack: string, needle: string, i: nat)
  {
    i + |needle| <= |haystack| && haystack[i..i + |needle|] == needle
  }

  /** `haystack.includes(needle)` */
  predicate Contains(haystack: string, needle: string)
  {
    exists i: nat :: i <= |haystack| && OccursAt(haystack, needle, i)
  }

  /** A user is kept when the lower-cased term occurs in the lower-cased name, email or country. */
  predicate Matches(term: string, u: User)
  {
    || Contains(LowerAscii(u.fullName), LowerAscii(term))
    || Contains(LowerAscii(u.email), LowerAscii(term))
    || Contains(LowerAscii(u.country), LowerAscii(term))
  }

  /** filteredUsers */
  function FilteredUsers(users: seq<User>, term: string): (r: seq<User>)
    ensures forall i :: 0 <= i < |r| ==> r[i] in users && Matches(term, r[i])
    ensures forall i :: 0 <= i < |users| && Matches(term, users[i]) ==> users[i] in r
  {
    Filter(u => Matches(term, u), users)
  }

  /** The empty term occurs everywhere, so it keeps every user. */
  lemma EmptySearchKeepsAll(users: seq<User>)
    ensures FilteredUsers(users, "") == users
  {
    forall i | 0 <= i < |users|
      ensures Matches("", users[i])
    {
      assert OccursAt(LowerAscii(users[i].fullName), LowerAscii(""), 0);
    }
    FilterKeepsAll(u => Matches("", u), users);
  }

  /** The result keeps the original order, and searching it again changes nothing. */
  lemma SearchIsStableSubsequence(users: seq<User>, term: string)
    ensures Subseq(FilteredUsers(users, term), users)
    ensures FilteredUsers(FilteredUsers(users, term), term) == FilteredUsers(users, term)
  {
    FilterIsSubseq(u => Matches(term, u), users);
    FilterIdempotent(u => Matches(term, u), users);
  }

  /** The search is case-insensitive in the term: upper-case ASCII letters in it do not matter. */
  lemma SearchIgnoresTermCase(users: seq<User>, term: string)
    ensures FilteredUsers(users, LowerAscii(term)) == FilteredUsers(users, term)
  {
    assert LowerAscii(LowerAscii(term)) == LowerAscii(term);
    FilterCongruent(u => Matches(LowerAscii(term), u), u => Matches(term, u), users);
  }

  /** The search is case-insensitive in the data too: a user whose name, email and country
      differ from another's only in ASCII case is kept exactly when the other is. */
  lemma SearchIgnoresFieldCase(term: string, u: User, v: User)
    requires SameUpToCase(u.fullName, v.fullName)
    requires SameUpToCase(u.email, v.email)
    requires SameUpToCase(u.country, v.country)
    ensures Matches(term, u) <==> Matches(term, v)
  {
    LowerAsciiIdentifiesCase(u.fullName, v.fullName);
    LowerAsciiIdentifiesCase(u.email, v.email);
    LowerAsciiIdentifiesCase(u.country, v.country);
  }

  // ---------------------------------------------------------------------------
  // Dialog state

  datatype DialogType = BalanceDialog | VerificationDialog | DeleteDialog | RoleDialog

  datatype Role = AdminRole | ModeratorRole | UserRole

  /** The dialogs shown: each one is open exactly when dialogType names it, so at most one is. */
  function OpenDialogs(dialogType: Option<DialogType>): (open: set<DialogType>)
    ensures |open| <= 1
    ensures forall k :: k in open <==> dialogType == Some(k)
  {
    if dialogType.Some? then {dialogType.value} else {}
  }

  /** The store calls the four actions make. */
  datatype AdminCall =
    | UpdateBalance(userId: string, walletChange: string, zukaChange: string, reason: string)
    | UpdateVerification(userId: string, status: string)
    | DeleteUser(userId: string, reason: string)
    | AssignRole(userId: string, role: Role)

  class ManagementState {
    var users: seq<User>
    var searchTerm: string
    var selectedUser: Option<User>
    var dialogType: Option<DialogType>
    var walletChange: string
    var zukaChange: string
    var reason: string
    var verificationStatus: string
    var roleToAssign: Role

    constructor (fetched: seq<User>)
      ensures users == fetched && searchTerm == ""
      ensures selectedUser.None? && dialogType.None?
      ensures walletChange == "0" && zukaChange == "0" && reason == "" && verificationStatus == ""
      ensures roleToAssign == UserRole
    {
      users := fetched;
      searchTerm := "";
      selectedUser := None;
      dialogType := None;
      walletChange := "0";
      zukaChange := "0";
      reason := "";
      verificationStatus := "";
      roleToAssign := UserRole;
    }

    /** closeDialog: every dialog field back to its initial value; the role choice is kept. */
    method CloseDialog()
      modifies this
      ensures dialogType.None? && selectedUser.None?
      ensures walletChange == "0" && zukaChange == "0"
      ensures reason == "" && verificationStatus == ""
      ensures roleToAssign == old(roleToAssign)
      ensures users == old(users) && searchTerm == old(searchTerm)
    {
      dialogType := None;
      selectedUser := None;
      walletChange := "0";
      zukaChange := "0";
      reason := "";
      verificationStatus := "";
    }

    /** openDialog: verificationStatus is seeded from the user only for the verification dialog. */
    method OpenDialog(user: User, kind: Option<DialogType>)
      modifies this
      ensures selectedUser == Some(user) && dialogType == kind
      ensures verificationStatus ==
                if kind == Some(VerificationDialog) then user.verificationStatus else old(verificationStatus)
      ensures walletChange == old(walletChange) && zukaChange == old(zukaChange)
      ensures reason == old(reason) && roleToAssign == old(roleToAssign)
      ensures users == old(users) && searchTerm == old(searchTerm)
    {
      selectedUser := Some(user);
      dialogType := kind;
      if kind == Some(VerificationDialog) {
        verificationStatus := user.verificationStatus;
      }
    }

    /** fetchUsers: the rows the store returned replace the table (a null result with no
        error arrives as the empty list); None is a failed query, which keeps the table. */
    method FetchUsers(fetched: Option<seq<User>>)
      modifies this`users
      ensures users == if fetched.Some? then fetched.value else old(users)
      ensures Shown() == if fetched.Some? then FilteredUsers(fetched.value, searchTerm) else old(Shown())
    {
      if fetched.Some? {
        users := fetched.value;
      }
    }

    /** The state a successful dialog action leaves: closeDialog's resets, the search term
        and role choice kept, and the table as newUsers. */
    ghost predicate ClosedAfterSuccess(role: Role, term: string, newUsers: seq<User>)
      reads this
    {
      && dialogType.None? && selectedUser.None?
      && walletChange == "0" && zukaChange == "0" && reason == "" && verificationStatus == ""
      && roleToAssign == role && searchTerm == term && users == newUsers
    }

    /** handleUpdateBalance. callOk is the rpc's result; refetch is the answer of the
        fetchUsers call made after a successful rpc. */
    method HandleUpdateBalance(callOk: bool, refetch: Option<seq<User>>) returns (call: Option<AdminCall>)
      modifies this
      ensures old(selectedUser).None? ==> call.None? && unchanged(this)
      ensures old(selectedUser).Some? ==>
                call == Some(UpdateBalance(old(selectedUser).value.id, old(walletChange), old(zukaChange), old(reason)))
      ensures old(selectedUser).Some? && !callOk ==> unchanged(this)
      ensures old(selectedUser).Some? && callOk ==>
                ClosedAfterSuccess(old(roleToAssign), old(searchTerm),
                                   if refetch.Some? then refetch.value else old(users))
    {
      if selectedUser.None? {
        return None;
      }
      call := Some(UpdateBalance(selectedUser.value.id, walletChange, zukaChange, reason));
      if callOk {
        FetchUsers(refetch);
        CloseDialog();
      }
    }

    /** handleUpdateVerification, with the same re-fetch after a successful rpc. */
    method HandleUpdateVerification(callOk: bool, refetch: Option<seq<User>>) returns (call: Option<AdminCall>)
      modifies this
      ensures old(selectedUser).None? ==> call.None? && unchanged(this)
      ensures old(selectedUser).Some? ==>
                call == Some(UpdateVerification(old(selectedUser).value.id, old(verificationStatus)))
      ensures old(selectedUser).Some? && !callOk ==> unchanged(this)
      ensures old(selectedUser).Some? && callOk ==>
                ClosedAfterSuccess(old(roleToAssign), old(searchTerm),
                                   if refetch.Some? then refetch.value else old(users))
    {
      if selectedUser.None? {
        return None;
      }
      call := Some(UpdateVerification(selectedUser.value.id, verificationStatus));
      if callOk {
        FetchUsers(refetch);
        CloseDialog();
      }
    }

    /** handleDeleteUser, with the same re-fetch after a successful rpc. */
    method HandleDeleteUser(callOk: bool, refetch: Option<seq<User>>) returns (call: Option<AdminCall>)
      modifies this
      ensures old(selectedUser).None? ==> call.None? && unchanged(this)
      ensures old(selectedUser).Some? ==> call == Some(DeleteUser(old(selectedUser).value.id, old(reason)))
      ensures old(selectedUser).Some? && !callOk ==> unchanged(this)
      ensures old(selectedUser).Some? && callOk ==>
                ClosedAfterSuccess(old(roleToAssign), old(searchTerm),
                                   if refetch.Some? then refetch.value else old(users))
    {
      if selectedUser.None? {
        return None;
      }
      call := Some(DeleteUser(selectedUser.value.id, reason));
      if callOk {
        FetchUsers(refetch);
        CloseDialog();
      }
    }

    /** handleAssignRole: the role row is inserted and the dialog closed; no re-fetch. */
    method HandleAssignRole(callOk: bool) returns (call: Option<AdminCall>)
      modifies this
      ensures old(selectedUser).None? ==> call.None? && unchanged(this)
      ensures old(selectedUser).Some? ==> call == Some(AssignRole(old(selectedUser).value.id, old(roleToAssign)))
      ensures old(selectedUser).Some? && !callOk ==> unchanged(this)
      ensures old(selectedUser).Some? && callOk ==>
                ClosedAfterSuccess(old(roleToAssign), old(searchTerm), old(users))
    {
      if selectedUser.None? {
        return None;
      }
      call := Some(AssignRole(selectedUser.value.id, roleToAssign));
      if callOk {
        CloseDialog();
      }
    }

    /** The rows the table shows. */
    function Shown(): seq<User>
      reads this
    {
      FilteredUsers(users, searchTerm)
    }
  }
}
