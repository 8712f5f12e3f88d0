/** The admin page: the list of accounts waiting for approval, and the approve and decline
    actions on them. */
module Admin {
  import opened Common
  import Login

  /** One account as `/api/user` lists it. `createdAt` is the text `toLocaleString` gives for
      `new Date(created_at)` ("Invalid Date" for a missing or unreadable date). */
  datatype User = User(
    userId: int, firstname: Scalar, middleName: Scalar, lastname: Scalar,
    brgy: Scalar, email: Scalar, phoneNumber: Scalar, createdAt: string,
    role: Scalar, approved: Scalar)

  /** `!user.approved && user.role !== "admin"`. */
  predicate Pending(u: User)
  {
    !Truthy(u.approved) && u.role != Str("admin")
  }

  /** `users.filter(Pending)`. */
  function PendingUsers(users: seq<User>): (r: seq<User>)
    ensures forall i :: 0 <= i < |r| ==> Pending(r[i])
    ensures forall u :: u in r <==> u in users && Pending(u)
    ensures multiset(r) <= multiset(users)
    decreases |users|
  {
    if users == [] then []
    else
      assert users == [users[0]] + users[1..];
      (if Pending(users[0]) then [users[0]] else []) + PendingUsers(users[1..])
  }

  /** The filter keeps the order of the listing: filtering a concatenation concatenates the
      filtered parts. */
  lemma {:induction false} PendingUsersAppend(a: seq<User>, b: seq<User>)
    ensures PendingUsers(a + b) == PendingUsers(a) + PendingUsers(b)
    decreases |a|
  {
    if a == [] {
      assert a + b == b;
    } else {
      assert (a + b)[1..] == a[1..] + b;
      PendingUsersAppend(a[1..], b);
    }
  }

  /** Filtering twice changes nothing more. */
  lemma {:induction false} PendingUsersIdempotent(users: seq<User>)
    ensures PendingUsers(PendingUsers(users)) == PendingUsers(users)
    decreases |users|
  {
    if users != [] {
      PendingUsersIdempotent(users[1..]);
      var head := if Pending(users[0]) then [users[0]] else [];
      PendingUsersAppend(head, PendingUsers(users[1..]));
    }
  }

  /** `approved === 0` passes the sign-in gate, which only tests `=== false`, yet such a user is
      still listed as waiting for approval, since 0 is falsy. */
  lemma ZeroApprovedSignsInAndIsPending(token: string, u: User)
    requires token != "" && u.approved == Num(0) && u.role != Str("admin")
    ensures Pending(u)
    ensures Login.LoginResult(Common.Response(200, Parsed(Login.LoginJson(None,
      Some(Login.LoginData(Some(token), Some(Login.LoginUser(u.role, u.approved)))))))).SignedIn?
  {
  }

  /** One `<tr id="user-…">` of the listing with its cell texts. */
  datatype UserRow = UserRow(id: string, cells: seq<string>)

  function RowId(userId: int): string
  {
    "user-" + IntToString(userId)
  }

  function UserRowOf(u: User): UserRow
  {
    UserRow(RowId(u.userId), [IntToString(u.userId), ValueText(u.firstname), ValueText(u.middleName),
      ValueText(u.lastname), ValueText(u.brgy), ValueText(u.email), ValueText(u.phoneNumber),
      u.createdAt, ValueText(u.role), "Approve Decline"])
  }

  /** The rows for a list of users, in order. */
  function UserRows(users: seq<User>): (r: seq<UserRow>)
    ensures |r| == |users| && forall i :: 0 <= i < |users| ==> r[i] == UserRowOf(users[i])
  {
    seq(|users|, i requires 0 <= i < |users| => UserRowOf(users[i]))
  }

  /** The rows without the first one whose id is `id` (`getElementById` finds the first). */
  function RemoveById(rows: seq<UserRow>, id: string): seq<UserRow>
    decreases |rows|
  {
    if rows == [] then []
    else if rows[0].id == id then rows[1..]
    else [rows[0]] + RemoveById(rows[1..], id)
  }

  /** Some row has the id `id`. */
  predicate HasRow(rows: seq<UserRow>, id: string)
    decreases |rows|
  {
    rows != [] && (rows[0].id == id || HasRow(rows[1..], id))
  }

  /** No two rows share an id, as element ids in a page should not. */
  predicate UniqueIds(rows: seq<UserRow>)
    decreases |rows|
  {
    rows == [] || (!HasRow(rows[1..], rows[0].id) && UniqueIds(rows[1..]))
  }

  /** removeUserRow takes out one row when there is a row with that id, and leaves the table
      as it was when there is none; no row is added. */
  lemma {:induction false} RemoveByIdShape(rows: seq<UserRow>, id: string)
    ensures HasRow(rows, id) ==> |RemoveById(rows, id)| == |rows| - 1
    ensures !HasRow(rows, id) ==> RemoveById(rows, id) == rows
    ensures multiset(RemoveById(rows, id)) <= multiset(rows)
    decreases |rows|
  {
    if rows != [] {
      assert rows == [rows[0]] + rows[1..];
      if rows[0].id != id {
        RemoveByIdShape(rows[1..], id);
      }
    }
  }

  /** With distinct ids the user's row is gone afterwards and every other row is still there. */
  lemma {:induction false} RemoveByIdOnlyThatRow(rows: seq<UserRow>, id: string)
    requires UniqueIds(rows)
    ensures !HasRow(RemoveById(rows, id), id)
    ensures forall x :: x in rows && x.id != id ==> x in RemoveById(rows, id)
    decreases |rows|
  {
    if rows != [] && rows[0].id != id {
      RemoveByIdOnlyThatRow(rows[1..], id);
      var t := RemoveById(rows[1..], id);
      assert RemoveById(rows, id) == [rows[0]] + t;
      assert ([rows[0]] + t)[1..] == t;
    }
  }

  /** The admin table. */
  class AdminTable {
    var rows: seq<UserRow>

    constructor ()
      ensures rows == []
    {
      rows := [];
    }

    /** removeUserRow(userId): the row `user-<id>` goes if it is there; otherwise nothing
        happens. */
    method RemoveUserRow(userId: int)
      modifies this
      ensures rows == RemoveById(old(rows), RowId(userId))
    {
      rows := RemoveById(rows, RowId(userId));
    }

    /** fetchAdmin: on an ok list, the pending users' rows, built one user at a time. */
    method FetchAdmin(response: Response<seq<User>>) returns (notice: Option<Notice>)
      modifies this
      ensures response.Response? && Ok(response.status) && response.body.Parsed? ==>
        notice == None && rows == UserRows(PendingUsers(response.body.value))
      ensures response.Response? && !Ok(response.status) ==>
        notice == Some(Failure("HTTP-Error: " + IntToString(response.status), DefaultSeconds)) && rows == old(rows)
      ensures response.NetworkFailure? ==>
        notice == Some(Failure("An error occurred: " + response.reason, DefaultSeconds)) && rows == old(rows)
      ensures response.Response? && Ok(response.status) && response.body.Unparsable? ==>
        notice == Some(Failure("An error occurred: " + response.body.reason, DefaultSeconds)) && rows == old(rows)
    {
      match response {
        case NetworkFailure(reason) =>
          notice := Some(Failure("An error occurred: " + reason, DefaultSeconds));
        case Response(status, body) =>
          if !Ok(status) {
            notice := Some(Failure("HTTP-Error: " + IntToString(status), DefaultSeconds));
          } else if body.Unparsable? {
            notice := Some(Failure("An error occurred: " + body.reason, DefaultSeconds));
          } else {
            var filtered := PendingUsers(body.value);
            var built: seq<UserRow> := [];
            var i := 0;
            while i < |filtered|
              invariant 0 <= i <= |filtered|
              invariant |built| == i && forall k :: 0 <= k < i ==> built[k] == UserRowOf(filtered[k])
            {
              built := built + [UserRowOf(filtered[i])];
              i := i + 1;
            }
            rows := built;
            notice := None;
          }
      }
    }

    /** approveUser / declineUser: on an ok answer announce it, drop the row, and ask for a
        refetch; otherwise (the thrown "Failed to …" or a network error) show the error and
        keep the rows. */
    method Decide(userId: int, approve: bool, response: Response<()>) returns (notice: Notice, refetch: bool)
      modifies this
      ensures notice == DecisionNotice(approve, response)
      ensures refetch <==> response.Response? && Ok(response.status)
      ensures rows == if refetch then RemoveById(old(rows), RowId(userId)) else old(rows)
    {
      notice := DecisionNotice(approve, response);
      refetch := response.Response? && Ok(response.status);
      if refetch {
        RemoveUserRow(userId);
      }
    }
  }

  const ApprovePrefix := "Error approving user: "
  const DeclinePrefix := "Error declining user: "
  const ApproveFailed := "Failed to approve user"
  const DeclineFailed := "Failed to decline user"

  /** The notice an approve or decline ends in: a non-ok status is thrown as "Failed to …"
      and caught under the action's prefix, as a network error is. */
  function DecisionNotice(approve: bool, response: Response<()>): (n: Notice)
    ensures n.Success? <==> response.Response? && Ok(response.status)
    ensures n.seconds == DefaultSeconds
    ensures response.Response? && !Ok(response.status) ==>
      n.message == if approve then ApprovePrefix + ApproveFailed else DeclinePrefix + DeclineFailed
    ensures response.NetworkFailure? ==>
      n.message == (if approve then ApprovePrefix else DeclinePrefix) + response.reason
  {
    var prefix := if approve then ApprovePrefix else DeclinePrefix;
    match response
    case NetworkFailure(reason) => Failure(prefix + reason, DefaultSeconds)
    case Response(status, _) =>
      if Ok(status) then Success(if approve then "User approved successfully." else "User declined successfully.", DefaultSeconds)
      else Failure(prefix + (if approve then ApproveFailed else DeclineFailed), DefaultSeconds)
  }
}
