/**
 * The authentication repository: users keyed by their normalised e-mail and
 * login sessions stored under a peppered hash of the session id.
 *
 * SHA-256 is a parameter `sha` (a function from text to hex digest), the
 * fresh UUIDs are parameters, and the database clock `NOW()` is `now`.
 */
module AuthRepo {
  import opened Wrappers
  import opened Strings
  import UsageRepo

  const DEFAULT_SESSION_DAYS := 14

  datatype UserRow = UserRow(userId: string, email: Option<string>, stripeCustomerId: Option<string>, createdAt: int)

  datatype SessionRow = SessionRow(
    sessionIdHash: string,
    userId: string,
    createdAt: int,
    lastSeenAt: int,
    expiresAt: int,
    ip: Option<string>,
    userAgent: Option<string>,
    revokedAt: Option<int>)

  /**
   * The text that is hashed for a session id: `pepper:sid` when a pepper is
   * configured, the bare id otherwise.
   */
  function SessionHashPreimage(pepper: string, sid: string): (b: string)
    ensures |b| == |sid| + (if pepper == "" then 0 else |pepper| + 1)
    ensures b[|b| - |sid|..] == sid
    ensures pepper != "" ==> b[..|pepper|] == pepper && b[|pepper|] == ':'
  {
    if pepper != "" then pepper + ":" + sid else sid
  }

  /** For a fixed pepper, different session ids are hashed from different texts. */
  lemma SessionHashPreimageInjective(pepper: string, a: string, b: string)
    requires SessionHashPreimage(pepper, a) == SessionHashPreimage(pepper, b)
    ensures a == b
  {
    var x := SessionHashPreimage(pepper, a);
    assert |a| == |b|;
    assert a == x[|x| - |a|..] == b;
  }

  /** `_hash_session`: the hex digest stored in `sessions.session_id_hash`. */
  function SessionHash(sha: string -> string, pepper: string, sid: string): string {
    sha(SessionHashPreimage(pepper, sid))
  }

  /** With a collision-free digest, two session ids share a stored hash only when they are equal. */
  lemma SessionHashInjective(sha: string -> string, pepper: string, a: string, b: string)
    requires forall x, y :: sha(x) == sha(y) ==> x == y
    requires SessionHash(sha, pepper, a) == SessionHash(sha, pepper, b)
    ensures a == b
  {
    SessionHashPreimageInjective(pepper, a, b);
  }

  /** Each e-mail address appears on at most one user row (the table's unique key). */
  ghost predicate EmailsUnique(rows: seq<UserRow>) {
    forall i, j :: 0 <= i < j < |rows| && rows[i].email.Some? ==> rows[i].email != rows[j].email
  }

  /** `SELECT user_id FROM users WHERE email = %s`, the first matching row. */
  function UserIdByEmail(rows: seq<UserRow>, email: string): (r: Option<string>)
    ensures r.None? <==> forall i :: 0 <= i < |rows| ==> rows[i].email != Some(email)
    ensures r.Some? ==> exists i :: 0 <= i < |rows| && rows[i].email == Some(email) && rows[i].userId == r.value
  {
    if |rows| == 0 then None
    else if rows[0].email == Some(email) then Some(rows[0].userId)
    else
      var r := UserIdByEmail(rows[1..], email);
      assert forall i :: 1 <= i < |rows| ==> rows[1..][i - 1] == rows[i];
      r
  }

  /** A lookup in a table grown by one row finds the old answer, or else the new row. */
  lemma {:induction false} UserIdByEmailAppend(rows: seq<UserRow>, row: UserRow, email: string)
    ensures UserIdByEmail(rows + [row], email)
         == if UserIdByEmail(rows, email).Some? then UserIdByEmail(rows, email)
            else if row.email == Some(email) then Some(row.userId)
            else None
  {
    if |rows| > 0 {
      assert (rows + [row])[1..] == rows[1..] + [row];
      UserIdByEmailAppend(rows[1..], row, email);
    }
  }

  /** The users table. */
  class UserTable {
    var rows: seq<UserRow>

    ghost predicate Valid()
      reads this
    {
      EmailsUnique(rows)
    }

    constructor ()
      ensures rows == [] && Valid()
    {
      rows := [];
    }

    /**
     * `upsert_user_by_email`: normalise the address; return the id of the row
     * that already has it, or insert a row with the fresh id and return that.
     * Afterwards the normalised address resolves to the returned id.
     */
    method UpsertUserByEmail(email: string, freshId: string, now: int) returns (userId: string)
      requires Valid()
      modifies this
      ensures Valid()
      ensures UserIdByEmail(rows, Normalize(email)) == Some(userId)
      ensures UserIdByEmail(old(rows), Normalize(email)).Some? ==>
        userId == UserIdByEmail(old(rows), Normalize(email)).value && rows == old(rows)
      ensures UserIdByEmail(old(rows), Normalize(email)).None? ==>
        userId == freshId && rows == old(rows) + [UserRow(freshId, Some(Normalize(email)), None, now)]
    {
      var e := Normalize(email);
      var found := UserIdByEmail(rows, e);
      if found.Some? {
        return found.value;
      }
      var row := UserRow(freshId, Some(e), None, now);
      UserIdByEmailAppend(rows, row, e);
      rows := rows + [row];
      userId := freshId;
    }
  }

  /** The sessions table. */
  class SessionTable {
    var rows: seq<SessionRow>

    constructor ()
      ensures rows == []
    {
      rows := [];
    }

    /**
     * `create_session`: store one unrevoked row under the hash of the fresh
     * session id, expiring `days` days from now, and hand the raw id back.
     */
    method CreateSession(userId: string, days: int := DEFAULT_SESSION_DAYS, ip: Option<string>, userAgent: Option<string>,
                         freshSid: string, sha: string -> string, pepper: string, now: int)
      returns (sid: string)
      modifies this
      ensures sid == freshSid
      ensures rows == old(rows) + [SessionRow(SessionHash(sha, pepper, sid), userId, now, now,
                                              now + days * UsageRepo.SECONDS_PER_DAY, ip, userAgent, None)]
    {
      sid := freshSid;
      var row := SessionRow(SessionHash(sha, pepper, sid), userId, now, now,
                            now + days * UsageRepo.SECONDS_PER_DAY, ip, userAgent, None);
      rows := rows + [row];
    }
  }
}
