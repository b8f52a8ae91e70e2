/** Signed session tokens over the user table: a token is good while its user's row is at the version the token
    names. */
module Sessions {
  import opened Domain
  import opened Users
  import opened Text
  import opened Usernames

  // ---------------------------------------------------------------- tokens

  datatype Kind = Access | Refresh
  datatype Claims = Claims(sub: string, version: int, kind: Kind, issuedAt: int, expires: int, id: string)

  /** One dot-separated part of a presented token: what its base64 and JSON decode to, if anything. The signature is an
      ideal MAC: it names the secret and the two parts it was made over. */
  datatype Part =
    | Garbage(text: string)
    | Header(alg: string)
    | Payload(claims: Claims)
    | Bytes(text: string)
    | Mac(secret: string, header: Part, payload: Part)

  type Token = seq<Part>
  const HS256 := "HS256"

  datatype Failure = Malformed | BadSignature | Expired | WrongKind
  datatype Checked = Ok(claims: Claims) | Bad(failure: Failure)

  function Seconds(t: int): int { t / SECOND }

  function NewClaims(username: string, version: int, kind: Kind, ttl: int, now: int, id: string): Claims {
    Claims(username, version, kind, Seconds(now), Seconds(now + ttl), id)
  }

  function Sign(secret: string, c: Claims): Token {
    [Header(HS256), Payload(c), Mac(secret, Header(HS256), Payload(c))]
  }

  function Issue(secret: string, username: string, version: int, kind: Kind, ttl: int, now: int, id: string): Token {
    Sign(secret, NewClaims(username, version, kind, ttl, now, id))
  }

  function Verify(secret: string, token: Token, want: Kind, now: int): Checked {
    if |token| != 3 || token[2].Garbage? then Bad(Malformed)
    else if token[2] != Mac(secret, token[0], token[1]) then Bad(BadSignature)
    else if !token[0].Header? then Bad(Malformed)
    else if token[0].alg != HS256 then Bad(BadSignature)
    else if !token[1].Payload? || token[1].claims.sub == "" then Bad(Malformed)
    else if token[1].claims.kind != want then Bad(WrongKind)
    else if Seconds(now) >= token[1].claims.expires then Bad(Expired)
    else Ok(token[1].claims)
  }

  /** What is accepted is exactly what was signed with this secret, of the wanted kind, for somebody, and not
      expired. */
  lemma VerifyInvertsSign(secret: string, token: Token, want: Kind, now: int, c: Claims)
    ensures Verify(secret, token, want, now) == Ok(c)
      <==> (token == Sign(secret, c) && c.sub != "" && c.kind == want && Seconds(now) < c.expires)
  {
    if Verify(secret, token, want, now) == Ok(c) {
      assert token == [token[0], token[1], token[2]];
    }
  }

  /** Lifetimes are cut to whole seconds: a token is never good at or after its full lifetime, and always good until
      one second before it. */
  lemma Lifetime(secret: string, username: string, version: int, kind: Kind, ttl: int, now: int, id: string, later: int)
    requires username != ""
    ensures var c := Verify(secret, Issue(secret, username, version, kind, ttl, now, id), kind, later);
      && (c.Ok? ==> later < now + ttl && c.claims == NewClaims(username, version, kind, ttl, now, id))
      && (later <= now + ttl - SECOND ==> c.Ok?)
      && (!c.Ok? ==> c == Bad(Expired))
  {
  }

  // ---------------------------------------------------------------- accepting

  /** The user a token authenticates, from the table as it is now. */
  function UserForToken(secret: string, rows: Rows, token: Token, want: Kind, now: int): Option<User> {
    match Verify(secret, token, want, now)
    case Bad(_) => None
    case Ok(c) =>
      if Key(c.sub) !in rows then None
      else
        var u := rows[Key(c.sub)];
        if u.disabled || c.version != u.version then None else Some(u)
  }

  /** The check a long-lived handler repeats for the row it authenticated with. */
  predicate StillGood(rows: Rows, u: User) {
    Key(u.username) in rows &&
    var cur := rows[Key(u.username)];
    !cur.disabled && !cur.mustChange && cur.version == u.version
  }

  // ---------------------------------------------------------------- runs

  /** What happens over time: an operation on the table, or a token issued for the row of `key` as it was read at an
      earlier point of the run. */
  datatype Event =
    | Operation(op: Op, now: int)
    | Issued(readAt: nat, key: string, kind: Kind, ttl: int, now: int, id: string)

  function RowsAt(run: seq<Event>, k: nat): Rows
    requires k <= |run|
  {
    if k == 0 then map[]
    else if run[k - 1].Operation? then Step(RowsAt(run, k - 1), run[k - 1].op, run[k - 1].now).0
    else RowsAt(run, k - 1)
  }

  function ClockAt(run: seq<Event>, k: nat, start: int): int
    requires k <= |run|
  {
    if k == 0 then start else run[k - 1].now
  }

  /** The clock never goes back, and moves at least one nanosecond before each operation on the table. */
  predicate Clocked(run: seq<Event>, start: int) {
    forall k | 0 <= k < |run| ::
      ClockAt(run, k, start) <= run[k].now && (run[k].Operation? ==> ClockAt(run, k, start) < run[k].now)
  }

  /** Event `k` revokes the sessions of `n`. */
  predicate RevokedAt(run: seq<Event>, k: nat, n: string)
    requires k < |run|
  {
    run[k].Operation? && n in RowsAt(run, k) && Revokes(RowsAt(run, k), run[k].op, run[k].now, n)
  }

  /** The version of `n`'s row, or the clock that its next row would have to pass. */
  function Height(run: seq<Event>, k: nat, start: int, n: string): int
    requires k <= |run|
  {
    if n in RowsAt(run, k) then RowsAt(run, k)[n].version else ClockAt(run, k, start)
  }

  lemma HeightStep(run: seq<Event>, k: nat, start: int, n: string)
    requires k < |run| && Clocked(run, start)
    requires n in RowsAt(run, k) ==> RowsAt(run, k)[n].version <= ClockAt(run, k, start)
    ensures n in RowsAt(run, k + 1) ==> RowsAt(run, k + 1)[n].version <= ClockAt(run, k + 1, start)
    ensures Height(run, k, start, n) <= Height(run, k + 1, start, n)
    ensures RevokedAt(run, k, n) ==> Height(run, k, start, n) < Height(run, k + 1, start, n)
  {
    var rows, e := RowsAt(run, k), run[k];
    assert ClockAt(run, k + 1, start) == e.now;
    if e.Operation? {
      assert RowsAt(run, k + 1) == Step(rows, e.op, e.now).0;
      if n in rows {
        OnlyRevocationsChangeARow(rows, e.op, e.now, n);
      } else if n in RowsAt(run, k + 1) {
        NewRowsStartAtTheClock(rows, e.op, e.now, n);
      }
      hide Step;
    }
  }

  /** No version is ahead of the clock. */
  lemma {:induction false} VersionsBelowClock(run: seq<Event>, k: nat, start: int, n: string)
    requires k <= |run| && Clocked(run, start)
    ensures n in RowsAt(run, k) ==> RowsAt(run, k)[n].version <= ClockAt(run, k, start)
  {
    hide Step, Clocked, Height, RevokedAt;
    if k > 0 {
      hide RowsAt, ClockAt;
      VersionsBelowClock(run, k - 1, start, n);
      HeightStep(run, k - 1, start, n);
    }
  }

  lemma {:induction false} HeightGrows(run: seq<Event>, j: nat, k: nat, start: int, n: string)
    requires j <= k <= |run| && Clocked(run, start)
    ensures Height(run, j, start, n) <= Height(run, k, start, n)
    ensures (exists i :: j <= i < k && RevokedAt(run, i, n)) ==> Height(run, j, start, n) < Height(run, k, start, n)
    decreases k
  {
    hide RevokedAt, RowsAt;
    if j < k {
      HeightGrows(run, j, k - 1, start, n);
      VersionsBelowClock(run, k - 1, start, n);
      HeightStep(run, k - 1, start, n);
      hide Height, Clocked;
    }
  }

  /** The row of `n` read at `j` is at the same version at `k` exactly when nothing revoked it in between; and then it
      is the same account, in all but its login time. */
  lemma SameVersionIffUnrevoked(run: seq<Event>, j: nat, k: nat, start: int, n: string)
    requires j <= k <= |run| && Clocked(run, start) && n in RowsAt(run, j)
    ensures (n in RowsAt(run, k) && RowsAt(run, k)[n].version == RowsAt(run, j)[n].version)
      <==> forall i :: j <= i < k ==> !RevokedAt(run, i, n)
    ensures (forall i :: j <= i < k ==> !RevokedAt(run, i, n)) ==> SameAccount(run, j, k, n)
  {
    if forall i :: j <= i < k ==> !RevokedAt(run, i, n) {
      UnrevokedRowStays(run, j, k, n);
    } else {
      HeightGrows(run, j, k, start, n);
    }
  }

  predicate SameAccount(run: seq<Event>, j: nat, k: nat, n: string)
    requires j <= k <= |run| && n in RowsAt(run, j)
  {
    && n in RowsAt(run, k)
    && RowsAt(run, k)[n].(lastLogin := None) == RowsAt(run, j)[n].(lastLogin := None)
  }

  lemma {:induction false} UnrevokedRowStays(run: seq<Event>, j: nat, k: nat, n: string)
    requires j <= k <= |run| && n in RowsAt(run, j)
    requires forall i :: j <= i < k ==> !RevokedAt(run, i, n)
    ensures SameAccount(run, j, k, n)
    decreases k
  {
    if j < k {
      UnrevokedRowStays(run, j, k - 1, n);
      assert !RevokedAt(run, k - 1, n);
      var rows, e := RowsAt(run, k - 1), run[k - 1];
      if e.Operation? {
        OnlyRevocationsChangeARow(rows, e.op, e.now, n);
        assert RowsAt(run, k) == Step(rows, e.op, e.now).0;
        hide Step;
      }
    }
  }

  // ---------------------------------------------------------------- revocation is permanent

  /** Event `i` issued this token, from a row it had read at an earlier point. */
  predicate IssuedBy(run: seq<Event>, i: nat, secret: string, token: Token)
    requires i < |run|
  {
    var e := run[i];
    e.Issued? && e.readAt <= i && e.key in RowsAt(run, e.readAt) &&
    var u := RowsAt(run, e.readAt)[e.key];
    token == Issue(secret, u.username, u.version, e.kind, e.ttl, e.now, e.id)
  }

  lemma {:induction false} RowsSitUnderTheirNames(run: seq<Event>, k: nat, n: string)
    requires k <= |run| && n in RowsAt(run, k)
    ensures Key(RowsAt(run, k)[n].username) == n && RowsAt(run, k)[n].username != ""
  {
    if k > 0 {
      var rows, e := RowsAt(run, k - 1), run[k - 1];
      if n in rows {
        RowsSitUnderTheirNames(run, k - 1, n);
        if e.Operation? {
          OnlyRevocationsChangeARow(rows, e.op, e.now, n);
        }
      } else {
        NewRowsStartAtTheClock(rows, e.op, e.now, n);
      }
    }
  }

  /** In any run, a token issued at `i` from the row read then is accepted at a later point exactly when it is of the
      wanted kind and in time, the user is enabled, and no event since the reading revoked that user: not even a
      removal undone by a new account of the same name. The user found is the one it was issued for. */
  lemma RevocationIsPermanent(run: seq<Event>, start: int, i: nat, k: nat, secret: string, token: Token, want: Kind,
                              now: int)
    requires Clocked(run, start) && i < k <= |run| && IssuedBy(run, i, secret, token)
    ensures var e := run[i];
      UserForToken(secret, RowsAt(run, k), token, want, now).Some? <==>
        (&& e.kind == want && Seconds(now) < Seconds(e.now + e.ttl)
         && (forall m :: e.readAt <= m < k ==> !RevokedAt(run, m, e.key))
         && !RowsAt(run, e.readAt)[e.key].disabled)
    ensures var e, found := run[i], UserForToken(secret, RowsAt(run, k), token, want, now);
      found.Some? ==> SameAccount(run, e.readAt, k, e.key) && found.value == RowsAt(run, k)[e.key]
  {
    var e := run[i];
    var u := RowsAt(run, e.readAt)[e.key];
    var c := NewClaims(u.username, u.version, e.kind, e.ttl, e.now, e.id);
    VerifyInvertsSign(secret, token, want, now, c);
    RowsSitUnderTheirNames(run, e.readAt, e.key);
    SameVersionIffUnrevoked(run, e.readAt, k, start, e.key);
    TokenIsForOneClaim(secret, token, want, now, c);
    hide Verify, RowsAt, RevokedAt;
  }

  lemma TokenIsForOneClaim(secret: string, token: Token, want: Kind, now: int, c: Claims)
    requires token == Sign(secret, c)
    ensures var v := Verify(secret, token, want, now); v.Ok? ==> v.claims == c
  {
  }

  /** A long-lived handler's check, too, fails for good once its user was revoked. */
  lemma RecheckFollowsRevocation(run: seq<Event>, start: int, j: nat, k: nat, n: string)
    requires Clocked(run, start) && j <= k <= |run| && n in RowsAt(run, j)
    ensures StillGood(RowsAt(run, k), RowsAt(run, j)[n]) <==>
      (&& (forall m :: j <= m < k ==> !RevokedAt(run, m, n))
       && !RowsAt(run, j)[n].disabled && !RowsAt(run, j)[n].mustChange)
  {
    RowsSitUnderTheirNames(run, j, n);
    SameVersionIffUnrevoked(run, j, k, start, n);
    hide RowsAt, RevokedAt;
  }

  /** What the clock is needed for: an account removed and made again accepts an old token exactly when it was made at
      the very nanosecond that is the old version. */
  lemma RecreationAcceptsIff(rows: Rows, secret: string, u: User, token: Token, want: Kind, removed: int, made: int,
                             now: int)
    requires Key(u.username) in rows && !IsLastAdmin(rows, Key(u.username))
    requires ValidUsername(u.username) && u.role.Valid() && !u.disabled
    requires Verify(secret, token, want, now).Ok?
    requires var c := Verify(secret, token, want, now).claims;
      Key(c.sub) == Key(u.username) && c.version == rows[Key(u.username)].version
    ensures
      var gone := Step(rows, Delete(u.username), removed).0;
      var again := Step(gone, Create(u), made).0;
      && UserForToken(secret, gone, token, want, now).None?
      && (UserForToken(secret, again, token, want, now).Some? <==> made == rows[Key(u.username)].version)
  {
    hide Verify;
  }

  // ---------------------------------------------------------------- disabled users

  /** Event `k` took effect and asked the row of `n` to be enabled or disabled: by a change of status, the reset of the
      initial admin, or a new account. */
  predicate StatusSetAt(run: seq<Event>, k: nat, n: string, disabled: bool)
    requires k < |run|
  {
    run[k].Operation? &&
    var r := Step(RowsAt(run, k), run[k].op, run[k].now).1;
    !r.Refused? && AskedOf(run[k].op, r, n, Status) == Some(Flag(disabled))
  }

  /** Once a user has been disabled, the row stays so until an event enables it again. */
  lemma {:induction false} DisabledRowStays(run: seq<Event>, m: nat, k: nat, n: string)
    requires m < k <= |run| && StatusSetAt(run, m, n, true)
    requires forall j :: m < j < k ==> !StatusSetAt(run, j, n, false)
    ensures n in RowsAt(run, k) ==> RowsAt(run, k)[n].disabled
    decreases k
  {
    hide Step, AskedOf;
    var rows, e := RowsAt(run, k - 1), run[k - 1];
    if k - 1 > m {
      DisabledRowStays(run, m, k - 1, n);
      assert !StatusSetAt(run, k - 1, n, false);
    }
    if e.Operation? {
      assert RowsAt(run, k) == Step(rows, e.op, e.now).0;
      RowsHoldWhatWasAsked(rows, e.op, e.now, n, Status);
      StatusIsAFlag(e.op, Step(rows, e.op, e.now).1, n);
    }
  }

  lemma StatusIsAFlag(op: Op, r: Result, n: string)
    ensures AskedOf(op, r, n, Status).Some? ==> AskedOf(op, r, n, Status).value.Flag?
  {
    hide Key;
  }

  /** From then on no token at all, whenever issued and whatever it says, is accepted for that user, nor does the check
      of a long-lived handler pass, until an event enables the user again. */
  lemma DisabledUsersAreOut(run: seq<Event>, m: nat, k: nat, n: string, secret: string, token: Token, want: Kind,
                            now: int, u: User)
    requires m < k <= |run| && StatusSetAt(run, m, n, true)
    requires forall j :: m < j < k ==> !StatusSetAt(run, j, n, false)
    ensures var found := UserForToken(secret, RowsAt(run, k), token, want, now);
      found.Some? ==> Key(found.value.username) != n
    ensures Key(u.username) == n ==> !StillGood(RowsAt(run, k), u)
  {
    DisabledRowStays(run, m, k, n);
    if UserForToken(secret, RowsAt(run, k), token, want, now).Some? {
      RowsSitUnderTheirNames(run, k, Key(Verify(secret, token, want, now).claims.sub));
    }
    hide RowsAt, Verify, Key, Step;
  }
}
