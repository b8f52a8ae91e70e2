/** The console's user table. A row's token version goes up whenever something a session rests on changes; a new row
    starts at the clock, in nanoseconds. Each operation is one transaction. */
module Users {
  import opened Domain
  import opened Text
  import opened Usernames

  const SECOND := 1_000_000_000
  const INITIAL_ADMIN := "admin"

  datatype Role = Admin | Operator | Unknown(text: string)
  {
    predicate Valid() { !Unknown? }
  }

  datatype User = User(username: string, passwordHash: string, role: Role, disabled: bool, mustChange: bool,
                       version: int, createdAt: int, lastLogin: Option<int>)

  datatype Fault = NotFound | Exists | LastAdmin | InvalidUsername | InvalidRole
  datatype Result = Done | Created | Refused(fault: Fault)

  /** Rows by lower-cased name: the primary key compares case-blind. */
  type Rows = map<string, User>

  datatype Op =
    | Create(user: User)
    | SetRole(name: string, role: Role)
    | SetDisabled(name: string, disabled: bool)
    | SetPassword(name: string, hash: string, mustChange: bool)
    | Delete(name: string)
    | TouchLogin(name: string, at: int)
    | EnsureInitialAdmin(hash: string)
    | ResetAdmin(hash: string)

  function Key(name: string): string { LowerAll(name) }

  predicate EnabledAdmin(u: User) { u.role == Admin && !u.disabled }

  predicate OtherAdmin(rows: Rows, key: string) { exists k :: k in rows && k != key && EnabledAdmin(rows[k]) }

  /** Taking `key` out of the enabled admins would leave none. */
  predicate IsLastAdmin(rows: Rows, key: string)
    requires key in rows
  {
    EnabledAdmin(rows[key]) && !OtherAdmin(rows, key)
  }

  function NewRow(u: User, now: int): User { u.(version := now, createdAt := now / SECOND, lastLogin := None) }

  function InitialAdmin(hash: string): User { User(INITIAL_ADMIN, hash, Admin, false, true, 0, 0, None) }

  function Restored(u: User, hash: string): User {
    Bumped(u).(passwordHash := hash, mustChange := true, disabled := false, role := Admin)
  }

  function Bumped(u: User): User { u.(version := u.version + 1) }

  /** The table and the answer after one operation at `now`. */
  function Step(rows: Rows, op: Op, now: int): (Rows, Result) {
    match op
    case Create(u) =>
      if !ValidUsername(u.username) then (rows, Refused(InvalidUsername))
      else if !u.role.Valid() then (rows, Refused(InvalidRole))
      else if Key(u.username) in rows then (rows, Refused(Exists))
      else (rows[Key(u.username) := NewRow(u, now)], Done)
    case SetRole(name, role) =>
      if !role.Valid() then (rows, Refused(InvalidRole))
      else if Key(name) !in rows then (rows, Refused(NotFound))
      else if rows[Key(name)].role == role then (rows, Done)
      else if role != Admin && IsLastAdmin(rows, Key(name)) then (rows, Refused(LastAdmin))
      else (rows[Key(name) := Bumped(rows[Key(name)]).(role := role)], Done)
    case SetDisabled(name, disabled) =>
      if Key(name) !in rows then (rows, Refused(NotFound))
      else if rows[Key(name)].disabled == disabled then (rows, Done)
      else if disabled && IsLastAdmin(rows, Key(name)) then (rows, Refused(LastAdmin))
      else (rows[Key(name) := Bumped(rows[Key(name)]).(disabled := disabled)], Done)
    case SetPassword(name, hash, mustChange) =>
      if Key(name) !in rows then (rows, Refused(NotFound))
      else (rows[Key(name) := Bumped(rows[Key(name)]).(passwordHash := hash, mustChange := mustChange)], Done)
    case Delete(name) =>
      if Key(name) !in rows then (rows, Refused(NotFound))
      else if IsLastAdmin(rows, Key(name)) then (rows, Refused(LastAdmin))
      else (rows - {Key(name)}, Done)
    case TouchLogin(name, at) =>
      if Key(name) !in rows then (rows, Refused(NotFound))
      else (rows[Key(name) := rows[Key(name)].(lastLogin := Some(at / SECOND))], Done)
    case EnsureInitialAdmin(hash) =>
      if |rows| > 0 then (rows, Done) else (rows[Key(INITIAL_ADMIN) := NewRow(InitialAdmin(hash), now)], Created)
    case ResetAdmin(hash) =>
      if Key(INITIAL_ADMIN) in rows then
        (rows[Key(INITIAL_ADMIN) := Restored(rows[Key(INITIAL_ADMIN)], hash)], Done)
      else (rows[Key(INITIAL_ADMIN) := NewRow(InitialAdmin(hash), now)], Created)
  }

  class Store {
    var rows: Rows

    /** Every row sits under its own name, lower-cased. */
    ghost predicate Valid()
      reads this
    {
      forall k | k in rows :: Key(rows[k].username) == k
    }

    constructor ()
      ensures Valid() && rows == map[]
    {
      rows := map[];
    }

    method Insert(u: User, now: int) returns (r: Result)
      requires Valid()
      modifies this
      ensures Valid()
      ensures if Key(u.username) in old(rows) then rows == old(rows) && r == Refused(Exists)
              else rows == old(rows)[Key(u.username) := NewRow(u, now)] && r == Done
    {
      if Key(u.username) in rows {
        return Refused(Exists);
      }
      rows := rows[Key(u.username) := NewRow(u, now)];
      r := Done;
    }

    method DoCreate(u: User, now: int) returns (r: Result)
      requires Valid()
      modifies this
      ensures Valid() && (rows, r) == Step(old(rows), Create(u), now)
    {
      if !ValidUsername(u.username) {
        return Refused(InvalidUsername);
      }
      if !u.role.Valid() {
        return Refused(InvalidRole);
      }
      r := Insert(u, now);
    }

    /** Counts the other enabled admins when `cur` is one itself. */
    method GuardLastAdmin(cur: User) returns (last: bool)
      requires Valid() && Key(cur.username) in rows && rows[Key(cur.username)] == cur
      ensures last == IsLastAdmin(rows, Key(cur.username))
    {
      if cur.role != Admin || cur.disabled {
        return false;
      }
      var left, count := rows.Keys - {Key(cur.username)}, 0;
      while left != {}
        invariant left <= rows.Keys - {Key(cur.username)} && count >= 0
        invariant count == 0 <==> forall k | k in rows && k != Key(cur.username) && k !in left :: !EnabledAdmin(rows[k])
        decreases left
      {
        var k :| k in left;
        left := left - {k};
        if EnabledAdmin(rows[k]) {
          count := count + 1;
        }
      }
      last := count == 0;
    }

    method DoSetRole(name: string, role: Role, now: int) returns (r: Result)
      requires Valid()
      modifies this
      ensures Valid() && (rows, r) == Step(old(rows), SetRole(name, role), now)
    {
      if !role.Valid() {
        return Refused(InvalidRole);
      }
      if Key(name) !in rows {
        return Refused(NotFound);
      }
      var cur := rows[Key(name)];
      if cur.role == role {
        return Done;
      }
      if role != Admin {
        var last := GuardLastAdmin(cur);
        if last {
          return Refused(LastAdmin);
        }
      }
      rows := rows[Key(cur.username) := Bumped(cur).(role := role)];
      r := Done;
    }

    method DoSetDisabled(name: string, disabled: bool, now: int) returns (r: Result)
      requires Valid()
      modifies this
      ensures Valid() && (rows, r) == Step(old(rows), SetDisabled(name, disabled), now)
    {
      if Key(name) !in rows {
        return Refused(NotFound);
      }
      var cur := rows[Key(name)];
      if cur.disabled == disabled {
        return Done;
      }
      if disabled {
        var last := GuardLastAdmin(cur);
        if last {
          return Refused(LastAdmin);
        }
      }
      rows := rows[Key(cur.username) := Bumped(cur).(disabled := disabled)];
      r := Done;
    }

    method DoSetPassword(name: string, hash: string, mustChange: bool, now: int) returns (r: Result)
      requires Valid()
      modifies this
      ensures Valid() && (rows, r) == Step(old(rows), SetPassword(name, hash, mustChange), now)
    {
      if Key(name) !in rows {
        return Refused(NotFound);
      }
      var cur := rows[Key(name)];
      rows := rows[Key(cur.username) := Bumped(cur).(passwordHash := hash, mustChange := mustChange)];
      r := Done;
    }

    method DoDelete(name: string, now: int) returns (r: Result)
      requires Valid()
      modifies this
      ensures Valid() && (rows, r) == Step(old(rows), Delete(name), now)
    {
      if Key(name) !in rows {
        return Refused(NotFound);
      }
      var cur := rows[Key(name)];
      var last := GuardLastAdmin(cur);
      if last {
        return Refused(LastAdmin);
      }
      rows := rows - {Key(cur.username)};
      r := Done;
    }

    method DoTouchLogin(name: string, at: int, now: int) returns (r: Result)
      requires Valid()
      modifies this
      ensures Valid() && (rows, r) == Step(old(rows), TouchLogin(name, at), now)
    {
      if Key(name) !in rows {
        return Refused(NotFound);
      }
      rows := rows[Key(name) := rows[Key(name)].(lastLogin := Some(at / SECOND))];
      r := Done;
    }

    method DoEnsureInitialAdmin(hash: string, now: int) returns (r: Result)
      requires Valid()
      modifies this
      ensures Valid() && (rows, r) == Step(old(rows), EnsureInitialAdmin(hash), now)
    {
      if |rows| > 0 {
        return Done;
      }
      rows := rows[Key(INITIAL_ADMIN) := NewRow(InitialAdmin(hash), now)];
      r := Created;
    }

    method DoResetAdmin(hash: string, now: int) returns (r: Result)
      requires Valid()
      modifies this
      ensures Valid() && (rows, r) == Step(old(rows), ResetAdmin(hash), now)
    {
      if Key(INITIAL_ADMIN) in rows {
        var cur := rows[Key(INITIAL_ADMIN)];
        var restored := Bumped(cur).(passwordHash := hash, mustChange := true, disabled := false, role := Admin);
        rows := rows[Key(INITIAL_ADMIN) := restored];
        return Done;
      }
      r := Insert(InitialAdmin(hash), now);
      r := Created;
    }
  }

  // ---------------------------------------------------------------- what revokes

  /** The operations after which sessions of `n` are to be gone: a changed role or status, a new password, a removal,
      and the reset of the initial admin. */
  predicate Revokes(rows: Rows, op: Op, now: int, n: string)
    requires n in rows
  {
    !Step(rows, op, now).1.Refused? &&
    match op
    case SetRole(name, role) => Key(name) == n && rows[n].role != role
    case SetDisabled(name, disabled) => Key(name) == n && rows[n].disabled != disabled
    case SetPassword(name, _, _) => Key(name) == n
    case Delete(name) => Key(name) == n
    case ResetAdmin(_) => n == Key(INITIAL_ADMIN)
    case _ => false
  }

  /** Exactly these move a row's version or remove it; any other operation leaves all of the row but its login time. */
  lemma OnlyRevocationsChangeARow(rows: Rows, op: Op, now: int, n: string)
    requires n in rows
    ensures var after := Step(rows, op, now).0;
      if Revokes(rows, op, now, n) then n !in after || after[n].version == rows[n].version + 1
      else n in after && after[n].(lastLogin := rows[n].lastLogin) == rows[n]
    ensures var after := Step(rows, op, now).0;
      n !in after <==> (op.Delete? && Key(op.name) == n && !IsLastAdmin(rows, n))
  {
    if op.EnsureInitialAdmin? {
      assert n in rows.Keys && |rows.Keys| == |rows|;
    }
  }

  lemma NewRowsStartAtTheClock(rows: Rows, op: Op, now: int, n: string)
    requires n !in rows && n in Step(rows, op, now).0
    ensures var u := Step(rows, op, now).0[n];
      && u.version == now && u.createdAt == now / SECOND
      && Key(u.username) == n && ValidUsername(u.username) && u.role.Valid()
  {
  }

  // ---------------------------------------------------------------- what a row holds

  /** The parts of a row that operations are asked to set. */
  datatype Field = Name | Hash | RoleField | Status | MustChange | Login
  datatype Value = Text(text: string) | RoleValue(role: Role) | Flag(flag: bool) | Time(time: Option<int>)

  function ValueOf(u: User, f: Field): Value {
    match f
    case Name => Text(u.username)
    case Hash => Text(u.passwordHash)
    case RoleField => RoleValue(u.role)
    case Status => Flag(u.disabled)
    case MustChange => Flag(u.mustChange)
    case Login => Time(u.lastLogin)
  }

  /** What the operation, if it takes effect, asks of this part of the row of `n`. A row that is made is asked to hold
      the whole of what it is made from, and no login. */
  function AskedOf(op: Op, r: Result, n: string, f: Field): Option<Value> {
    match op
    case Create(u) => if Key(u.username) == n then Some(ValueOf(u.(lastLogin := None), f)) else None
    case SetRole(name, role) => if Key(name) == n && f == RoleField then Some(RoleValue(role)) else None
    case SetDisabled(name, disabled) => if Key(name) == n && f == Status then Some(Flag(disabled)) else None
    case SetPassword(name, hash, mustChange) =>
      if Key(name) != n then None
      else if f == Hash then Some(Text(hash))
      else if f == MustChange then Some(Flag(mustChange))
      else None
    case Delete(_) => None
    case TouchLogin(name, at) => if Key(name) == n && f == Login then Some(Time(Some(at / SECOND))) else None
    case EnsureInitialAdmin(hash) => if r.Created? then AskedOfAdmin(hash, r, n, f) else None
    case ResetAdmin(hash) => AskedOfAdmin(hash, r, n, f)
  }

  function AskedOfAdmin(hash: string, r: Result, n: string, f: Field): Option<Value> {
    if n != Key(INITIAL_ADMIN) then None
    else
      match f
      case Name => if r.Created? then Some(Text(INITIAL_ADMIN)) else None
      case Hash => Some(Text(hash))
      case RoleField => Some(RoleValue(Admin))
      case Status => Some(Flag(false))
      case MustChange => Some(Flag(true))
      case Login => if r.Created? then Some(Time(None)) else None
  }

  /** An operation that is not refused leaves in each row what it asks for, and otherwise what was there; a refused one
      leaves the table as it was. */
  lemma RowsHoldWhatWasAsked(rows: Rows, op: Op, now: int, n: string, f: Field)
    ensures var (after, r) := Step(rows, op, now);
      if r.Refused? then after == rows
      else n in after ==>
        match AskedOf(op, r, n, f)
        case Some(v) => ValueOf(after[n], f) == v
        case None => n in rows && ValueOf(after[n], f) == ValueOf(rows[n], f)
    ensures var (after, r) := Step(rows, op, now);
      !r.Refused? && AskedOf(op, r, n, f).Some? ==> n in after
  {
    hide Key, IsLastAdmin, ValidUsername;
    assert |rows| == 0 <==> rows == map[];
  }

  // ---------------------------------------------------------------- the last admin

  predicate HasAdmin(rows: Rows) { exists k :: k in rows && EnabledAdmin(rows[k]) }

  /** The guard refuses exactly when the row is what stands between the table and no enabled admin. */
  lemma GuardIsExact(rows: Rows, key: string)
    requires key in rows
    ensures IsLastAdmin(rows, key) <==> (HasAdmin(rows) && !HasAdmin(rows - {key}))
  {
    assert forall k | k in rows - {key} :: (rows - {key})[k] == rows[k];
    if OtherAdmin(rows, key) {
      var k :| k in rows && k != key && EnabledAdmin(rows[k]);
      assert k in rows - {key};
    }
  }

  lemma StepKeepsAnAdmin(rows: Rows, op: Op, now: int)
    requires HasAdmin(rows)
    ensures HasAdmin(Step(rows, op, now).0)
  {
    var after := Step(rows, op, now).0;
    var k :| k in rows && EnabledAdmin(rows[k]);
    if !(k in after && EnabledAdmin(after[k])) {
      AdminLossHasAnother(rows, op, now, k);
    }
  }

  lemma AdminLossHasAnother(rows: Rows, op: Op, now: int, k: string)
    requires k in rows && EnabledAdmin(rows[k])
    requires var after := Step(rows, op, now).0; !(k in after && EnabledAdmin(after[k]))
    ensures HasAdmin(Step(rows, op, now).0)
  {
    var after := Step(rows, op, now).0;
    OnlyRevocationsChangeARow(rows, op, now, k);
    assert OtherAdmin(rows, k);
    var other :| other in rows && other != k && EnabledAdmin(rows[other]);
    assert other in after && after[other] == rows[other];
  }

  /** The table with the change that the operation asks for made, whatever that leads to. */
  function Wanted(rows: Rows, op: Op): Rows
    requires op.SetRole? || op.SetDisabled? || op.Delete?
    requires Key(op.name) in rows
  {
    match op
    case SetRole(name, role) => rows[Key(name) := rows[Key(name)].(role := role)]
    case SetDisabled(name, disabled) => rows[Key(name) := rows[Key(name)].(disabled := disabled)]
    case Delete(name) => rows - {Key(name)}
  }

  /** A change of role, a change of status or a removal is refused for the last admin's sake exactly when it would take
      the table from an enabled admin to none. */
  lemma RefusedForTheLastAdminIff(rows: Rows, op: Op, now: int)
    requires op.SetRole? || op.SetDisabled? || op.Delete?
    requires Key(op.name) in rows && (op.SetRole? ==> op.role.Valid())
    ensures Step(rows, op, now).1 == Refused(LastAdmin) <==> (HasAdmin(rows) && !HasAdmin(Wanted(rows, op)))
    ensures Step(rows, op, now).1 == Refused(LastAdmin) || Step(rows, op, now).1 == Done
  {
    var key, wanted := Key(op.name), Wanted(rows, op);
    GuardIsExact(rows, key);
    forall k | k in rows && k != key
      ensures k in wanted && wanted[k] == rows[k]
    {
    }
    assert HasAdmin(wanted) <==> (OtherAdmin(rows, key) || (key in wanted && EnabledAdmin(wanted[key])));
    hide Key;
  }

  /** Every other refusal: an operation is refused for want of its row, or a new one for its name or role. */
  lemma RefusedOtherwiseIff(rows: Rows, op: Op, now: int)
    ensures Step(rows, op, now).1 == Refused(NotFound)
      <==> && (op.SetRole? || op.SetDisabled? || op.SetPassword? || op.Delete? || op.TouchLogin?)
           && (op.SetRole? ==> op.role.Valid()) && Key(op.name) !in rows
    ensures Step(rows, op, now).1 == Refused(Exists)
      <==> op.Create? && ValidUsername(op.user.username) && op.user.role.Valid() && Key(op.user.username) in rows
    ensures Step(rows, op, now).1 == Refused(InvalidUsername) <==> op.Create? && !ValidUsername(op.user.username)
    ensures Step(rows, op, now).1 == Refused(InvalidRole)
      <==> (op.SetRole? && !op.role.Valid())
           || (op.Create? && ValidUsername(op.user.username) && !op.user.role.Valid())
  {
    hide Key, IsLastAdmin, ValidUsername;
  }

  datatype Timed = At(op: Op, now: int)

  function RowsAfter(rows: Rows, run: seq<Timed>): Rows {
    if run == [] then rows
    else
      var n := |run| - 1;
      Step(RowsAfter(rows, run[..n]), run[n].op, run[n].now).0
  }

  /** Operation `i` of the run on an empty table took effect and asked this of the row of `n`. */
  predicate AskedAt(run: seq<Timed>, i: nat, n: string, f: Field, v: Value)
    requires i < |run|
  {
    var r := Step(RowsAfter(map[], run[..i]), run[i].op, run[i].now).1;
    !r.Refused? && AskedOf(run[i].op, r, n, f) == Some(v)
  }

  /** In every run, each part of each row is what the last operation that was not refused and set it asked for. */
  lemma {:induction false} FieldIsTheLastAsked(run: seq<Timed>, n: string, f: Field) returns (i: nat)
    requires n in RowsAfter(map[], run)
    ensures i < |run| && AskedAt(run, i, n, f, ValueOf(RowsAfter(map[], run)[n], f))
    ensures forall j, v | i < j < |run| :: !AskedAt(run, j, n, f, v)
  {
    hide Step, AskedOf, ValueOf;
    var m := |run| - 1;
    var before := RowsAfter(map[], run[..m]);
    RowsHoldWhatWasAsked(before, run[m].op, run[m].now, n, f);
    var r := Step(before, run[m].op, run[m].now).1;
    if !r.Refused? && AskedOf(run[m].op, r, n, f).Some? {
      i := m;
    } else {
      i := FieldIsTheLastAsked(run[..m], n, f);
      forall j, v | 0 <= j < m
        ensures AskedAt(run, j, n, f, v) <==> AskedAt(run[..m], j, n, f, v)
      {
        assert run[..m][..j] == run[..j];
      }
      forall j, v | i < j < |run|
        ensures !AskedAt(run, j, n, f, v)
      {
        if j < m {
          assert !AskedAt(run[..m], j, n, f, v);
        }
      }
    }
  }

  /** Once an enabled admin exists one always does, whatever the clock reads. */
  lemma {:induction false} AnAdminRemains(rows: Rows, run: seq<Timed>)
    requires HasAdmin(rows)
    ensures HasAdmin(RowsAfter(rows, run))
  {
    if run != [] {
      AnAdminRemains(rows, run[..|run| - 1]);
      StepKeepsAnAdmin(RowsAfter(rows, run[..|run| - 1]), run[|run| - 1].op, run[|run| - 1].now);
    }
  }

  /** The table's way in: start-up on an empty table and the recovery command both leave an enabled admin, and neither
      is ever refused. */
  lemma RecoveryGivesAnAdmin(rows: Rows, hash: string, now: int)
    ensures var (after, r) := Step(rows, ResetAdmin(hash), now);
      !r.Refused? && HasAdmin(after) && (r.Created? <==> Key(INITIAL_ADMIN) !in rows)
    ensures |rows| == 0 ==>
      var (after, r) := Step(rows, EnsureInitialAdmin(hash), now); r.Created? && HasAdmin(after)
  {
    var after := Step(rows, ResetAdmin(hash), now).0;
    assert Key(INITIAL_ADMIN) in after && EnabledAdmin(after[Key(INITIAL_ADMIN)]);
    if |rows| == 0 {
      var first := Step(rows, EnsureInitialAdmin(hash), now).0;
      assert Key(INITIAL_ADMIN) in first && EnabledAdmin(first[Key(INITIAL_ADMIN)]);
    }
  }
}
