/** The store of the Docker gate as what it is made of, index rows and files, and each access to it cut into the
    single operations on them, between which anything may happen to both. */
module DockerTables {
  import opened Domain
  import opened DockerGate
  import opened DockerSteps

  /** An index row: all of a row but the content, which is a file of its own. */
  datatype Meta = Meta(clean: bool, reason: string, cveCheck: int, avCheck: int)
  datatype Tables = Tables(index: map<PackageRef, Meta>, files: map<PackageRef, Content>)

  function MetaOf(row: Row): Meta { Meta(row.clean, row.reason, row.cveCheck, row.avCheck) }
  function RowOf(meta: Meta, content: Content): Row {
    Row(content, meta.clean, meta.reason, meta.cveCheck, meta.avCheck)
  }

  /** The rows as a reader finds them: those whose file is there. */
  function View(t: Tables): Rows {
    map key | key in t.index && key in t.files :: RowOf(t.index[key], t.files[key])
  }

  /** How far an access has got: a read has its index row and looks for the file, deletes the row of a missing one, or
      opens the file; a write has moved its file into place, or failed at the index and takes the file back; an
      invalidation is about to remove the file, or the row. */
  datatype Stage =
    | Begin
    | Checking(meta: Meta) | Forgetting | Opening(meta: Meta)
    | Renamed | Undoing
    | Unlinking | Deleting

  datatype Place = Place(at: Local, stage: Stage)

  /** Reads that are after the content and open the file. */
  predicate WantsBody(l: Local) { l.AtFastBody? || l.AtSlowBody? || l.AtPassBody? || l.AtAllowBody? }

  predicate Fits(w: World, p: Place) {
    && Meant(w, p.at)
    && match p.stage
       case Begin => true
       case Checking(_) => Reads(p.at)
       case Forgetting => Reads(p.at)
       case Opening(_) => WantsBody(p.at)
       case Renamed => Writes(p.at)
       case Undoing => Writes(p.at)
       case Unlinking => p.at.AtEvict?
       case Deleting => p.at.AtEvict?
  }

  function Removed(t: Tables, key: PackageRef): Tables { t.(files := t.files - {key}) }
  function Deleted(t: Tables, key: PackageRef): Tables { t.(index := t.index - {key}) }

  function ReadOp(cfg: Config, w: World, p: Place, t: Tables, ok: bool): (r: (Place, Tables))
    requires Fits(w, p) && Reads(p.at)
    ensures Fits(w, r.0)
  {
    var l, key := p.at, KeyOf(w, p.at);
    match p.stage
    case Checking(meta) =>
      if !ok || key !in t.files then (Place(l, Forgetting), t)
      else if WantsBody(l) then (Place(l, Opening(meta)), t)
      else (Place(AfterRead(cfg, w, l, Some(RowOf(meta, t.files[key]))), Begin), t)
    case Forgetting => (Place(AfterRead(cfg, w, l, None), Begin), if ok then Deleted(t, key) else t)
    case Opening(meta) =>
      var found := if ok && key in t.files then Some(RowOf(meta, t.files[key])) else None;
      (Place(AfterRead(cfg, w, l, found), Begin), t)
    case _ =>
      if ok && key in t.index then (Place(l, Checking(t.index[key])), t)
      else (Place(AfterRead(cfg, w, l, None), Begin), t)
  }

  function WriteOp(w: World, p: Place, t: Tables, ok: bool): (r: (Place, Tables))
    requires Fits(w, p) && Writes(p.at)
    ensures Fits(w, r.0)
  {
    var l, key := p.at, KeyOf(w, p.at);
    match p.stage
    case Renamed =>
      if ok then (Place(AfterWrite(w, l, true), Begin), t.(index := t.index[key := MetaOf(Written(w, l))]))
      else (Place(l, Undoing), t)
    case Undoing => (Place(AfterWrite(w, l, false), Begin), if ok then Removed(t, key) else t)
    case _ =>
      if ok then (Place(l, Renamed), t.(files := t.files[key := Written(w, l).content]))
      else (Place(AfterWrite(w, l, false), Begin), t)
  }

  function OtherOp(w: World, p: Place, t: Tables, ok: bool): (r: (Place, Tables))
    requires Fits(w, p) && (p.at.AtEvict? || p.at.AtJoin?)
    ensures Fits(w, r.0)
  {
    var l, key := p.at, KeyOf(w, p.at);
    match p.stage
    case Unlinking => (Place(l, Deleting), if ok then Removed(t, key) else t)
    case Deleting => (Place(AfterOther(w, l), Begin), if ok then Deleted(t, key) else t)
    case _ =>
      if l.AtJoin? then (Place(AfterOther(w, l), Begin), t)
      else (Place(l, if ok && key in t.index then Unlinking else Deleting), t)
  }

  /** One operation on index or files, which may fail. */
  function Micro(cfg: Config, w: World, p: Place, t: Tables, ok: bool): (r: (Place, Tables))
    requires Fits(w, p) && !p.at.Finished?
    ensures Fits(w, r.0)
  {
    if Reads(p.at) then ReadOp(cfg, w, p, t, ok)
    else if Writes(p.at) then WriteOp(w, p, t, ok)
    else OtherOp(w, p, t, ok)
  }

  // ---------------------------------------------------------------- an access left alone

  /** Operations of one request with nothing in between, until the access is over. */
  function Alone(cfg: Config, w: World, p: Place, t: Tables, oks: seq<bool>): (Place, Tables)
    requires Fits(w, p)
    decreases |oks|
  {
    if oks == [] || p.at.Finished? then (p, t)
    else
      var (next, after) := Micro(cfg, w, p, t, oks[0]);
      Alone(cfg, w, next, after, oks[1..])
  }

  /** How the operations of an access turn out when the access as a whole ends as `w` says. */
  function Script(w: World, l: Local, t: Tables): seq<bool>
    requires Meant(w, l) && !l.Finished?
  {
    if Writes(l) then
      match w.put(PointOf(l))
      case Stored => [true, true]
      case Refused => [false]
      case Lost => [true, false, true]
      case Botched(_) => [true, false, false]
    else if l.AtEvict? then
      var found := KeyOf(w, l) in t.index;
      match w.drop(PointOf(l))
      case Dropped => if found then [true, true, true] else [true, true]
      case Kept => if found then [true, false, false] else [true, false]
      case DroppedWithError => if found then [true, true, false] else [true, false]
    else if l.AtJoin? || KeyOf(w, l) !in t.index then [true]
    else if WantsBody(l) || KeyOf(w, l) !in t.files then [true, true, true]
    else [true, true]
  }

  /** What a botched write is said to bring back is what the index holds without its file. */
  predicate HeldBack(w: World, l: Local, t: Tables)
    requires Meant(w, l) && !l.Finished?
  {
    var key := KeyOf(w, l);
    Writes(l) && w.put(PointOf(l)).Botched? && key !in View(t) ==>
      var behind := w.put(PointOf(l)).behind;
      if key in t.index then behind.Some? && MetaOf(behind.value) == t.index[key] else behind.None?
  }

  lemma AloneOnce(cfg: Config, w: World, p: Place, t: Tables, oks: seq<bool>)
    requires Fits(w, p) && !p.at.Finished? && oks != []
    ensures var (next, after) := Micro(cfg, w, p, t, oks[0]);
      Alone(cfg, w, p, t, oks) == Alone(cfg, w, next, after, oks[1..])
  {
    hide Micro, Fits;
  }

  lemma AloneThrice(cfg: Config, w: World, p: Place, t: Tables, a: bool, b: bool, c: bool)
    requires Fits(w, p) && !p.at.Finished?
    ensures Alone(cfg, w, p, t, [a]) == Micro(cfg, w, p, t, a)
    ensures var (next, after) := Micro(cfg, w, p, t, a);
      !next.at.Finished? ==>
        && Alone(cfg, w, p, t, [a, b]) == Micro(cfg, w, next, after, b)
        && var (last, end) := Micro(cfg, w, next, after, b);
           !last.at.Finished? ==> Alone(cfg, w, p, t, [a, b, c]) == Micro(cfg, w, last, end, c)
  {
    hide Micro, Fits;
    AloneOnce(cfg, w, p, t, [a]);
    AloneOnce(cfg, w, p, t, [a, b]);
    AloneOnce(cfg, w, p, t, [a, b, c]);
    var (next, after) := Micro(cfg, w, p, t, a);
    assert [a, b][1..] == [b] && [a, b, c][1..] == [b, c];
    if !next.at.Finished? {
      AloneOnce(cfg, w, next, after, [b]);
      AloneOnce(cfg, w, next, after, [b, c]);
      assert [b, c][1..] == [c];
      var (last, end) := Micro(cfg, w, next, after, b);
      if !last.at.Finished? {
        AloneOnce(cfg, w, last, end, [c]);
      }
    }
  }

  lemma ViewsAgree(m: Rows, n: Rows)
    requires forall k :: k in m <==> k in n
    requires forall k | k in m :: m[k] == n[k]
    ensures m == n
  {
  }

  /** The tables differ from what they were at `key` only. */
  ghost predicate SameElsewhere(t: Tables, u: Tables, key: PackageRef) {
    && (forall k | k != key :: (k in u.index <==> k in t.index) && (k in u.files <==> k in t.files))
    && (forall k | k != key && k in t.index :: u.index[k] == t.index[k])
    && (forall k | k != key && k in t.files :: u.files[k] == t.files[k])
  }

  lemma ViewAt(t: Tables, u: Tables, key: PackageRef)
    requires SameElsewhere(t, u, key)
    ensures View(u) == if key in u.index && key in u.files then View(t)[key := RowOf(u.index[key], u.files[key])]
                       else View(t) - {key}
  {
    var expected := if key in u.index && key in u.files then View(t)[key := RowOf(u.index[key], u.files[key])]
                    else View(t) - {key};
    ViewsAgree(View(u), expected);
  }

  /** What a write leaves of index and files. */
  function StoreLeft(t: Tables, key: PackageRef, row: Row, answer: PutAnswer): Tables {
    match answer
    case Stored => Tables(t.index[key := MetaOf(row)], t.files[key := row.content])
    case Refused => t
    case Lost => t.(files := t.files[key := row.content] - {key})
    case Botched(_) => t.(files := t.files[key := row.content])
  }

  lemma WriteLeaves(cfg: Config, w: World, l: Local, t: Tables)
    requires Meant(w, l) && Writes(l)
    ensures var answer := w.put(PointOf(l));
      Alone(cfg, w, Place(l, Begin), t, Script(w, l, t))
      == (Place(AfterWrite(w, l, answer.Stored?), Begin), StoreLeft(t, KeyOf(w, l), Written(w, l), answer))
  {
    var answer := w.put(PointOf(l));
    hide AfterWrite, Written, KeyOf, PointOf, Alone, MetaOf;
    AloneThrice(cfg, w, Place(l, Begin), t, !answer.Refused?, answer.Stored?, answer.Lost?);
  }

  lemma LeftIsPut(t: Tables, key: PackageRef, row: Row, answer: PutAnswer)
    requires answer.Botched? && key !in View(t) ==>
      if key in t.index then answer.behind.Some? && MetaOf(answer.behind.value) == t.index[key] else answer.behind.None?
    ensures View(StoreLeft(t, key, row, answer)) == PutRow(View(t), key, row, answer)
  {
    ViewAt(t, StoreLeft(t, key, row, answer), key);
    assert key in View(t) ==> View(t)[key] == RowOf(t.index[key], t.files[key]);
    assert key !in View(t) ==> View(t) - {key} == View(t);
    hide View;
  }

  lemma WriteAlone(cfg: Config, w: World, l: Local, t: Tables)
    requires Meant(w, l) && Writes(l) && HeldBack(w, l, t)
    ensures var (p, after) := Alone(cfg, w, Place(l, Begin), t, Script(w, l, t));
      && p == Place(AfterWrite(w, l, w.put(PointOf(l)).Stored?), Begin)
      && View(after) == PutRow(View(t), KeyOf(w, l), Written(w, l), w.put(PointOf(l)))
  {
    WriteLeaves(cfg, w, l, t);
    LeftIsPut(t, KeyOf(w, l), Written(w, l), w.put(PointOf(l)));
    hide Alone, Script, View, AfterWrite, KeyOf, PutRow, Written, PointOf, StoreLeft;
  }

  /** What a read leaves: the row of a file that is not there goes. */
  function ReadLeft(t: Tables, key: PackageRef): Tables {
    if key in t.index && key !in t.files then Deleted(t, key) else t
  }

  lemma ReadLeaves(cfg: Config, w: World, l: Local, t: Tables)
    requires Meant(w, l) && Reads(l)
    ensures var key := KeyOf(w, l);
      var found := if key in t.index && key in t.files then Some(RowOf(t.index[key], t.files[key])) else None;
      Alone(cfg, w, Place(l, Begin), t, Script(w, l, t))
        == (Place(AfterRead(cfg, w, l, found), Begin), ReadLeft(t, key))
  {
    hide AfterRead, KeyOf, PointOf, Alone;
    AloneThrice(cfg, w, Place(l, Begin), t, true, true, true);
  }

  lemma ReadLeftIsView(t: Tables, key: PackageRef)
    ensures View(ReadLeft(t, key)) == View(t)
    ensures key in View(t) <==> key in t.index && key in t.files
    ensures key in View(t) ==> View(t)[key] == RowOf(t.index[key], t.files[key])
  {
    ViewAt(t, ReadLeft(t, key), key);
    assert key !in View(t) ==> View(t) - {key} == View(t);
  }

  lemma ReadAlone(cfg: Config, w: World, l: Local, t: Tables)
    requires Meant(w, l) && Reads(l)
    ensures var key := KeyOf(w, l);
      var (p, after) := Alone(cfg, w, Place(l, Begin), t, Script(w, l, t));
      && p == Place(AfterRead(cfg, w, l, if key in View(t) then Some(View(t)[key]) else None), Begin)
      && View(after) == View(t)
  {
    ReadLeaves(cfg, w, l, t);
    ReadLeftIsView(t, KeyOf(w, l));
    hide Alone, Script, View, AfterRead, KeyOf, ReadLeft, RowOf;
  }

  /** What an invalidation leaves. */
  function DropLeft(t: Tables, key: PackageRef, answer: DropAnswer): Tables {
    var unlinked := if key in t.index && !answer.Kept? then Removed(t, key) else t;
    if answer.Dropped? then Deleted(unlinked, key) else unlinked
  }

  lemma DropLeaves(cfg: Config, w: World, l: Local, t: Tables)
    requires Meant(w, l) && l.AtEvict?
    ensures Alone(cfg, w, Place(l, Begin), t, Script(w, l, t))
      == (Place(AfterOther(w, l), Begin), DropLeft(t, KeyOf(w, l), w.drop(PointOf(l))))
  {
    var key, answer := KeyOf(w, l), w.drop(PointOf(l));
    hide AfterOther, KeyOf, PointOf, Alone;
    if key in t.index {
      AloneThrice(cfg, w, Place(l, Begin), t, true, !answer.Kept?, answer.Dropped?);
    } else {
      AloneThrice(cfg, w, Place(l, Begin), t, true, answer.Dropped?, true);
    }
  }

  lemma DropLeftIsDrop(t: Tables, key: PackageRef, answer: DropAnswer)
    ensures View(DropLeft(t, key, answer)) == DropRow(View(t), key, answer)
  {
    ViewAt(t, DropLeft(t, key, answer), key);
    assert key in View(t) ==> key in t.index && key in t.files && View(t)[key] == RowOf(t.index[key], t.files[key]);
    assert key !in View(t) ==> View(t) - {key} == View(t);
    hide View;
  }

  lemma DropAlone(cfg: Config, w: World, l: Local, t: Tables)
    requires Meant(w, l) && l.AtEvict?
    ensures var (p, after) := Alone(cfg, w, Place(l, Begin), t, Script(w, l, t));
      p == Place(AfterOther(w, l), Begin) && View(after) == DropRow(View(t), KeyOf(w, l), w.drop(PointOf(l)))
  {
    DropLeaves(cfg, w, l, t);
    DropLeftIsDrop(t, KeyOf(w, l), w.drop(PointOf(l)));
    hide Alone, Script, View, AfterOther, KeyOf, PointOf, DropRow, DropLeft;
  }

  /** An access whose operations nothing comes between is one access of the request to the rows, however it ends. */
  lemma AccessAloneIsNext(cfg: Config, w: World, l: Local, t: Tables)
    requires Meant(w, l) && !l.Finished? && HeldBack(w, l, t)
    ensures var (p, after) := Alone(cfg, w, Place(l, Begin), t, Script(w, l, t));
      var (next, rows) := Next(cfg, w, l, View(t));
      p == Place(next, Begin) && View(after) == rows
  {
    if Writes(l) {
      WriteAlone(cfg, w, l, t);
    } else if Reads(l) {
      ReadAlone(cfg, w, l, t);
    } else if l.AtEvict? {
      DropAlone(cfg, w, l, t);
    } else {
      AloneOnce(cfg, w, Place(l, Begin), t, [true]);
    }
    hide Alone, Script, View, AfterRead, AfterWrite, AfterOther, KeyOf, PutRow, DropRow, Written;
  }
}
