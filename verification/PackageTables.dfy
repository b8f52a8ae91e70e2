/** The cache of the package gate as index rows and files, and each access to it cut into the single operations on
    them, between which anything may happen to both. */
module PackageTables {
  import opened Domain
  import opened PackageGate
  import opened PackageSteps

  /** An index row: all of an entry but its bytes, which are a file of their own. */
  datatype Stamp = Stamp(clean: bool, cveCheck: int, avCheck: int)
  datatype Tables = Tables(index: map<PackageRef, Stamp>, files: map<PackageRef, string>)

  function StampOf(e: Entry): Stamp { Stamp(e.clean, e.cveCheck, e.avCheck) }
  function EntryOf(s: Stamp, bytes: string): Entry { Entry(bytes, s.clean, s.cveCheck, s.avCheck) }

  /** The cache as a reader finds it: the rows whose file is there. */
  function View(t: Tables): Store {
    map ref | ref in t.index && ref in t.files :: EntryOf(t.index[ref], t.files[ref])
  }

  /** How far an access has got: a lookup has its index row and looks for the file, or deletes the row of a missing one;
      a write has moved its file into place, or failed at the index and takes the file back; an invalidation is about to
      remove the file, or the row. */
  datatype Stage = Begin | Checking(stamp: Stamp) | Forgetting | Renamed | Undoing | Unlinking | Deleting

  /** The outcome of the re-check flight that a request led on the row `led`. */
  datatype Flown = Flown(led: Entry, outcome: Option<Outcome>)

  /** The flight that a request joined for a hit on the row `e`: that of request `leader`. */
  datatype Joined = Joined(e: Entry, leader: nat)

  /** Where a request stands; `flown` is set once it has led a flight to its end, `joined` once it was handed the
      outcome of another's. */
  datatype Place = Place(at: Local, stage: Stage, flown: Option<Flown>, joined: Option<Joined>)

  predicate Looks(l: Local) { l.AtHit? || l.AtGet? }

  predicate Fits(p: Place) {
    match p.stage
    case Begin => true
    case Checking(_) => Looks(p.at)
    case Forgetting => Looks(p.at)
    case Renamed => p.at.AtPut?
    case Undoing => p.at.AtPut?
    case Unlinking => p.at.AtEvict?
    case Deleting => p.at.AtEvict?
  }

  function AfterLook(cfg: Config, w: World, l: Local, found: Option<Entry>): Local
    requires Looks(l)
  {
    if l.AtHit? then AfterHit(cfg, w, found) else AfterGet(cfg, l, found)
  }

  /** On to the next access. A request that was due and stands before the cached file has led its flight to a pass. */
  function Onward(cfg: Config, w: World, p: Place, next: Local): Place {
    var flown :=
      if p.flown.Some? then p.flown
      else if p.at.AtEvict? then Some(Flown(p.at.e, Some(p.at.outcome)))
      else if next.AtOpen? && next.point == OpenHit && w.flight.Lead? && Due(cfg, w, next.e) then
        Some(Flown(next.e, None))
      else None;
    Place(next, Begin, flown, p.joined)
  }

  function Removed(t: Tables, ref: PackageRef): Tables { t.(files := t.files - {ref}) }
  function Deleted(t: Tables, ref: PackageRef): Tables { t.(index := t.index - {ref}) }

  function LookOp(cfg: Config, w: World, p: Place, t: Tables, ok: bool): (r: (Place, Tables))
    requires Fits(p) && Looks(p.at)
    ensures Fits(r.0)
  {
    match p.stage
    case Checking(stamp) =>
      if !ok || w.ref !in t.files then (p.(stage := Forgetting), t)
      else (Onward(cfg, w, p, AfterLook(cfg, w, p.at, Some(EntryOf(stamp, t.files[w.ref])))), t)
    case Forgetting =>
      (Onward(cfg, w, p, AfterLook(cfg, w, p.at, None)), if ok then Deleted(t, w.ref) else t)
    case _ =>
      if ok && w.ref in t.index then (p.(stage := Checking(t.index[w.ref])), t)
      else (Onward(cfg, w, p, AfterLook(cfg, w, p.at, None)), t)
  }

  function PutOp(cfg: Config, w: World, p: Place, t: Tables, ok: bool): (r: (Place, Tables))
    requires Fits(p) && p.at.AtPut?
    ensures Fits(r.0)
  {
    var e := Written(w, p.at.bytes);
    match p.stage
    case Renamed =>
      if ok then (Onward(cfg, w, p, AfterPut(p.at, true)), t.(index := t.index[w.ref := StampOf(e)]))
      else (p.(stage := Undoing), t)
    case Undoing => (Onward(cfg, w, p, AfterPut(p.at, false)), if ok then Removed(t, w.ref) else t)
    case _ =>
      if ok then (p.(stage := Renamed), t.(files := t.files[w.ref := e.bytes]))
      else (Onward(cfg, w, p, AfterPut(p.at, false)), t)
  }

  function EvictOp(cfg: Config, w: World, p: Place, t: Tables, ok: bool): (r: (Place, Tables))
    requires Fits(p) && p.at.AtEvict?
    ensures Fits(r.0)
  {
    match p.stage
    case Unlinking => (p.(stage := Deleting), if ok then Removed(t, w.ref) else t)
    case Deleting =>
      (Onward(cfg, w, p, Answered(OutcomeResponse(p.at.outcome))), if ok then Deleted(t, w.ref) else t)
    case _ => (p.(stage := if ok && w.ref in t.index then Unlinking else Deleting), t)
  }

  /** The accesses that are one operation: an update of a check time, and the opening of the file. */
  function MarkOp(cfg: Config, w: World, p: Place, t: Tables, ok: bool): (r: (Place, Tables))
    requires p.at.AtMarkCve? || p.at.AtMarkAv? || p.at.AtOpen?
    ensures Fits(r.0)
  {
    var now := WholeSeconds(w.clock(Recheck));
    var marks := ok && w.ref in t.index;
    match p.at
    case AtMarkCve(e) =>
      (Onward(cfg, w, p, AvFrom(cfg, w, e)),
       if marks then t.(index := t.index[w.ref := t.index[w.ref].(cveCheck := now)]) else t)
    case AtMarkAv(e) =>
      (Onward(cfg, w, p, OpenCached(e)),
       if marks then t.(index := t.index[w.ref := t.index[w.ref].(avCheck := now)]) else t)
    case AtOpen(_, _, _) =>
      (Onward(cfg, w, p, AfterOpen(p.at, if ok && w.ref in t.files then Some(t.files[w.ref]) else None)), t)
  }

  predicate Moves(p: Place) { !p.at.Answered? && !p.at.AtWait? }

  /** One operation on index or files, which may fail; a request that waits for a flight makes none. */
  function Micro(cfg: Config, w: World, p: Place, t: Tables, ok: bool): (r: (Place, Tables))
    requires Fits(p) && Moves(p)
    ensures Fits(r.0)
  {
    if Looks(p.at) then LookOp(cfg, w, p, t, ok)
    else if p.at.AtPut? then PutOp(cfg, w, p, t, ok)
    else if p.at.AtEvict? then EvictOp(cfg, w, p, t, ok)
    else MarkOp(cfg, w, p, t, ok)
  }

  // ---------------------------------------------------------------- an access left alone

  function Alone(cfg: Config, w: World, p: Place, t: Tables, oks: seq<bool>): (Place, Tables)
    requires Fits(p)
    decreases |oks|
  {
    if oks == [] || !Moves(p) then (p, t)
    else
      var (next, after) := Micro(cfg, w, p, t, oks[0]);
      Alone(cfg, w, next, after, oks[1..])
  }

  /** How the operations of an access turn out when the access as a whole ends as `w` says. */
  function Script(w: World, l: Local, t: Tables): seq<bool>
    requires !l.Answered? && !l.AtWait?
  {
    match l
    case AtPut(_, _) =>
      (match w.put
       case Stored => [true, true]
       case Refused => [false]
       case Lost => [true, false, true]
       case Botched(_) => [true, false, false])
    case AtEvict(_, _) =>
      var found := w.ref in t.index;
      (match w.drop
       case Dropped => if found then [true, true, true] else [true, true]
       case Kept => if found then [true, false, false] else [true, false]
       case DroppedWithError => if found then [true, true, false] else [true, false])
    case AtMarkCve(_) => [!w.cveMarkFails]
    case AtMarkAv(_) => [!w.avMarkFails]
    case AtOpen(_, _, _) => [w.opens]
    case _ => if w.ref !in t.index then [true] else if w.ref in t.files then [true, true] else [true, true, true]
  }

  /** What the request is told in passing agrees with the tables: a botched write brings back what the index holds
      without its file, a row to be marked has its file, and bytes opened without a row are those of the row read. */
  predicate Agrees(w: World, l: Local, t: Tables) {
    && (l.AtPut? && w.put.Botched? && w.ref !in View(t) ==>
          if w.ref in t.index then w.put.behind.Some? && StampOf(w.put.behind.value) == t.index[w.ref]
          else w.put.behind.None?)
    && (l.AtOpen? && w.opens && w.ref !in View(t) ==> w.ref in t.files && t.files[w.ref] == l.e.bytes)
  }

  lemma AloneOnce(cfg: Config, w: World, p: Place, t: Tables, oks: seq<bool>)
    requires Fits(p) && Moves(p) && oks != []
    ensures var (next, after) := Micro(cfg, w, p, t, oks[0]);
      Alone(cfg, w, p, t, oks) == Alone(cfg, w, next, after, oks[1..])
  {
    hide Micro, Fits;
  }

  lemma AloneThrice(cfg: Config, w: World, p: Place, t: Tables, a: bool, b: bool, c: bool)
    requires Fits(p) && Moves(p)
    ensures Alone(cfg, w, p, t, [a]) == Micro(cfg, w, p, t, a)
    ensures var (next, after) := Micro(cfg, w, p, t, a);
      Moves(next) ==>
        && Alone(cfg, w, p, t, [a, b]) == Micro(cfg, w, next, after, b)
        && var (last, end) := Micro(cfg, w, next, after, b);
           Moves(last) ==> Alone(cfg, w, p, t, [a, b, c]) == Micro(cfg, w, last, end, c)
  {
    hide Micro, Fits, Moves;
    AloneOnce(cfg, w, p, t, [a]);
    AloneOnce(cfg, w, p, t, [a, b]);
    AloneOnce(cfg, w, p, t, [a, b, c]);
    var (next, after) := Micro(cfg, w, p, t, a);
    assert [a, b][1..] == [b] && [a, b, c][1..] == [b, c];
    if Moves(next) {
      AloneOnce(cfg, w, next, after, [b]);
      AloneOnce(cfg, w, next, after, [b, c]);
      assert [b, c][1..] == [c];
      var (last, end) := Micro(cfg, w, next, after, b);
      if Moves(last) {
        AloneOnce(cfg, w, last, end, [c]);
      }
    }
  }

  /** The tables differ from what they were at `ref` only. */
  ghost predicate SameElsewhere(t: Tables, u: Tables, ref: PackageRef) {
    && (forall k | k != ref :: (k in u.index <==> k in t.index) && (k in u.files <==> k in t.files))
    && (forall k | k != ref && k in t.index :: u.index[k] == t.index[k])
    && (forall k | k != ref && k in t.files :: u.files[k] == t.files[k])
  }

  lemma ViewsAgree(m: Store, n: Store)
    requires forall k :: k in m <==> k in n
    requires forall k | k in m :: m[k] == n[k]
    ensures m == n
  {
  }

  lemma ViewMoves(t: Tables, u: Tables, ref: PackageRef)
    requires SameElsewhere(t, u, ref)
    ensures View(u) == if ref in u.index && ref in u.files then View(t)[ref := EntryOf(u.index[ref], u.files[ref])]
                       else View(t) - {ref}
  {
    var expected := if ref in u.index && ref in u.files then View(t)[ref := EntryOf(u.index[ref], u.files[ref])]
                    else View(t) - {ref};
    ViewsAgree(View(u), expected);
  }

  lemma ViewAt(t: Tables, u: Tables, ref: PackageRef)
    requires SameElsewhere(t, u, ref)
    ensures View(u) == if ref in u.index && ref in u.files then View(t)[ref := EntryOf(u.index[ref], u.files[ref])]
                       else View(t) - {ref}
    ensures ref in View(t) <==> ref in t.index && ref in t.files
    ensures ref in View(t) ==> View(t)[ref] == EntryOf(t.index[ref], t.files[ref])
    ensures ref !in View(t) ==> View(t) - {ref} == View(t)
  {
    ViewMoves(t, u, ref);
    hide SameElsewhere;
  }

  lemma PutAlone(cfg: Config, w: World, l: Local, t: Tables)
    requires l.AtPut? && Agrees(w, l, t)
    ensures var (p, after) := Alone(cfg, w, Place(l, Begin, None, None), t, Script(w, l, t));
      p.at == AfterPut(l, w.put.Stored?) && View(after) == PutStore(View(t), w.ref, Written(w, l.bytes), w.put)
  {
    hide Alone, Onward, AfterPut;
    AloneThrice(cfg, w, Place(l, Begin, None, None), t, !w.put.Refused?, w.put.Stored?, w.put.Lost?);
    var after := Alone(cfg, w, Place(l, Begin, None, None), t, Script(w, l, t)).1;
    OnwardGoes(cfg, w, l, AfterPut(l, true));
    OnwardGoes(cfg, w, l, AfterPut(l, false));
    ViewAt(t, after, w.ref);
    hide View;
  }

  lemma OnwardGoes(cfg: Config, w: World, l: Local, next: Local)
    ensures forall s, f, j :: Onward(cfg, w, Place(l, s, f, j), next).at == next
  {
  }

  lemma LookAlone(cfg: Config, w: World, l: Local, t: Tables)
    requires Looks(l)
    ensures var (p, after) := Alone(cfg, w, Place(l, Begin, None, None), t, Script(w, l, t));
      && p.at == AfterLook(cfg, w, l, if w.ref in View(t) then Some(View(t)[w.ref]) else None)
      && View(after) == View(t)
  {
    hide Alone, Onward, AfterLook;
    AloneThrice(cfg, w, Place(l, Begin, None, None), t, true, true, true);
    var after := Alone(cfg, w, Place(l, Begin, None, None), t, Script(w, l, t)).1;
    OnwardGoes(cfg, w, l, AfterLook(cfg, w, l, None));
    ViewAt(t, after, w.ref);
    if w.ref in View(t) {
      OnwardGoes(cfg, w, l, AfterLook(cfg, w, l, Some(View(t)[w.ref])));
    }
    hide View;
  }

  lemma EvictAlone(cfg: Config, w: World, l: Local, t: Tables)
    requires l.AtEvict?
    ensures var (p, after) := Alone(cfg, w, Place(l, Begin, None, None), t, Script(w, l, t));
      && p.at == Answered(OutcomeResponse(l.outcome))
      && View(after) == if w.drop.Kept? then View(t) else View(t) - {w.ref}
  {
    hide Alone, Onward, OutcomeResponse;
    if w.ref in t.index {
      AloneThrice(cfg, w, Place(l, Begin, None, None), t, true, !w.drop.Kept?, w.drop.Dropped?);
    } else {
      AloneThrice(cfg, w, Place(l, Begin, None, None), t, true, w.drop.Dropped?, true);
    }
    OnwardGoes(cfg, w, l, Answered(OutcomeResponse(l.outcome)));
    var after := Alone(cfg, w, Place(l, Begin, None, None), t, Script(w, l, t)).1;
    ViewAt(t, after, w.ref);
    hide View;
  }

  lemma MarkAlone(cfg: Config, w: World, l: Local, t: Tables)
    requires l.AtMarkCve? || l.AtMarkAv?
    ensures var (p, after) := Alone(cfg, w, Place(l, Begin, None, None), t, Script(w, l, t));
      (p.at, View(after)) == Next(cfg, w, l, View(t))
  {
    hide Alone, Onward, AvFrom;
    AloneThrice(cfg, w, Place(l, Begin, None, None), t, Script(w, l, t)[0], true, true);
    var (p, after) := Alone(cfg, w, Place(l, Begin, None, None), t, Script(w, l, t));
    OnwardGoes(cfg, w, l, if l.AtMarkCve? then AvFrom(cfg, w, l.e) else OpenCached(l.e));
    ViewAt(t, after, w.ref);
    hide View, SameElsewhere;
  }

  lemma OpenAlone(cfg: Config, w: World, l: Local, t: Tables)
    requires l.AtOpen? && Agrees(w, l, t)
    ensures var (p, after) := Alone(cfg, w, Place(l, Begin, None, None), t, Script(w, l, t));
      (p.at, View(after)) == Next(cfg, w, l, View(t))
  {
    hide Alone, Onward, AfterOpen;
    AloneThrice(cfg, w, Place(l, Begin, None, None), t, w.opens, true, true);
    OnwardGoes(cfg, w, l, AfterOpen(l, if w.opens && w.ref in t.files then Some(t.files[w.ref]) else None));
    ViewAt(t, t, w.ref);
    hide View, SameElsewhere;
  }

  /** An access whose operations nothing comes between is one access of the request to the cache, however it ends. */
  lemma AccessAloneIsNext(cfg: Config, w: World, l: Local, t: Tables)
    requires !l.Answered? && !l.AtWait? && Agrees(w, l, t)
    ensures var (p, after) := Alone(cfg, w, Place(l, Begin, None, None), t, Script(w, l, t));
      (p.at, View(after)) == Next(cfg, w, l, View(t))
  {
    if Looks(l) {
      LookAlone(cfg, w, l, t);
    } else if l.AtPut? {
      PutAlone(cfg, w, l, t);
    } else if l.AtEvict? {
      EvictAlone(cfg, w, l, t);
    } else if l.AtOpen? {
      OpenAlone(cfg, w, l, t);
    } else {
      MarkAlone(cfg, w, l, t);
    }
    hide Alone, Script, View, AfterHit, AfterGet, AfterPut, AfterOpen, OutcomeResponse, PutStore, Written, AvFrom;
  }
}
