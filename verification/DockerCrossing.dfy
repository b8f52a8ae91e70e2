/** Two Docker requests whose writes cross: what happens when a registry serves two contents under one digest. */
module DockerCrossing {
  import opened Domain
  import Policy
  import opened DockerGate
  import opened DockerGateLaws
  import opened DockerSteps
  import opened DockerTables
  import opened DockerInterleavings

  /** Two images served under one digest, of which the policy denies the tag of the second. */
  function Denying(): Config { Config(0, 1, false, Some(Policy.Engine(Critical, false, {}, {"docker/app@bad"}))) }
  function GoodImage(): World { Answers("app", Doc(Manifest("", "", [])), "", (i: nat) => Failed).(ref := "good") }
  function DeniedImage(): World { Answers("app", Doc(Manifest("m", "", [])), "", (i: nat) => Failed).(ref := "bad") }

  ghost function BothImages(): iset<World> {
    iset u: World | u.(flight := Lead) == GoodImage() || u.(flight := Lead) == DeniedImage()
  }

  /** Both read, both move their files into place, both write their index rows, the other way round. */
  function Crossing(): seq<Move> {
    [Arrive(GoodImage()), Arrive(DeniedImage()), Advance(0, true), Advance(1, true), Advance(0, true), Advance(1, true),
     Advance(1, true), Advance(0, true)]
  }

  lemma ReachedSnoc(cfg: Config, moves: seq<Move>, m: Move)
    ensures Reached(cfg, moves + [m]) == Moved(cfg, Reached(cfg, moves), m)
  {
    assert (moves + [m])[..|moves|] == moves;
    hide Moved;
  }

  lemma ImagesDecide()
    ensures Policy.Decide(Denying().policy.value, ImageKey("app", "good"), []).allowed
    ensures var d := Policy.Decide(Denying().policy.value, ImageKey("app", "bad"), []);
      !d.allowed && d.reason == DENYLISTED
  {
    assert "docker" + "/" + "app" + "@" + "bad" == "docker/app@bad";
    assert "docker" + "/" + "app" + "@" + "good" != "docker/app@bad";
    assert ("docker" + "/" + "app")[6..] != "docker/app@bad"[6..];
  }

  function DeniedVerdict(): Verdict {
    Blocked(DENYLISTED, "denylist", Policy.Decide(Denying().policy.value, ImageKey("app", "bad"), []).findings)
  }

  lemma GoodReads()
    ensures Start(GoodImage()) == AtSlow && AfterRead(Denying(), GoodImage(), AtSlow, None) == AtAllow(None)
  {
    ImagesDecide();
    hide Policy.Decide;
  }

  lemma DeniedReads()
    ensures Start(DeniedImage()) == AtSlow
    ensures AfterRead(Denying(), DeniedImage(), AtSlow, None) == AtBlock(DeniedVerdict(), None)
  {
    ImagesDecide();
    hide Policy.Decide;
  }

  function Both(t: Tables, good: Place, denied: Place): System {
    System(t, [Request(GoodImage(), good), Request(DeniedImage(), denied)])
  }

  lemma GoodAdvances(t: Tables, good: Place, denied: Place)
    requires Fits(GoodImage(), good) && !good.at.Finished?
    ensures Moved(Denying(), Both(t, good, denied), Advance(0, true))
      == var (next, after) := Micro(Denying(), GoodImage(), good, t, true); Both(after, next, denied)
  {
    hide GoodImage, DeniedImage, Denying, Micro, Fits;
    var (next, after) := Micro(Denying(), GoodImage(), good, t, true);
    assert Both(t, good, denied).requests[0 := Request(GoodImage(), next)] == Both(after, next, denied).requests;
  }

  lemma DeniedAdvances(t: Tables, good: Place, denied: Place)
    requires Fits(DeniedImage(), denied) && !denied.at.Finished?
    ensures Moved(Denying(), Both(t, good, denied), Advance(1, true))
      == var (next, after) := Micro(Denying(), DeniedImage(), denied, t, true); Both(after, good, next)
  {
    hide GoodImage, DeniedImage, Denying, Micro, Fits;
    var (next, after) := Micro(Denying(), DeniedImage(), denied, t, true);
    assert Both(t, good, denied).requests[1 := Request(DeniedImage(), next)] == Both(after, good, next).requests;
  }

  const IMAGE: PackageRef := ImageKey("app", "sha256:d")

  lemma GoodMicros(t: Tables)
    ensures t.index == map[] ==>
      Micro(Denying(), GoodImage(), Place(AtSlow, Begin), t, true) == (Place(AtAllow(None), Begin), t)
    ensures Micro(Denying(), GoodImage(), Place(AtAllow(None), Begin), t, true)
      == (Place(AtAllow(None), Renamed), t.(files := t.files[IMAGE := GoodImage().fetched.content]))
    ensures Micro(Denying(), GoodImage(), Place(AtAllow(None), Renamed), t, true)
      == (Place(AtAllowBody, Begin), t.(index := t.index[IMAGE := Meta(true, "ok", 0, 0)]))
  {
    GoodReads();
    hide AfterRead, Denying;
  }

  lemma DeniedMicros(t: Tables)
    ensures var l := AtBlock(DeniedVerdict(), None);
      && (t.index == map[] ==>
            Micro(Denying(), DeniedImage(), Place(AtSlow, Begin), t, true) == (Place(l, Begin), t))
      && Micro(Denying(), DeniedImage(), Place(l, Begin), t, true)
         == (Place(l, Renamed), t.(files := t.files[IMAGE := DeniedImage().fetched.content]))
      && Micro(Denying(), DeniedImage(), Place(l, Renamed), t, true)
         == (Place(Finished(Served("sha256:d", DeniedVerdict())), Begin),
             t.(index := t.index[IMAGE := Meta(false, DENYLISTED, 0, 0)]))
  {
    DeniedReads();
    hide AfterRead, Denying, Policy.Decide;
  }

  function After(n: nat): System
    requires n <= |Crossing()|
  {
    Reached(Denying(), Crossing()[..n])
  }

  lemma AfterNext(n: nat)
    requires n < |Crossing()|
    ensures After(n + 1) == Moved(Denying(), After(n), Crossing()[n])
  {
    var c := Crossing();
    assert c[..n + 1] == c[..n] + [c[n]];
    hide Crossing, Denying;
    ReachedSnoc(Denying(), c[..n], c[n]);
  }

  lemma BothArrive()
    ensures After(2) == Both(Tables(map[], map[]), Place(AtSlow, Begin), Place(AtSlow, Begin))
  {
    AfterNext(0);
    AfterNext(1);
    GoodReads();
    DeniedReads();
    assert Crossing()[0] == Arrive(GoodImage()) && Crossing()[1] == Arrive(DeniedImage());
    assert Crossing()[..0] == [];
    assert After(0) == System(Tables(map[], map[]), []);
    hide GoodImage, DeniedImage, Denying, Start, Crossing, After, Reached;
    var r := [Request(GoodImage(), Place(AtSlow, Begin))];
    assert [] + r == r;
    assert After(1) == System(Tables(map[], map[]), r);
    assert r + [Request(DeniedImage(), Place(AtSlow, Begin))]
      == [Request(GoodImage(), Place(AtSlow, Begin)), Request(DeniedImage(), Place(AtSlow, Begin))];
  }

  function GoodFile(t: Tables): Tables { t.(files := t.files[IMAGE := GoodImage().fetched.content]) }
  function DeniedFile(t: Tables): Tables { t.(files := t.files[IMAGE := DeniedImage().fetched.content]) }
  function GoodRow(t: Tables): Tables { t.(index := t.index[IMAGE := Meta(true, "ok", 0, 0)]) }
  function DeniedRow(t: Tables): Tables { t.(index := t.index[IMAGE := Meta(false, DENYLISTED, 0, 0)]) }
  function Allowing(stage: Stage): Place { Place(AtAllow(None), stage) }
  function Blocking(stage: Stage): Place { Place(AtBlock(DeniedVerdict(), None), stage) }

  lemma GoodSteps(t: Tables, denied: Place)
    ensures t.index == map[] ==>
      Moved(Denying(), Both(t, Place(AtSlow, Begin), denied), Advance(0, true)) == Both(t, Allowing(Begin), denied)
    ensures Moved(Denying(), Both(t, Allowing(Begin), denied), Advance(0, true))
      == Both(GoodFile(t), Allowing(Renamed), denied)
    ensures Moved(Denying(), Both(t, Allowing(Renamed), denied), Advance(0, true))
      == Both(GoodRow(t), Place(AtAllowBody, Begin), denied)
  {
    GoodMicros(t);
    GoodAdvances(t, Place(AtSlow, Begin), denied);
    GoodAdvances(t, Allowing(Begin), denied);
    GoodAdvances(t, Allowing(Renamed), denied);
    hide Denying, Micro, Moved, Both;
  }

  lemma DeniedSteps(t: Tables, good: Place)
    ensures t.index == map[] ==>
      Moved(Denying(), Both(t, good, Place(AtSlow, Begin)), Advance(1, true)) == Both(t, good, Blocking(Begin))
    ensures Moved(Denying(), Both(t, good, Blocking(Begin)), Advance(1, true))
      == Both(DeniedFile(t), good, Blocking(Renamed))
    ensures Moved(Denying(), Both(t, good, Blocking(Renamed)), Advance(1, true))
      == Both(DeniedRow(t), good, Place(Finished(Served("sha256:d", DeniedVerdict())), Begin))
  {
    DeniedMicros(t);
    DeniedAdvances(t, good, Place(AtSlow, Begin));
    DeniedAdvances(t, good, Blocking(Begin));
    DeniedAdvances(t, good, Blocking(Renamed));
    hide Denying, Micro, Moved, Both, DeniedVerdict;
  }

  lemma CrossingAt()
    ensures |Crossing()| == 8
    ensures Crossing()[2] == Crossing()[4] == Crossing()[7] == Advance(0, true)
    ensures Crossing()[3] == Crossing()[5] == Crossing()[6] == Advance(1, true)
  {
  }

  /** The clean verdict of the first image is left over the content of the second. */
  lemma Crossed()
    ensures |Crossing()| == 8
    ensures After(8).tables == GoodRow(DeniedRow(DeniedFile(GoodFile(Tables(map[], map[])))))
  {
    var none := Tables(map[], map[]);
    var files := DeniedFile(GoodFile(none));
    hide Crossing, Moved, GoodFile, DeniedFile, GoodRow, DeniedRow, Denying, GoodImage, DeniedImage, DeniedVerdict,
      Reached;
    CrossingAt();
    BothArrive();
    AfterNext(2);
    GoodSteps(none, Place(AtSlow, Begin));
    AfterNext(3);
    DeniedSteps(none, Allowing(Begin));
    AfterNext(4);
    GoodSteps(none, Blocking(Begin));
    AfterNext(5);
    DeniedSteps(GoodFile(none), Allowing(Renamed));
    AfterNext(6);
    DeniedSteps(files, Allowing(Renamed));
    AfterNext(7);
    GoodSteps(DeniedRow(files), Place(Finished(Served("sha256:d", DeniedVerdict())), Begin));
    hide After, Allowing, Blocking;
  }

  /** So with nothing failing and nothing removed, two requests whose writes cross leave a row that is not sound, when
      the registry gave them two contents under one digest. */
  lemma CrossedWritesAreUnsound()
    ensures var h := BothImages();
      && Closed(h) && (forall m | m in Crossing() && m.Arrive? :: Arrival(h, m.w))
      && !Sound(Denying(), h, View(Reached(Denying(), Crossing()).tables))
  {
    var row := RowOf(Meta(true, "ok", 0, 0), DeniedImage().fetched.content);
    CrossedView();
    BothArriveFresh();
    hide Reached, View, Crossing;
    UnbackedRow(View(Reached(Denying(), Crossing()).tables), row);
    hide Grounds, BothImages, Closed, Arrival, Denying, GoodImage, DeniedImage;
  }

  lemma CrossedView()
    ensures var rows := View(Reached(Denying(), Crossing()).tables);
      IMAGE in rows && rows[IMAGE] == RowOf(Meta(true, "ok", 0, 0), DeniedImage().fetched.content)
  {
    Crossed();
    assert Crossing()[..8] == Crossing();
    hide Reached, Crossing, DeniedImage, GoodImage, Denying;
    assert After(8) == Reached(Denying(), Crossing());
    assert After(8).tables
      == Tables(map[IMAGE := Meta(true, "ok", 0, 0)], map[IMAGE := DeniedImage().fetched.content]);
  }

  lemma UnbackedRow(rows: Rows, row: Row)
    requires IMAGE in rows && rows[IMAGE] == row && row.clean && row.reason == "ok"
    requires row.content == DeniedImage().fetched.content
    ensures !Sound(Denying(), BothImages(), rows)
  {
    var h, cfg := BothImages(), Denying();
    forall w: World | w in h && w.fetched.Fetched? && w.fetched.content == row.content
      ensures !Grounds(cfg, h, w, true, "ok")
    {
      DeniedHasNoGrounds(h, w);
    }
    hide Grounds, BothImages, Denying, GoodImage, DeniedImage;
    assert !ImageRowSound(cfg, h, "app", "sha256:d", row);
    assert !RowSound(cfg, h, IMAGE, row);
  }

  lemma BothArriveFresh()
    ensures Closed(BothImages()) && forall m | m in Crossing() && m.Arrive? :: Arrival(BothImages(), m.w)
  {
  }

  lemma DeniedHasNoGrounds(h: iset<World>, w: World)
    requires w.(flight := Lead) == GoodImage() || w.(flight := Lead) == DeniedImage()
    requires w.fetched.content == DeniedImage().fetched.content
    ensures !Grounds(Denying(), h, w, true, "ok")
  {
    ImagesDecide();
    hide Policy.Decide;
  }
}
