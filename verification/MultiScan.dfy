/** Several antivirus engines on one file, each in its own goroutine; a detection cancels the others. */
module MultiScan {
  import opened Domain

  datatype Result = Result(clean: bool, incomplete: bool, signature: string, engine: string)

  /** What an engine's call returns: a result, an error, both or neither. */
  datatype Reply = Reply(result: Option<Result>, error: Option<string>)

  datatype Verdict = Found(result: Result) | Failure(error: string) | Partial(result: Result) | Clean

  datatype Class = Detection | Error | Incomplete | AllClean

  /** A real hit, not an incomplete scan. */
  predicate IsDetection(r: Option<Result>) { r.Some? && !r.value.clean && !r.value.incomplete }
  predicate IsIncomplete(r: Option<Result>) { r.Some? && r.value.incomplete }

  /** One goroutine's end: which engine returns next, and what it returns if its context was cancelled before. */
  datatype Finish = Finish(engine: nat, cut: Reply)

  /** Some order in which all of `n` engines return. */
  predicate Complete(schedule: seq<Finish>, n: nat) {
    && |schedule| == n
    && (forall k | 0 <= k < n :: schedule[k].engine < n)
    && (forall j, k | 0 <= j < k < n :: schedule[j].engine != schedule[k].engine)
    && (forall e | 0 <= e < n :: Returns(schedule, e))
  }

  predicate Returns(schedule: seq<Finish>, e: nat) { exists k :: 0 <= k < |schedule| && schedule[k].engine == e }

  /** The shared context is cancelled once an engine has returned a detection without an error. */
  predicate Cancelled(own: seq<Reply>, schedule: seq<Finish>, k: nat)
    requires k <= |schedule| && Complete(schedule, |own|)
    decreases k, 0
  {
    k > 0 && (Cancelled(own, schedule, k - 1)
              || (var r := Returned(own, schedule, k - 1); r.error.None? && IsDetection(r.result)))
  }

  /** What the `k`th engine to return returns: its own answer, or anything at all once it was cancelled. */
  function Returned(own: seq<Reply>, schedule: seq<Finish>, k: nat): Reply
    requires k < |schedule| && Complete(schedule, |own|)
    decreases k, 1
  {
    if Cancelled(own, schedule, k) then schedule[k].cut else own[schedule[k].engine]
  }

  // ---------------------------------------------------------------- picking

  /** The first of the slots from `i` on that `p` holds of. */
  function First(slots: seq<Reply>, p: Reply -> bool): Option<Reply> {
    if slots == [] then None else if p(slots[0]) then Some(slots[0]) else First(slots[1..], p)
  }

  function HasDetection(): Reply -> bool { (r: Reply) => IsDetection(r.result) }
  function HasError(): Reply -> bool { (r: Reply) => r.error.Some? }
  function HasIncomplete(): Reply -> bool { (r: Reply) => IsIncomplete(r.result) }

  /** The first detection in engine order; failing that the first error; failing that the first incomplete scan. */
  function VerdictOf(slots: seq<Reply>): Verdict {
    var d, e, i := First(slots, HasDetection()), First(slots, HasError()), First(slots, HasIncomplete());
    if d.Some? && d.value.result.Some? then Found(d.value.result.value)
    else if e.Some? && e.value.error.Some? then Failure(e.value.error.value)
    else if i.Some? && i.value.result.Some? then Partial(i.value.result.value)
    else Clean
  }

  function ClassOf(v: Verdict): Class {
    match v
    case Found(_) => Detection
    case Failure(_) => Error
    case Partial(_) => Incomplete
    case Clean => AllClean
  }

  /** Slot `i` is the first that `p` holds of. */
  predicate IsFirst(slots: seq<Reply>, p: Reply -> bool, i: nat) {
    i < |slots| && p(slots[i]) && forall j | 0 <= j < i :: !p(slots[j])
  }

  lemma {:induction false} FirstIs(slots: seq<Reply>, p: Reply -> bool)
    ensures First(slots, p).Some? <==> exists i :: 0 <= i < |slots| && p(slots[i])
    ensures First(slots, p).Some? ==> p(First(slots, p).value) && First(slots, p).value in slots
    ensures First(slots, p).Some? ==>
      exists i: nat :: IsFirst(slots, p, i) && First(slots, p).value == slots[i]
  {
    if slots != [] {
      FirstIs(slots[1..], p);
      assert forall i | 0 <= i < |slots[1..]| :: slots[1..][i] == slots[i + 1];
      if i :| 0 <= i < |slots| && p(slots[i]) {
        assert i > 0 ==> slots[1..][i - 1] == slots[i];
      }
      if p(slots[0]) {
        assert IsFirst(slots, p, 0);
      } else if k: nat :| IsFirst(slots[1..], p, k) && First(slots[1..], p).value == slots[1..][k] {
        assert forall j | 0 < j < |slots| :: slots[j] == slots[1..][j - 1];
        assert IsFirst(slots, p, k + 1);
      }
    }
  }

  /** What each verdict says about the slots: the classes rank detection, error, incomplete, clean. */
  lemma VerdictMeaning(slots: seq<Reply>)
    ensures ClassOf(VerdictOf(slots)) == Detection <==> exists i :: 0 <= i < |slots| && IsDetection(slots[i].result)
    ensures ClassOf(VerdictOf(slots)) in {Detection, Error} <==>
      exists i :: 0 <= i < |slots| && (IsDetection(slots[i].result) || slots[i].error.Some?)
    ensures ClassOf(VerdictOf(slots)) == AllClean <==>
      forall i :: 0 <= i < |slots| ==>
        && slots[i].error.None?
        && (slots[i].result.Some? ==> slots[i].result.value.clean && !slots[i].result.value.incomplete)
    ensures VerdictOf(slots).Found? ==>
      exists i: nat :: IsFirst(slots, HasDetection(), i) && slots[i].result == Some(VerdictOf(slots).result)
    ensures VerdictOf(slots).Failure? ==>
      exists i: nat :: IsFirst(slots, HasError(), i) && slots[i].error == Some(VerdictOf(slots).error)
    ensures VerdictOf(slots).Partial? ==>
      exists i: nat :: IsFirst(slots, HasIncomplete(), i) && slots[i].result == Some(VerdictOf(slots).result)
  {
    FirstIs(slots, HasDetection());
    FirstIs(slots, HasError());
    FirstIs(slots, HasIncomplete());
    hide First;
    var d := First(slots, HasDetection());
    assert forall r: Reply :: HasDetection()(r) <==> IsDetection(r.result);
    assert forall r: Reply :: HasError()(r) <==> r.error.Some?;
    assert forall r: Reply :: HasIncomplete()(r) <==> IsIncomplete(r.result);
  }

  // ---------------------------------------------------------------- scanning

  /** What is in the engines' slots when all have returned. */
  predicate Outcome(own: seq<Reply>, schedule: seq<Finish>, slots: seq<Reply>) {
    && Complete(schedule, |own|)
    && |slots| == |own|
    && forall k | 0 <= k < |schedule| :: slots[schedule[k].engine] == Returned(own, schedule, k)
  }

  /** The place of an engine in the order. */
  ghost function PlaceOf(schedule: seq<Finish>, e: nat): (k: nat)
    requires Returns(schedule, e)
    ensures k < |schedule| && schedule[k].engine == e
  {
    var k :| 0 <= k < |schedule| && schedule[k].engine == e;
    k
  }

  ghost function SlotsOf(own: seq<Reply>, schedule: seq<Finish>): (slots: seq<Reply>)
    requires Complete(schedule, |own|)
    ensures Outcome(own, schedule, slots)
  {
    seq(|own|, e requires 0 <= e < |own| => Returned(own, schedule, PlaceOf(schedule, e)))
  }

  method Scan(own: seq<Reply>, schedule: seq<Finish>) returns (verdict: Verdict)
    requires Complete(schedule, |own|)
    ensures verdict == VerdictOf(SlotsOf(own, schedule))
  {
    var none := Reply(None, None);
    var returned := new Reply[|own|](_ => none);
    var cancelled := false;
    for k := 0 to |schedule|
      invariant cancelled == Cancelled(own, schedule, k)
      invariant forall j | 0 <= j < k :: returned[schedule[j].engine] == Returned(own, schedule, j)
    {
      var e := schedule[k].engine;
      returned[e] := if cancelled then schedule[k].cut else own[e];
      if returned[e].error.None? && IsDetection(returned[e].result) {
        cancelled := true;
      }
    }
    ghost var slots := SlotsOf(own, schedule);
    assert returned[..] == slots by {
      forall e | 0 <= e < |own|
        ensures returned[e] == slots[e]
      {
        assert Returns(schedule, e);
        assert schedule[PlaceOf(schedule, e)].engine == e;
      }
    }
    verdict := Pick(slots, returned);
  }

  /** The three passes over the slots. */
  method Pick(ghost slots: seq<Reply>, returned: array<Reply>) returns (verdict: Verdict)
    requires slots == returned[..]
    ensures verdict == VerdictOf(slots)
  {
    var d := FirstOf(returned, HasDetection());
    if d.Some? {
      FirstIs(slots, HasDetection());
      return Found(d.value.result.value);
    }
    var e := FirstOf(returned, HasError());
    if e.Some? {
      FirstIs(slots, HasError());
      return Failure(e.value.error.value);
    }
    var i := FirstOf(returned, HasIncomplete());
    if i.Some? {
      FirstIs(slots, HasIncomplete());
      return Partial(i.value.result.value);
    }
    return Clean;
  }

  method FirstOf(returned: array<Reply>, p: Reply -> bool) returns (r: Option<Reply>)
    ensures r == First(returned[..], p)
  {
    for k := 0 to returned.Length
      invariant First(returned[..], p) == First(returned[k..], p)
    {
      assert returned[k..][0] == returned[k] && returned[k..][1..] == returned[k + 1..];
      if p(returned[k]) {
        return Some(returned[k]);
      }
    }
    return None;
  }

  // ---------------------------------------------------------------- interleavings

  predicate Cancels(r: Reply) { r.error.None? && IsDetection(r.result) }

  lemma {:induction false} CancelledByAReturn(own: seq<Reply>, schedule: seq<Finish>, k: nat)
    requires Complete(schedule, |own|) && k <= |schedule| && Cancelled(own, schedule, k)
    ensures exists j :: 0 <= j < k && Cancels(Returned(own, schedule, j))
  {
    if !Cancels(Returned(own, schedule, k - 1)) {
      CancelledByAReturn(own, schedule, k - 1);
    }
  }

  lemma {:induction false} NeverCancelled(own: seq<Reply>, schedule: seq<Finish>, k: nat)
    requires Complete(schedule, |own|) && k <= |schedule| && forall e | 0 <= e < |own| :: !Cancels(own[e])
    ensures !Cancelled(own, schedule, k)
  {
    if k > 0 {
      NeverCancelled(own, schedule, k - 1);
    }
  }

  /** With no detection to cancel anything, every engine gives its own answer. */
  lemma UndisturbedOutcome(own: seq<Reply>, schedule: seq<Finish>, slots: seq<Reply>)
    requires Outcome(own, schedule, slots) && forall e | 0 <= e < |own| :: !Cancels(own[e])
    ensures slots == own
  {
    forall e | 0 <= e < |own|
      ensures slots[e] == own[e]
    {
      assert Returns(schedule, e);
      var k :| 0 <= k < |schedule| && schedule[k].engine == e;
      NeverCancelled(own, schedule, k);
    }
  }

  lemma DetectionSurvives(own: seq<Reply>, schedule: seq<Finish>, slots: seq<Reply>, e: nat)
    requires Outcome(own, schedule, slots) && e < |own| && Cancels(own[e])
    ensures exists i :: 0 <= i < |slots| && IsDetection(slots[i].result)
  {
    assert Returns(schedule, e);
    var k :| 0 <= k < |schedule| && schedule[k].engine == e;
    if Cancelled(own, schedule, k) {
      CancelledByAReturn(own, schedule, k);
      var j :| 0 <= j < k && Cancels(Returned(own, schedule, j));
      assert IsDetection(slots[schedule[j].engine].result);
    } else {
      assert slots[e] == own[e];
    }
  }

  /** Whether the scan ends in a detection, an error, an incomplete scan or a clean file is decided by the engines' own
      answers alone: no order of returning, and nothing a cancelled engine returns, changes it. */
  lemma ClassIsFixed(own: seq<Reply>, schedule: seq<Finish>, slots: seq<Reply>)
    requires Outcome(own, schedule, slots)
    ensures ClassOf(VerdictOf(slots)) == ClassOf(VerdictOf(own))
  {
    VerdictMeaning(slots);
    VerdictMeaning(own);
    hide VerdictOf;
    if e :| 0 <= e < |own| && Cancels(own[e]) {
      DetectionSurvives(own, schedule, slots, e);
    } else {
      UndisturbedOutcome(own, schedule, slots);
    }
  }

  /** Short of a detection, the whole verdict is decided too: the same error, the same incomplete scan. */
  lemma VerdictIsFixed(own: seq<Reply>, schedule: seq<Finish>, slots: seq<Reply>)
    requires Outcome(own, schedule, slots) && ClassOf(VerdictOf(own)) != Detection
    ensures VerdictOf(slots) == VerdictOf(own)
  {
    VerdictMeaning(own);
    hide VerdictOf;
    UndisturbedOutcome(own, schedule, slots);
  }

  /** A file passes exactly when every engine, left alone, found it clean and finished. An engine that returns neither
      a result nor an error counts as clean. */
  lemma CleanMeansAllClean(own: seq<Reply>, schedule: seq<Finish>, slots: seq<Reply>)
    requires Outcome(own, schedule, slots)
    ensures VerdictOf(slots) == Clean <==>
      forall e :: 0 <= e < |own| ==>
        own[e].error.None? && (own[e].result.Some? ==> own[e].result.value.clean && !own[e].result.value.incomplete)
  {
    ClassIsFixed(own, schedule, slots);
    VerdictMeaning(own);
    hide VerdictOf;
  }

  /** A cancelled engine either had its answer already or gives up with an error. */
  predicate Honest(own: seq<Reply>, schedule: seq<Finish>)
    requires Complete(schedule, |own|)
  {
    forall k | 0 <= k < |schedule| :: schedule[k].cut == own[schedule[k].engine] || schedule[k].cut.result.None?
  }

  /** The detection reported is one an engine made. */
  lemma ReportedDetectionIsReal(own: seq<Reply>, schedule: seq<Finish>, slots: seq<Reply>)
    requires Outcome(own, schedule, slots) && Honest(own, schedule) && VerdictOf(slots).Found?
    ensures exists e :: 0 <= e < |own| && own[e].result == Some(VerdictOf(slots).result)
  {
    VerdictMeaning(slots);
    hide VerdictOf;
    var i: nat :| IsFirst(slots, HasDetection(), i) && slots[i].result == Some(VerdictOf(slots).result);
    assert Returns(schedule, i);
    var k :| 0 <= k < |schedule| && schedule[k].engine == i;
    assert slots[i] == Returned(own, schedule, k);
  }

  /** Which of several detections is reported does depend on the order. */
  lemma ReportDependsOnOrder(a: Result, b: Result)
    requires IsDetection(Some(a)) && IsDetection(Some(b)) && a != b
    ensures var own := [Reply(Some(a), None), Reply(Some(b), None)];
      var stopped := Reply(None, Some("context canceled"));
      exists s, t, x, y ::
        Outcome(own, s, x) && Honest(own, s) && VerdictOf(x) == Found(a)
        && Outcome(own, t, y) && Honest(own, t) && VerdictOf(y) == Found(b)
  {
    var own := [Reply(Some(a), None), Reply(Some(b), None)];
    var stopped := Reply(None, Some("context canceled"));
    var s, t := [Finish(0, stopped), Finish(1, stopped)], [Finish(1, stopped), Finish(0, stopped)];
    var x, y := [own[0], stopped], [stopped, own[1]];
    assert s[0].engine == 0 && s[1].engine == 1 && t[0].engine == 1 && t[1].engine == 0;
    assert Complete(s, 2) && Complete(t, 2);
    assert Cancelled(own, s, 1) && Cancelled(own, t, 1);
    assert Outcome(own, s, x) && Outcome(own, t, y);
    assert First(x, HasDetection()) == Some(x[0]);
    assert First(y, HasDetection()) == First(y[1..], HasDetection()) == Some(y[1]);
  }
}
