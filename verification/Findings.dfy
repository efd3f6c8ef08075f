/** Where the code does not do what a stronger promise would say, each with an input or the
    exact condition. */
module Findings {
  import opened Strings
  import opened Types
  import opened Store
  import opened Plan
  import opened PlanEffects
  import opened PlanTheorems
  import opened PlanRecords
  import opened Clock
  import opened WindowController
  import opened PolicyController
  import opened Ledger
  import opened WindowLedger
  import opened PolicyLedger
  import Fixpoint
  import Protocol

  /* ---- compensation ---- */

  const WEB := Obj("apps/v1", "Deployment", "app", "web")
  const GONE := Obj("apps/v1", "Deployment", "app", "gone")

  /** A step to 4 with recorded baseline 2, and a stamp. */
  function StampedStep(o: Obj): Step {
    Step("k", Target(o, "spec.replicas", None), 2, 4, map["x" := "true"], ["x"], false)
  }

  /** Web stands at 5, the second object does not exist, and every call is answered. */
  const FIVE := map[WEB := ObjState(map["spec.replicas" := 5], map[])]
  const ANSWERS: seq<Outcome> := [Applied, Applied, Applied, Applied, Applied, Applied, Applied, Applied, Applied]

  lemma StampOnly(w: World)
    requires w.objs == FIVE && w.tape == ANSWERS
    ensures var g := ApplyGroup(w, [StampedStep(WEB)]);
            && g.mutated && !g.raised && g.err.None? && Val(g.w.objs, Loc(WEB, "spec.replicas")) == Some(5)
            && g.w.tape == [Applied, Applied, Applied, Applied, Applied, Applied] && g.w.objs.Keys == {WEB}
  {
    var s := StampedStep(WEB);
    var (w1, cur) := CurrentSpec(w, s.target);
    assert cur == Success(5);
    assert [s][1..] == [] && map[] + s.stamp == s.stamp;
    assert ReadSteps(w, [s], map[], map[]) == GroupReads(w1, None, map[], s.stamp);
    assert "x" in AnnotationPatch(w1.objs[WEB].anns, s.stamp);
  }

  lemma SecondReadFails(w: World)
    requires GONE !in w.objs
    ensures var g := ApplyGroup(w, [StampedStep(GONE)]);
            g.err.Some? && !g.mutated && g.w == Rest(w)
  {
  }

  /** A failing apply can lower a field it never raised: a group that was only stamped counts
      as applied, so compensation takes it from 5 to its recorded baseline 2. */
  lemma StampedFieldIsLowered(w: World, steps: seq<Step>)
    requires w.objs == FIVE && w.tape == ANSWERS && steps == [StampedStep(WEB), StampedStep(GONE)]
    ensures var a := ApplySpec(w, steps);
            && a.err.Some? && !a.scaled
            && Val(w.objs, Loc(WEB, "spec.replicas")) == Some(5)
            && Val(a.w.objs, Loc(WEB, "spec.replicas")) == Some(2)
  {
    var s, t := StampedStep(WEB), StampedStep(GONE);
    assert steps[1..] == [t] && steps[..1] == [s];
    assert RunLen(GONE, [t]) == 1 by { assert [t][1..] == []; }
    assert RunLen(WEB, steps) == 1;
    StampOnly(w);
    var g := ApplyGroup(w, [s]);
    assert [t][..1] == [t];
    SecondReadFails(g.w);
    assert ForwardSpec(g.w, [t]).applied == [] && ForwardSpec(g.w, [t]).err.Some?;
    var f := ForwardSpec(w, steps);
    assert f.applied == [[s]] && f.w == Rest(g.w) && !f.scaled && f.err.Some?;
    LoweredToTwo(f.w);
    assert [[s]][..0] == [];
    assert CompensateSpec(f.w, [[s]]).0 == RestoreGroup(f.w, ToActions([s])).0;
  }

  /** Restoring one field with one stamp takes five answers. */
  lemma RestoreAnswered(w: World, a: Action)
    requires w.tape == [Applied, Applied, Applied, Applied, Applied] && Above(w.objs, a) && |a.stampKeys| == 1
    ensures RestoreOne(w, a).1.None?
  {
    var (w1, cur) := CurrentSpec(w, ActionTarget(a));
    LowerAnswered(w1, a);
    assert a.stampKeys[0] in StampDeletes(a.stampKeys);
  }

  lemma LowerAnswered(w: World, a: Action)
    requires w.tape == [Applied, Applied, Applied, Applied] && a.obj in w.objs
    ensures var (w1, err) := PatchIntegersSpec(w, a.obj, [a.fieldPath], map[a.fieldPath := a.baseline]);
            err.None? && a.obj in w1.objs && (w1.tape == [Applied, Applied] || w1.tape == [Applied, Applied, Applied])
  {
  }

  lemma LoweredToTwo(w: World)
    requires w.tape == [Applied, Applied, Applied, Applied, Applied] && w.objs.Keys == {WEB}
    requires Val(w.objs, Loc(WEB, "spec.replicas")) == Some(5)
    ensures Val(RestoreGroup(w, ToActions([StampedStep(WEB)])).0.objs, Loc(WEB, "spec.replicas")) == Some(2)
  {
    var a := ToAction(StampedStep(WEB));
    assert ToActions([StampedStep(WEB)]) == [a];
    var base := map[Loc(WEB, "spec.replicas") := 2 as int32];
    RestoreOneResult(w, a, base);
    assert Above(w.objs, a) && a in [a];
    RestoreAnswered(w, a);
  }

  /** An answer that is lost leaves its raise in place: the group is not compensated, and
      only the record made before the raise brings it back. */
  lemma LostAnswerIsNotCompensated()
    ensures var w := World(map[WEB := ObjState(map["spec.replicas" := 1], map[])], map[], [Applied, Applied, Lost]);
            var s := Step("k", Target(WEB, "spec.replicas", None), 1, 3, map[], [], false);
            var a := ApplySpec(w, [s]);
            && a.err.Some? && Val(w.objs, Loc(WEB, "spec.replicas")) == Some(1)
            && Val(a.w.objs, Loc(WEB, "spec.replicas")) == Some(3)
  {
    var w := World(map[WEB := ObjState(map["spec.replicas" := 1], map[])], map[], [Applied, Applied, Lost]);
    var s := Step("k", Target(WEB, "spec.replicas", None), 1, 3, map[], [], false);
    assert [s][1..] == [] && [s][..1] == [s];
    assert RunLen(WEB, [s]) == 1;
    var (w1, cur) := CurrentSpec(w, s.target);
    assert cur == Success(1);
    var values: map<string, int32> := map["spec.replicas" := 3];
    assert map[] + s.stamp == map[];
    assert ReadSteps(w, [s], map[], map[]) == GroupReads(w1, None, values, map[]);
    assert StepPaths([s]) == ["spec.replicas"];
    assert "spec.replicas" in IntPatch(w1.objs[WEB].ints, ["spec.replicas"], values);
    var g := ApplyGroup(w, [s]);
    assert g.err.Some? && !g.mutated && Val(g.w.objs, Loc(WEB, "spec.replicas")) == Some(3);
  }

  /* ---- the record ---- */

  ghost predicate Lists(actions: seq<Action>, l: Loc) { exists a :: a in actions && ActionLoc(a) == l }

  ghost predicate Names(p: ScalePlan, l: Loc) { exists s :: s in p.steps && LocOf(s.target) == l }

  /** A step of the plan has this action key. */
  ghost predicate Takes(p: ScalePlan, key: string) { exists s :: s in p.steps && KeyOf(ToAction(s)) == key }

  /** Merging keeps a record of a field exactly when the plan names the field, or the field's
      old record has a key the plan does not use. */
  lemma MergedListsIff(p: ScalePlan, existing: seq<Action>, l: Loc)
    requires p.steps != []
    ensures Lists(PlanActions(p, existing), l) <==>
              Names(p, l) || exists a :: a in existing && ActionLoc(a) == l && !Takes(p, KeyOf(a))
  {
    var next, merged := ToActions(p.steps), PlanActions(p, existing);
    forall s | s in p.steps ensures ToAction(s) in next && ToAction(s) in merged {
      var i :| 0 <= i < |p.steps| && p.steps[i] == s;
      assert next[i] == ToAction(s);
    }
    forall a | a in next ensures exists s :: s in p.steps && ToAction(s) == a {
      var i :| 0 <= i < |next| && next[i] == a;
      assert p.steps[i] in p.steps;
    }
    forall a ensures KeyOf(a) in Keys(next) <==> Takes(p, KeyOf(a)) {}
    forall a ensures a in merged <==> a in next || (a in existing && !Takes(p, KeyOf(a))) {
      PolicyLedger.WithoutMembers(existing, Keys(next), a);
    }
    if Names(p, l) {
      var s :| s in p.steps && LocOf(s.target) == l;
      assert ActionLoc(ToAction(s)) == l;
    }
  }

  /** What a successful refresh stores and raises. */
  lemma RefreshStores(w: World, k: WKey, wl: Workload, maxWindow: int, now: int) returns (p: ScalePlan, at: World)
    requires k in w.wins && !HoldMaxWindow(maxWindow, w.wins[k], now) && HeldByFinalizer(w.wins[k])
    requires EnsureWindowSpec(w, k, wl, maxWindow, now).1.None?
    ensures BuildPlanSpec(Rest(w), wl.plan, w.wins[k].spec.actions, w.wins[k].spec.baseline).1 == Success(p)
    ensures ApplySpec(at, p.steps).err.None?
    ensures var w1 := EnsureWindowSpec(w, k, wl, maxWindow, now).0;
            && k in w1.wins && w1.wins[k].spec.actions == PlanActions(p, w.wins[k].spec.actions)
            && w1.objs == ApplySpec(at, p.steps).w.objs
            && at.objs == BuildPlanSpec(Rest(w), wl.plan, w.wins[k].spec.actions, w.wins[k].spec.baseline).0.objs
  {
    var win := w.wins[k];
    var (w2, plan) := BuildPlanSpec(Rest(w), wl.plan, win.spec.actions, win.spec.baseline);
    if wl.plan.resolved.Some? { BuildWins(Rest(w), wl.plan, win.spec.actions, wl.plan.resolved.value, ScalePlan([], 0, 0)); }
    p := plan.value;
    var status;
    at, status := Fixpoint.OpenUnfolds(w2, k, Success(win), wl, p, now);
    StoredAfterOpen(w2, k, win, wl, p, now, at);
  }

  lemma StoredAfterOpen(w: World, k: WKey, win: Window, wl: Workload, p: ScalePlan, now: int, at: World)
    requires Stored(w, k, win) && HeldByFinalizer(win)
    requires (at, None) == RecordSpec(w, k, Success(win), OpenSpec(p, wl, win.spec.actions), now)
    requires OpenWindowSpec(w, k, Success(win), wl, p, now).1.None?
    ensures var w1 := OpenWindowSpec(w, k, Success(win), wl, p, now).0;
            && at.objs == w.objs && k in w1.wins && w1.wins[k].spec.actions == PlanActions(p, win.spec.actions)
            && w1.objs == ApplySpec(at, p.steps).w.objs
  {
    ApplyWins(at, p.steps);
    var a := ApplySpec(at, p.steps);
    UpdateStatusCases(a.w, k, OpenedStatus(win.status, now, OpenMsg(p, a.err), a.err));
  }

  /** After a refresh that succeeds the record of a raised field survives exactly when the new
      plan names the field, or leaves its action key alone. A lost field stays raised, so the
      write-ahead invariant is broken; nothing here assumes the new plan to be of the ground. */
  lemma RefreshKeepsRecordIff(w: World, g: Ground, k: WKey, wl: Workload, maxWindow: int, now: int, l: Loc) returns (p: ScalePlan)
    requires Inv(w.objs, w.wins, g) && k in w.wins && !HoldMaxWindow(maxWindow, w.wins[k], now)
    requires wl.plan.resolved.Some? && wl.plan.resolved.value != [] && EnsureWindowSpec(w, k, wl, maxWindow, now).1.None?
    requires l in g.cat && g.cat[l].owner == k && !g.cat[l].skip && Raised(w.objs, g, l)
    ensures Fixpoint.PlanOf(p, wl.plan)
    ensures var w1 := EnsureWindowSpec(w, k, wl, maxWindow, now).0;
            && k in w1.wins && (Lists(w1.wins[k].spec.actions, l) <==> Names(p, l) || !Takes(p, g.cat[l].akey))
            && (!Lists(w1.wins[k].spec.actions, l) ==> Raised(w1.objs, g, l) && !Logged(w1.objs, w1.wins, g))
  {
    var win, input := w.wins[k], wl.plan;
    assert GoodWindow(g, k, win);
    var at;
    p, at := RefreshStores(w, k, wl, maxWindow, now);
    assert input.resolved.value[0..] == input.resolved.value;
    Fixpoint.BuildGivesPlan(Rest(w), input, win.spec.actions, 0, ScalePlan([], 0, 0));
    BuildObjs(Rest(w), input, win.spec.actions, input.resolved.value, ScalePlan([], 0, 0));
    RecordOf(w, g, k, p, l);
    UnnamedKept(at, p, l);
  }

  /** All records of one field have its key, so merging treats them alike. */
  lemma RecordOf(w: World, g: Ground, k: WKey, p: ScalePlan, l: Loc)
    requires Inv(w.objs, w.wins, g) && k in w.wins && p.steps != []
    requires l in g.cat && g.cat[l].owner == k && !g.cat[l].skip && Raised(w.objs, g, l)
    ensures Lists(PlanActions(p, w.wins[k].spec.actions), l) <==> Names(p, l) || !Takes(p, g.cat[l].akey)
  {
    var win := w.wins[k];
    MergedListsIff(p, win.spec.actions, l);
    assert GoodWindow(g, k, win) && Owes(win, l);
    forall a | a in win.spec.actions && ActionLoc(a) == l ensures KeyOf(a) == g.cat[l].akey { assert Fits(g, k, a); }
  }

  lemma UnnamedKept(w: World, p: ScalePlan, l: Loc)
    requires Shared(p.steps, p.desired) && ApplySpec(w, p.steps).err.None?
    ensures !Names(p, l) ==> Val(ApplySpec(w, p.steps).w.objs, l) == Val(w.objs, l)
  {
    ForwardResult(w, p.steps, p.desired);
  }

  lemma {:induction false} BuildObjs(w: World, input: PlanIn, existing: seq<Action>, todo: seq<ResolvedStep>, plan: ScalePlan)
    decreases |todo|
    ensures BuildFrom(w, input, existing, todo, plan).0.objs == w.objs
  {
    if todo != [] {
      var (w1, base) := BaselineSpec(w, todo[0], existing);
      if base.Success? {
        var p := if plan.steps == [] then ScalePlan([], base.value, Desired(input, base.value)) else plan;
        BuildObjs(w1, input, existing, todo[1..], p.(steps := p.steps + [MakeStep(input, todo[0], base.value, p.desired)]));
      }
    }
  }

  /* ---- a catalog entry that changes its kind ---- */

  const SET := Obj("apps/v1", "StatefulSet", "app", "web")
  const WEB_KEY := WKey("p", "app", "web")
  const WEB_LOC := Loc(WEB, "spec.replicas")
  const WEB_ACTION := Action("k", WEB, "spec.replicas", 2, 5, false, [])

  /** The entry "k" now points at the StatefulSet of the same name. */
  const SET_STEP := ResolvedStep("k", Target(SET, "spec.replicas", None), [], false)

  const MOVED := Workload("app", "web", PlanIn(Some([SET_STEP]), 5, 2, 1, 0, Stamp(false, "", "", "", "")), ["n1"])

  /** The Deployment is raised from 2 to 5 and recorded; the StatefulSet stands at 3. */
  const BEFORE_MOVE := World(map[WEB := ObjState(map["spec.replicas" := 5], map[]), SET := ObjState(map["spec.replicas" := 3], map[])],
                             map[WEB_KEY := Window(Meta(false, true, false, Some(0)), Spec([WEB_ACTION], 2, 5, ["n1"], None),
                                                   FRESH_STATUS.(phase := Open, lastScale := Some(0)))],
                             [Applied, Applied, Applied, Applied, Applied, Applied])

  const WEB_GROUND := Ground(map[WEB_LOC := Entry(WEB_KEY, ActionKey("k", WEB, "spec.replicas"), Some(1), false)], map[WEB_LOC := 2])

  lemma OneStepPlan(w: World, input: PlanIn, s: ResolvedStep, old_: Action, sticky: int32)
    requires input.resolved == Some([s]) && KeyOf(old_) == StepKey(s)
    ensures BuildPlanSpec(w, input, [old_], sticky)
              == (w, Success(ScalePlan([MakeStep(input, s, old_.baseline, Desired(input, old_.baseline))],
                                       old_.baseline, Desired(input, old_.baseline))))
  {
    assert [s][1..] == [];
    assert FindAction([old_], s.key, s.target) == Some(old_);
    assert BaselineSpec(w, s, [old_]) == (w, Success(old_.baseline));
    var d := Desired(input, old_.baseline);
    var step := MakeStep(input, s, old_.baseline, d);
    assert [] + [step] == [step];
    var p := ScalePlan([step], old_.baseline, d);
    assert BuildFrom(w, input, [old_], [], p) == (w, Success(p));
  }

  lemma OneStepRaise(w: World, s: Step, rest: seq<Outcome>)
    requires w.tape == [Applied, Applied, Applied] + rest && s.stamp == map[]
    requires Val(w.objs, LocOf(s.target)).Some? && InInt32(Val(w.objs, LocOf(s.target)).value)
    requires Val(w.objs, LocOf(s.target)).value < s.desired
    ensures var a := ApplySpec(w, [s]);
            && a.err.None? && a.w.tape == rest && a.w.wins == w.wins
            && forall l :: Val(a.w.objs, l) == if l == LocOf(s.target) then Some(s.desired as int) else Val(w.objs, l)
  {
    var o, path := s.target.obj, s.target.fieldPath;
    var values: map<string, int32> := map[path := s.desired];
    var (w1, cur) := CurrentSpec(w, s.target);
    assert cur == Success(Val(w.objs, LocOf(s.target)).value);
    ToInt32InRange(cur.value);
    assert [s][1..] == [] && [s][..1] == [s] && RunLen(o, [s]) == 1 && map[] + s.stamp == map[];
    assert ReadSteps(w, [s], map[], map[]) == GroupReads(w1, None, values, map[]);
    assert StepPaths([s]) == [path];
    assert path in IntPatch(w1.objs[o].ints, [path], values);
    PatchIntegersResult(w1, o, [path], values);
    var g := ApplyGroup(w, [s]);
    assert g.err.None? && g.w == PatchIntegersSpec(w1, o, [path], values).0;
    assert ForwardSpec(w, [s]).err.None? && ForwardSpec(w, [s]).w == g.w;
  }

  lemma MovedPlan()
    ensures var w0 := Rest(BEFORE_MOVE);
            var p := ScalePlan([MakeStep(MOVED.plan, SET_STEP, 2, 4)], 2, 4);
            && BuildPlanSpec(w0, MOVED.plan, [WEB_ACTION], 2) == (w0, Success(p))
            && EnsureWindowSpec(BEFORE_MOVE, WEB_KEY, MOVED, 0, 1)
                 == OpenWindowSpec(w0, WEB_KEY, Success(BEFORE_MOVE.wins[WEB_KEY]), MOVED, p, 1)
  {
    OneStepPlan(Rest(BEFORE_MOVE), MOVED.plan, SET_STEP, WEB_ACTION, 2);
    MovedTarget();
    Fixpoint.EnsureUnfolds(BEFORE_MOVE, WEB_KEY, MOVED, 0, 1);
  }

  lemma MovedTarget()
    ensures Desired(MOVED.plan, 2) == 4
  {
  }

  lemma MovedOpens()
    ensures EnsureWindowSpec(BEFORE_MOVE, WEB_KEY, MOVED, 0, 1).1.None?
  {
    MovedPlan();
    var w0, win := Rest(BEFORE_MOVE), BEFORE_MOVE.wins[WEB_KEY];
    var step := MakeStep(MOVED.plan, SET_STEP, 2, 4);
    var p := ScalePlan([step], 2, 4);
    var (w1, rerr) := RecordSpec(w0, WEB_KEY, Success(win), OpenSpec(p, MOVED, win.spec.actions), 1);
    assert rerr.None? && w1.tape == [Applied, Applied, Applied] + [Applied] && w1.objs == w0.objs;
    assert step.stamp == map[];
    OneStepRaise(w1, step, [Applied]);
  }

  /** Re-pointing a catalog entry from a Deployment to the StatefulSet of the same name breaks
      the write-ahead invariant: a refresh that succeeds everywhere drops the record of the
      raised Deployment, leaves it at 5, and records the StatefulSet, which stood at 3, with
      the Deployment's baseline 2. */
  lemma KindChangeLosesRaise()
    ensures Inv(BEFORE_MOVE.objs, BEFORE_MOVE.wins, WEB_GROUND)
    ensures var (w1, err) := EnsureWindowSpec(BEFORE_MOVE, WEB_KEY, MOVED, 0, 1);
            && err.None? && Raised(w1.objs, WEB_GROUND, WEB_LOC) && !Logged(w1.objs, w1.wins, WEB_GROUND)
            && WEB_KEY in w1.wins && w1.wins[WEB_KEY].spec.actions == [Action("k", SET, "spec.replicas", 2, 4, false, [])]
  {
    BeforeMoveIsSound();
    MovedOpens();
    var p := RefreshKeepsRecordIff(BEFORE_MOVE, WEB_GROUND, WEB_KEY, MOVED, 0, 1, WEB_LOC);
    MovedRecord();
  }

  lemma BeforeMoveIsSound()
    ensures Inv(BEFORE_MOVE.objs, BEFORE_MOVE.wins, WEB_GROUND) && Raised(BEFORE_MOVE.objs, WEB_GROUND, WEB_LOC)
  {
    var win := BEFORE_MOVE.wins[WEB_KEY];
    assert WEB_ACTION in win.spec.actions && ActionLoc(WEB_ACTION) == WEB_LOC;
    assert Val(BEFORE_MOVE.objs, WEB_LOC) == Some(5);
    assert Owes(win, WEB_LOC);
  }

  lemma MovedRecord()
    ensures var w1 := EnsureWindowSpec(BEFORE_MOVE, WEB_KEY, MOVED, 0, 1).0;
            && WEB_KEY in w1.wins && w1.wins[WEB_KEY].spec.actions == [Action("k", SET, "spec.replicas", 2, 4, false, [])]
            && !Lists(w1.wins[WEB_KEY].spec.actions, WEB_LOC)
  {
    MovedOpens();
    MovedPlan();
    var p, at := RefreshStores(BEFORE_MOVE, WEB_KEY, MOVED, 0, 1);
    var next := ToActions(p.steps);
    assert MakeStep(MOVED.plan, SET_STEP, 2, 4).stampKeys == [] by { NoStampKeys(); }
    assert next == [Action("k", SET, "spec.replicas", 2, 4, false, [])];
    assert KeyOf(next[0]) in Keys(next) && KeyOf(next[0]) == KeyOf(WEB_ACTION);
    assert [WEB_ACTION][..0] == [] && Plan.Without([WEB_ACTION], Keys(next)) == [];
    assert PlanActions(p, [WEB_ACTION]) == next;
  }

  lemma NoStampKeys()
    ensures UniqueStrings(StampKeys(MOVED.plan.stamp) + SET_STEP.annotations) == []
  {
    assert StampKeys(MOVED.plan.stamp) + SET_STEP.annotations == [];
  }

  /* ---- a settled window that flaps ---- */

  function StampedEntry(o: Obj): ResolvedStep { ResolvedStep("k", Target(o, "spec.replicas", None), ["x"], false) }

  const FLAPPING := Workload("app", "web", PlanIn(Some([StampedEntry(WEB), StampedEntry(GONE)]), 5, 2, 1, 0,
                                                  Stamp(false, "", "", "", "")), ["n1"])

  const FLAPPING_PLAN := ScalePlan([StampedStep(WEB), StampedStep(GONE)], 2, 4)

  /** The window is open on that plan; only Web is left, and it is up. */
  const SETTLED := World(FIVE, map[WEB_KEY := Window(Meta(false, true, false, Some(0)),
                                                     Spec(ToActions(FLAPPING_PLAN.steps), 2, 4, ["n1"], None),
                                                     FRESH_STATUS.(phase := Open, lastScale := Some(0)))],
                         [Applied, Applied] + ANSWERS)

  const TWO_GROUND := Ground(map[WEB_LOC := StampedBinding(WEB), Loc(GONE, "spec.replicas") := StampedBinding(GONE)],
                             map[WEB_LOC := 2, Loc(GONE, "spec.replicas") := 2])

  function StampedBinding(o: Obj): Entry { Entry(WEB_KEY, ActionKey("k", o, "spec.replicas"), Some(1), false) }

  lemma OneAnnotation(input: PlanIn, s: ResolvedStep, x: string, baseline: int32, desired: int32)
    requires !input.stamp.enabled && s.annotations == [x] && x != ""
    ensures MakeStep(input, s, baseline, desired)
              == Step(s.key, s.target, baseline, desired, map[x := "true"], [x], s.skip)
  {
    var want := map a | a in s.annotations :: "true";
    assert want == map[x := "true"] && map[] + want == want;
    assert [] + s.annotations == [x] && [x][..0] == [];
    assert UniqueStrings([x]) == [x];
  }

  lemma StampedMade(o: Obj)
    ensures MakeStep(FLAPPING.plan, StampedEntry(o), 2, 4) == StampedStep(o)
  {
    OneAnnotation(FLAPPING.plan, StampedEntry(o), "x", 2, 4);
  }

  lemma KeysDiffer()
    ensures ActionKey("k", WEB, "spec.replicas") != ActionKey("k", GONE, "spec.replicas")
  {
    assert |ActionKey("k", WEB, "spec.replicas")| < |ActionKey("k", GONE, "spec.replicas")|;
  }

  lemma TwoBindings()
    ensures GoodGround(TWO_GROUND) && GoodPlan(TWO_GROUND, WEB_KEY, FLAPPING_PLAN)
  {
    KeysDiffer();
    forall s | s in FLAPPING_PLAN.steps ensures FitsPlanned(TWO_GROUND, WEB_KEY, s) {
      assert s == StampedStep(WEB) || s == StampedStep(GONE);
    }
  }

  lemma FlappingPlanned()
    ensures Fixpoint.PlanOf(FLAPPING_PLAN, FLAPPING.plan) && DistinctKeys(FLAPPING.plan.resolved.value)
  {
    KeysDiffer();
    StampedMade(WEB);
    StampedMade(GONE);
    MovedTarget();
  }

  lemma SettledRecord()
    ensures GoodGround(TWO_GROUND) && GoodWindow(TWO_GROUND, WEB_KEY, SETTLED.wins[WEB_KEY])
    ensures Owes(SETTLED.wins[WEB_KEY], WEB_LOC)
  {
    TwoBindings();
    var a, b := ToAction(StampedStep(WEB)), ToAction(StampedStep(GONE));
    assert SETTLED.wins[WEB_KEY].spec.actions == [a, b];
    assert Fits(TWO_GROUND, WEB_KEY, a) && Fits(TWO_GROUND, WEB_KEY, b);
    assert a in [a, b] && ActionLoc(a) == WEB_LOC;
  }

  lemma SettledIsSound()
    ensures Inv(SETTLED.objs, SETTLED.wins, TWO_GROUND)
  {
    SettledRecord();
    assert Val(FIVE, WEB_LOC) == Some(5) && Val(FIVE, Loc(GONE, "spec.replicas")) == None;
    assert forall l :: l in TWO_GROUND.cat && l.obj in FIVE ==> l == WEB_LOC;
  }

  lemma SettledIsUp()
    ensures Fixpoint.AllUp(FIVE, FLAPPING_PLAN.steps) && Fixpoint.Leads(FLAPPING_PLAN, ToActions(FLAPPING_PLAN.steps))
  {
    assert Val(FIVE, WEB_LOC) == Some(5);
    assert !Below(FIVE, StampedStep(WEB)) && !Below(FIVE, StampedStep(GONE));
    var actions := ToActions(FLAPPING_PLAN.steps);
    assert actions[..|actions|] == actions;
  }

  lemma SettledIsSettled()
    ensures GoodGround(TWO_GROUND) && Fixpoint.Settled(Protocol.End(SETTLED), TWO_GROUND, WEB_KEY, FLAPPING, FLAPPING_PLAN)
  {
    TwoBindings();
    FlappingPlanned();
    SettledIsUp();
  }

  lemma FlappingStarts()
    ensures var start := Fixpoint.RefreshStart(SETTLED, WEB_KEY, FLAPPING, FLAPPING_PLAN, 1);
            start.Some? && start.value.objs == FIVE && start.value.tape == ANSWERS
  {
    assert SETTLED.tape[1..][1..] == ANSWERS;
  }

  /** A refresh of a settled window fails with its apply, and leaves the fields it leaves. */
  lemma RefreshFails(w: World, g: Ground, k: WKey, wl: Workload, p: ScalePlan, now: int, at: World)
    requires GoodGround(g) && Fixpoint.Settled(Protocol.End(w), g, k, wl, p)
    requires Fixpoint.RefreshStart(w, k, wl, p, now) == Some(at) && ApplySpec(at, p.steps).err.Some?
    ensures var (w1, err) := EnsureWindowSpec(w, k, wl, 0, now);
            err.Some? && w1.objs == ApplySpec(at, p.steps).w.objs
  {
    Fixpoint.RefreshStarts(w, g, k, wl, p, 0, now);
  }

  /** A settled window that flaps: everything it planned is up, but one of its objects has gone,
      so the refresh fails, and its compensation takes the other, which it has only stamped,
      down to the baseline. */
  lemma SettledWindowFlaps()
    ensures GoodGround(TWO_GROUND) && Inv(SETTLED.objs, SETTLED.wins, TWO_GROUND)
    ensures Fixpoint.Settled(Protocol.End(SETTLED), TWO_GROUND, WEB_KEY, FLAPPING, FLAPPING_PLAN)
    ensures var (w1, err) := EnsureWindowSpec(SETTLED, WEB_KEY, FLAPPING, 0, 1);
            && err.Some? && Val(SETTLED.objs, WEB_LOC) == Some(5) && Val(w1.objs, WEB_LOC) == Some(2)
  {
    SettledIsSound();
    SettledIsSettled();
    FlappingStarts();
    var at := Fixpoint.RefreshStart(SETTLED, WEB_KEY, FLAPPING, FLAPPING_PLAN, 1).value;
    StampedFieldIsLowered(at, FLAPPING_PLAN.steps);
    RefreshFails(SETTLED, TWO_GROUND, WEB_KEY, FLAPPING, FLAPPING_PLAN, 1, at);
  }

  /** A re-plan without steps keeps no record: a refresh that succeeds on an external-only
      catalog empties the actions and raises nothing, so it breaks the write-ahead invariant
      exactly when the workload still has a restorable field up. */
  lemma ExternalReplanForgets(w: World, g: Ground, k: WKey, wl: Workload, maxWindow: int, now: int)
    requires Inv(w.objs, w.wins, g) && k in w.wins && !HoldMaxWindow(maxWindow, w.wins[k], now)
    requires wl.plan.resolved == Some([]) && EnsureWindowSpec(w, k, wl, maxWindow, now).1.None?
    ensures var w1 := EnsureWindowSpec(w, k, wl, maxWindow, now).0;
            && k in w1.wins && w1.wins[k].spec.actions == [] && w1.objs == w.objs
            && (Inv(w1.objs, w1.wins, g) <==> Quiet(w.objs, g, k))
  {
    var w1 := EnsureWindowSpec(w, k, wl, maxWindow, now).0;
    var win := w.wins[k];
    ForgottenRecord(w, k, wl, maxWindow, now);
    if Quiet(w.objs, g, k) {
      PutKeeps(w.objs, w.wins, g, k, w1.wins[k]);
    } else {
      var l :| l in g.cat && g.cat[l].owner == k && !g.cat[l].skip && Raised(w.objs, g, l);
      assert !Owes(w1.wins[k], l);
    }
  }

  lemma ForgottenRecord(w: World, k: WKey, wl: Workload, maxWindow: int, now: int)
    requires k in w.wins && !HoldMaxWindow(maxWindow, w.wins[k], now) && HeldByFinalizer(w.wins[k])
    requires wl.plan.resolved == Some([]) && EnsureWindowSpec(w, k, wl, maxWindow, now).1.None?
    ensures var w1 := EnsureWindowSpec(w, k, wl, maxWindow, now).0;
            && k in w1.wins && w1.wins == w.wins[k := w1.wins[k]] && w1.wins[k].spec.actions == [] && w1.objs == w.objs
            && w1.wins[k].meta == w.wins[k].meta.(deferred := false)
  {
  }

  /* ---- the target ---- */

  /** With its target gone a window is restored and loses its finalizer, but is neither closed
      nor deleted, and the next pass puts the finalizer back: two successful passes leave the
      record exactly as it was. */
  lemma TargetGoneNeverCloses(w: World, k: WKey, input: WinIn, tape: seq<Outcome>)
    requires k in w.wins && !w.wins[k].meta.deleting && w.wins[k].meta.finalizer
    requires !input.policyGone && input.targetGone
    requires WindowPassSpec(w, k, input).err.None?
    requires var w1 := WindowPassSpec(w, k, input).w; WindowPassSpec(w1.(tape := tape), k, input).err.None?
    ensures var w1 := WindowPassSpec(w, k, input).w;
            var w2 := WindowPassSpec(w1.(tape := tape), k, input).w;
            && k in w1.wins && w1.wins[k] == w.wins[k].(meta := w.wins[k].meta.(finalizer := false))
            && w2.wins == w.wins
  {
    var win, w3 := w.wins[k], Rest(Rest(Rest(w)));
    RestoreWins(w3, FillNs(win.spec.actions, k.ns));
    var w1 := WindowPassSpec(w, k, input).w;
    GonePass(w, k, input);
    AddsFinalizer(w1.(tape := tape), k, input);
    var w2 := WindowPassSpec(w1.(tape := tape), k, input).w;
    assert w2.wins == w.wins;
  }

  lemma GonePass(w: World, k: WKey, input: WinIn)
    requires k in w.wins && !w.wins[k].meta.deleting && w.wins[k].meta.finalizer
    requires !input.policyGone && input.targetGone && WindowPassSpec(w, k, input).err.None?
    ensures WindowPassSpec(w, k, input).w.wins == w.wins[k := w.wins[k].(meta := w.wins[k].meta.(finalizer := false))]
  {
    RestoreWins(Rest(Rest(Rest(w))), FillNs(w.wins[k].spec.actions, k.ns));
  }

  lemma AddsFinalizer(w: World, k: WKey, input: WinIn)
    requires k in w.wins && !w.wins[k].meta.deleting && !w.wins[k].meta.finalizer && WindowPassSpec(w, k, input).err.None?
    ensures WindowPassSpec(w, k, input).w.wins == w.wins[k := w.wins[k].(meta := w.wins[k].meta.(finalizer := true))]
  {
  }

  /* ---- an unset field ---- */

  lemma FirstStepPlan(w: World, input: PlanIn, s: ResolvedStep, sticky: int32)
    requires input.resolved == Some([s]) && CurrentSpec(w, s.target).1.Success?
    ensures var (w1, cur) := CurrentSpec(w, s.target);
            BuildPlanSpec(w, input, [], sticky)
              == (w1, Success(ScalePlan([MakeStep(input, s, cur.value, Desired(input, cur.value))], cur.value, Desired(input, cur.value))))
  {
    var (w1, cur) := CurrentSpec(w, s.target);
    assert [s][1..] == [] && FindAction([], s.key, s.target) == None;
    assert BaselineSpec(w, s, []) == (w1, cur);
    var d := Desired(input, cur.value);
    var step := MakeStep(input, s, cur.value, d);
    assert [] + [step] == [step];
    var p := ScalePlan([step], cur.value, d);
    assert BuildFrom(w1, input, [], [], p) == (w1, Success(p));
  }

  /** An apply whose first call is refused changes nothing. */
  lemma RefusedApply(w: World, s: Step)
    requires w.tape == []
    ensures ApplySpec(w, [s]).w == w && ApplySpec(w, [s]).err.Some?
  {
    assert [s][..1] == [s] && [s][1..] == [] && RunLen(s.target.obj, [s]) == 1;
    assert ApplyGroup(w, [s]) == GroupOut(w, Some(Other), false, false);
  }

  /** An opening that stops right after Create has recorded the default of the binding for a
      field that is still unset. */
  lemma RecordedUnset(w: World, k: WKey, wl: Workload, maxWindow: int, now: int, s: ResolvedStep, d: int32)
    requires k !in w.wins && wl.plan.resolved == Some([s]) && w.tape == [Applied, Applied, Applied]
    requires s.target.obj in w.objs && Val(w.objs, LocOf(s.target)).None? && DefaultOf(s.target) == Some(d)
    ensures var w1 := EnsureWindowSpec(w, k, wl, maxWindow, now).0;
            && w1.objs == w.objs && k in w1.wins && w1.tape == []
            && |w1.wins[k].spec.actions| == 1 && ActionLoc(w1.wins[k].spec.actions[0]) == LocOf(s.target)
            && w1.wins[k].spec.actions[0].skip == s.skip && w1.wins[k].spec.actions[0].baseline == d
  {
    var w0 := Rest(w);
    FirstStepPlan(w0, wl.plan, s, 0);
    var step := MakeStep(wl.plan, s, d, Desired(wl.plan, d));
    var p := ScalePlan([step], d, Desired(wl.plan, d));
    var w1 := Rest(w0);
    assert BuildPlanSpec(w0, wl.plan, [], 0) == (w1, Success(p));
    var (w2, rerr) := RecordSpec(w1, k, Failure(NotFound), OpenSpec(p, wl, []), now);
    assert PlanActions(p, []) == [ToAction(step)];
    assert rerr.None? && w2.tape == [];
    RefusedApply(w2, step);
  }

  const RING := Obj("example.io/v1", "Ring", "app", "ring")
  const RING_LOC := Loc(RING, "spec.size")
  const RING_STEP := ResolvedStep("ring", Target(RING, "spec.size", Some(2)), [], false)
  const RING_WORK := Workload("app", "web", PlanIn(Some([RING_STEP]), 1, 1, 1, 0, Stamp(false, "", "", "", "")), ["n1"])
  const RING_PASS := PolicyIn("p", 0, 0, 0, map["app/web" := RING_WORK], ["app/web"], [], {"n1"})
  const RING_GROUND := Ground(map[RING_LOC := Entry(WEB_KEY, ActionKey("ring", RING, "spec.size"), Some(2), false)], map[RING_LOC := 2])

  /** The Ring's size is unset; its binding says that this means 2. */
  const RING_UNSET := Protocol.State(map[RING := ObjState(map[], map[])], map[])

  /** The window a pass over the Ring leaves when it stops right after recording. */
  ghost predicate RingRecorded(s: Protocol.State) {
    && s.objs == RING_UNSET.objs && WEB_KEY in s.wins && |s.wins[WEB_KEY].spec.actions| == 1
    && ActionLoc(s.wins[WEB_KEY].spec.actions[0]) == RING_LOC && !s.wins[WEB_KEY].spec.actions[0].skip
  }

  lemma RingTurn(w: World)
    requires w.objs == RING_UNSET.objs && w.wins == map[] && w.tape == [Applied, Applied, Applied, Applied]
    ensures var o := SlotLoopSpec(w, RING_PASS, ["app/web"], 0);
            o.stop.None? && RingRecorded(Protocol.End(o.w))
  {
    assert ["app/web"][1..] == [];
    RecordedUnset(Rest(w), WEB_KEY, RING_WORK, 0, 0, RING_STEP, 2);
  }

  lemma RingPass(tape: seq<Outcome>)
    requires tape == [Applied, Applied, Applied, Applied, Applied]
    ensures GoodOrder(RING_PASS)
    ensures RingRecorded(Protocol.Happen(RING_UNSET, Protocol.PolicyPass(RING_PASS, tape)))
  {
    assert GoodOrder(RING_PASS);
    SortKeeps(RING_PASS);
    assert ["app/web"][1..] == [] && Sort([]) == [] && Sort(["app/web"]) == Insert("app/web", []) == ["app/web"];
    var w := Protocol.Start(RING_UNSET, tape);
    assert SlotHolders(w.wins, "p") == {};
    RingTurn(Rest(w));
  }

  lemma RecordedBlocks(s: Protocol.State, tape: seq<Outcome>)
    requires Protocol.Sound(s, RING_GROUND) && RingRecorded(s)
    ensures RestoreSpec(Protocol.Start(s, tape), s.wins[WEB_KEY].spec.actions, WEB_KEY.ns).1.Some?
  {
    var a := s.wins[WEB_KEY].spec.actions[0];
    assert a in s.wins[WEB_KEY].spec.actions && Val(s.objs, RING_LOC).None?;
    NotReadable(Protocol.Start(s, tape), RING_GROUND, WEB_KEY, a);
  }

  lemma OneEventRun(s: Protocol.State, e: Protocol.Event)
    requires Protocol.Ordered(e)
    ensures Protocol.Run(s, [e]) == Protocol.Happen(s, e)
  {
    assert [e][1..] == [];
  }

  /** A run on which restoring never succeeds: from a clean cluster, one policy pass that stops
      right after recording. Every later restore of that record reports an error, whatever the
      answers, since the record has forgotten the default of the binding. */
  lemma UnsetFieldBlocksRestore(tape: seq<Outcome>)
    ensures GoodOrder(RING_PASS) && Protocol.Sound(RING_UNSET, RING_GROUND)
    ensures var e := Protocol.PolicyPass(RING_PASS, [Applied, Applied, Applied, Applied, Applied]);
            var s1 := Protocol.Run(RING_UNSET, [e]);
            && Protocol.Bound(RING_GROUND, e) && Protocol.Sound(s1, RING_GROUND) && WEB_KEY in s1.wins
            && RestoreSpec(Protocol.Start(s1, tape), s1.wins[WEB_KEY].spec.actions, WEB_KEY.ns).1.Some?
  {
    var e := Protocol.PolicyPass(RING_PASS, [Applied, Applied, Applied, Applied, Applied]);
    RingPass(e.tape);
    Protocol.CleanStart(RING_UNSET.objs, RING_GROUND);
    RingFits();
    Protocol.StepKeeps(RING_UNSET, RING_GROUND, e);
    OneEventRun(RING_UNSET, e);
    RecordedBlocks(Protocol.Happen(RING_UNSET, e), tape);
  }

  lemma RingFits()
    ensures GoodGround(RING_GROUND) && FitsPass(RING_GROUND, RING_PASS)
  {
    assert FitsStep(RING_GROUND, WEB_KEY, RING_STEP);
  }

  /** A recorded field that cannot be read fails every restore of its record. */
  lemma NotReadable(w: World, g: Ground, k: WKey, a: Action)
    requires Inv(w.objs, w.wins, g) && k in w.wins && a in w.wins[k].spec.actions && !a.skip
    requires a.obj in w.objs && Val(w.objs, ActionLoc(a)).None? && !KnownDefaultOne(a.obj.apiVersion, a.obj.kind)
    ensures RestoreSpec(w, w.wins[k].spec.actions, k.ns).1.Some?
  {
    ConsistentWindow(g, k, w.wins[k]);
    RestoreResult(w, w.wins[k].spec.actions, Base(g));
    assert !Peek(w.objs, ActionTarget(a)).Success?;
  }
}
