/** No flapping: on a frozen snapshot a raised workload stays as it is. */
module Fixpoint {
  import opened Strings
  import opened Types
  import opened Store
  import opened Plan
  import opened PlanEffects
  import opened PlanRecords
  import opened PlanTheorems
  import opened Spare
  import opened Clock
  import opened WindowController
  import opened PolicyController
  import opened Ledger
  import opened WindowLedger
  import opened WindowFields
  import opened PolicyLedger
  import opened PolicyEvolution
  import opened Protocol
  import opened FailOpen
  import Collect
  import SlotCap

  /* ---- planning again ---- */

  /** `p` is a plan of the workload, up to the baselines it starts from. */
  ghost predicate PlanOf(p: ScalePlan, input: PlanIn) {
    input.resolved.Some? && input.resolved.value != [] && |p.steps| == |input.resolved.value|
    && p.primaryBaseline == p.steps[0].baseline && p.desired == Desired(input, p.primaryBaseline)
    && forall i :: 0 <= i < |p.steps| ==>
         p.steps[i] == MakeStep(input, input.resolved.value[i], p.steps[i].baseline, p.desired)
  }

  /** The plans read the same but for the Deployment's own replicas, which only a plan without
      steps looks at, and which the plan itself may have raised. */
  predicate Alike(a: PlanIn, b: PlanIn) { a.(replicas := b.replicas) == b }

  /** What a plan under construction satisfies after `i` steps. */
  ghost predicate Partial(plan: ScalePlan, input: PlanIn, i: nat)
    requires input.resolved.Some? && i <= |input.resolved.value|
  {
    |plan.steps| == i
    && (i > 0 ==> plan.primaryBaseline == plan.steps[0].baseline && plan.desired == Desired(input, plan.primaryBaseline))
    && forall j :: 0 <= j < i ==>
         plan.steps[j] == MakeStep(input, input.resolved.value[j], plan.steps[j].baseline, plan.desired)
  }

  function Grown(plan: ScalePlan, input: PlanIn, s: ResolvedStep, base: int32): ScalePlan {
    var p := if plan.steps == [] then ScalePlan([], base, Desired(input, base)) else plan;
    p.(steps := p.steps + [MakeStep(input, s, base, p.desired)])
  }

  lemma PartialGrows(plan: ScalePlan, input: PlanIn, i: nat, base: int32)
    requires input.resolved.Some? && i < |input.resolved.value| && Partial(plan, input, i)
    ensures Partial(Grown(plan, input, input.resolved.value[i], base), input, i + 1)
  {
  }

  lemma {:induction false} BuildGivesPlan(w: World, input: PlanIn, existing: seq<Action>, i: nat, plan: ScalePlan)
    requires input.resolved.Some? && input.resolved.value != [] && i <= |input.resolved.value| && Partial(plan, input, i)
    decreases |input.resolved.value| - i
    ensures var r := BuildFrom(w, input, existing, input.resolved.value[i..], plan).1;
            r.Success? ==> PlanOf(r.value, input)
  {
    var todo := input.resolved.value[i..];
    if todo != [] {
      var (w1, base) := BaselineSpec(w, todo[0], existing);
      if base.Success? {
        PartialGrows(plan, input, i, base.value);
        assert todo[1..] == input.resolved.value[i + 1..];
        BuildGivesPlan(w1, input, existing, i + 1, Grown(plan, input, todo[0], base.value));
      }
    }
  }

  lemma {:induction false} FindAt(actions: seq<Action>, i: nat, key: string, t: Target)
    requires i < |actions| && KeyOf(actions[i]) == ActionKey(key, t.obj, t.fieldPath)
    requires forall j :: 0 <= j < i ==> KeyOf(actions[j]) != KeyOf(actions[i])
    ensures FindAction(actions, key, t) == Some(actions[i])
  {
    if i > 0 { FindAt(actions[1..], i - 1, key, t); }
  }

  /** The record starts with the actions of the plan. */
  ghost predicate Leads(p: ScalePlan, actions: seq<Action>) {
    |p.steps| <= |actions| && actions[..|p.steps|] == ToActions(p.steps)
  }

  lemma BaselineKnown(p: ScalePlan, input: PlanIn, existing: seq<Action>, i: nat)
    requires PlanOf(p, input) && DistinctKeys(input.resolved.value) && Leads(p, existing) && i < |p.steps|
    ensures FindAction(existing, input.resolved.value[i].key, input.resolved.value[i].target) == Some(ToAction(p.steps[i]))
  {
    var steps := input.resolved.value;
    forall j | 0 <= j <= i ensures existing[j] == ToAction(p.steps[j]) && KeyOf(existing[j]) == StepKey(steps[j]) {
      assert existing[j] == existing[..|p.steps|][j];
    }
    FindAt(existing, i, steps[i].key, steps[i].target);
  }

  /** Planning on the recorded plan makes the same plan, and reads nothing. */
  lemma {:induction false} RebuildFrom(w: World, input: PlanIn, existing: seq<Action>, p: ScalePlan, i: nat)
    requires PlanOf(p, input) && DistinctKeys(input.resolved.value) && Leads(p, existing) && 0 < i <= |p.steps|
    decreases |p.steps| - i
    ensures BuildFrom(w, input, existing, input.resolved.value[i..], p.(steps := p.steps[..i])) == (w, Success(p))
  {
    var todo := input.resolved.value[i..];
    if todo == [] {
      assert p.steps[..i] == p.steps;
    } else {
      BaselineKnown(p, input, existing, i);
      assert todo[1..] == input.resolved.value[i + 1..];
      assert p.steps[..i + 1] == p.steps[..i] + [p.steps[i]];
      RebuildFrom(w, input, existing, p, i + 1);
    }
  }

  lemma Rebuild(w: World, input: PlanIn, existing: seq<Action>, p: ScalePlan, sticky: int32)
    requires PlanOf(p, input) && DistinctKeys(input.resolved.value) && Leads(p, existing)
    ensures BuildPlanSpec(w, input, existing, sticky) == (w, Success(p))
  {
    BaselineKnown(p, input, existing, 0);
    RebuildFrom(w, input, existing, p, 1);
    var first := p.steps[0];
    assert p.steps[..1] == [first];
    assert p.(steps := p.steps[..1]) == ScalePlan([] + [first], first.baseline, Desired(input, first.baseline));
    assert BaselineSpec(w, input.resolved.value[0], existing) == (w, Success(first.baseline));
  }

  /* ---- applying again ---- */

  /** No step of the plan finds its field below the target. */
  ghost predicate AllUp(objs: map<Obj, ObjState>, steps: seq<Plan.Step>) {
    forall s :: s in steps ==> !Below(objs, s)
  }

  predicate NoStamps(p: ScalePlan) { forall s :: s in p.steps ==> s.stamp == map[] }

  ghost predicate Stamped(group: seq<Plan.Step>) { exists s :: s in group && s.stamp != map[] }

  lemma {:induction false} NoStampRead(w: World, group: seq<Plan.Step>, values: map<string, int32>)
    requires forall s :: s in group ==> s.stamp == map[]
    decreases |group|
    ensures ReadSteps(w, group, values, map[]).stamp == map[]
  {
    if group != [] {
      var s := group[0];
      var (w1, cur) := CurrentSpec(w, s.target);
      assert map[] + s.stamp == map[];
      if cur.Success? {
        NoStampRead(w1, group[1..], if cur.value < s.desired then values[s.target.fieldPath := s.desired] else values);
      }
    }
  }

  /** A group with nothing below its target is compensated later only if it is stamped. */
  lemma IdleGroup(w: World, group: seq<Plan.Step>, d: int32)
    requires group != [] && Shared(group, d) && AllUp(w.objs, group)
    ensures ApplyGroup(w, group).mutated ==> Stamped(group)
  {
    ReadStepsResult(w, group, map[], map[], d);
    if !Stamped(group) { NoStampRead(w, group, map[]); }
    var rd := ReadSteps(w, group, map[], map[]);
    assert rd.err.None? ==> rd.values == map[];
  }

  lemma IdleFields(w: World, group: seq<Plan.Step>, o: Obj, d: int32)
    requires group != [] && OneObject(group, o) && Shared(group, d) && AllUp(w.objs, group)
    ensures SameFields(w, ApplyGroup(w, group).w)
  {
    ApplyGroupResult(w, group, o, d);
  }

  lemma UpStays(w: World, w1: World, steps: seq<Plan.Step>)
    requires AllUp(w.objs, steps) && SameFields(w, w1)
    ensures AllUp(w1.objs, steps)
  {
    forall s | s in steps ensures !Below(w1.objs, s) {
      assert !Below(w.objs, s) && Val(w1.objs, LocOf(s.target)) == Val(w.objs, LocOf(s.target));
    }
  }

  /** The groups to compensate, of a plan that finds everything up, are stamped ones. */
  lemma {:induction false} AppliedAreStamped(w: World, steps: seq<Plan.Step>, d: int32)
    requires Shared(steps, d) && AllUp(w.objs, steps)
    decreases |steps|
    ensures forall group: seq<Plan.Step> :: group in ForwardSpec(w, steps).applied ==> Stamped(group)
  {
    if steps != [] {
      var n := RunLen(steps[0].target.obj, steps);
      var group, rest := steps[..n], steps[n..];
      assert (forall s :: s in group ==> s in steps) && forall s :: s in rest ==> s in steps;
      IdleGroup(w, group, d);
      var g := ApplyGroup(w, group);
      if g.err.None? {
        IdleFields(w, group, steps[0].target.obj, d);
        UpStays(w, g.w, rest);
        AppliedAreStamped(g.w, rest, d);
      }
    }
  }

  /* ---- an apply that fails ---- */

  /** The apply fails, and one of the steps it then compensates finds the field above the
      baseline it has on record. */
  ghost predicate Undone(w: World, p: ScalePlan, l: Loc) {
    var f := ForwardSpec(w, p.steps);
    f.err.Some? && NeedsLower(w.objs, ToActions(Flat(f.applied)), l)
  }

  /** The compensation of a failed apply reports no error. */
  predicate Compensated(w: World, p: ScalePlan) {
    var f := ForwardSpec(w, p.steps);
    f.err.Some? ==> CompensateSpec(f.w, f.applied).1.None?
  }

  /** From `objs` to `objs1` the field moves, to its baseline, only if the apply that starts at
      `start` undoes it; and, when its compensation reports no error, if it does. */
  ghost predicate MovesIffUndone(objs: map<Obj, ObjState>, objs1: map<Obj, ObjState>, g: Ground,
                                 start: Option<World>, p: ScalePlan, l: Loc)
    requires GoodGround(g)
  {
    && (Val(objs1, l) != Val(objs, l) ==>
          start.Some? && Undone(start.value, p, l) && l in Base(g) && Val(objs1, l) == Some(Base(g)[l]))
    && (start.Some? && Compensated(start.value, p) ==> (Val(objs1, l) != Val(objs, l) <==> Undone(start.value, p, l)))
  }

  /** The apply that starts here, if any, undoes nothing. */
  ghost predicate Calm(start: Option<World>, p: ScalePlan) {
    start.Some? ==> forall l :: !Undone(start.value, p, l)
  }

  /** Where a plan that finds everything up moves a field: nowhere, unless it fails; then
      exactly the fields of compensated groups that stand above their baseline, and those to
      the baseline. */
  lemma ApplyMovesIff(w: World, g: Ground, k: WKey, p: ScalePlan, l: Loc)
    requires GoodGround(g) && GoodPlan(g, k, p) && AllUp(w.objs, p.steps)
    ensures ApplySpec(w, p.steps).w.objs.Keys == w.objs.Keys
    ensures MovesIffUndone(w.objs, ApplySpec(w, p.steps).w.objs, g, Some(w), p, l)
  {
    ForwardResult(w, p.steps, p.desired);
    var f := ForwardSpec(w, p.steps);
    assert SameFields(w, f.w);
    if f.err.Some? {
      ForwardGroups(w, p.steps);
      forall s | s in Flat(f.applied) ensures s in p.steps { FlatMembers(f.applied, s); }
      PlanConsistent(g, k, p, Flat(f.applied));
      var acts := ToActions(Flat(f.applied));
      CompensateResult(f.w, f.applied, p.steps, Base(g));
      SameAbove(w.objs, f.w.objs, acts, l);
      if NeedsLower(f.w.objs, acts, l) { LoweredDiffers(f.w.objs, acts, Base(g), l); }
    }
  }

  lemma SameAbove(objs: map<Obj, ObjState>, objs1: map<Obj, ObjState>, actions: seq<Action>, l: Loc)
    requires objs1.Keys == objs.Keys && Val(objs1, l) == Val(objs, l)
    ensures NeedsLower(objs1, actions, l) == NeedsLower(objs, actions, l)
  {
    forall a: Action | ActionLoc(a) == l ensures Above(objs1, a) == Above(objs, a) {}
  }

  lemma LoweredDiffers(objs: map<Obj, ObjState>, actions: seq<Action>, base: map<Loc, int32>, l: Loc)
    requires Consistent(actions, base) && NeedsLower(objs, actions, l)
    ensures l in base && Val(objs, l) != Some(base[l] as int)
  {
    var a :| a in actions && ActionLoc(a) == l && Above(objs, a);
  }

  /** A plan that finds everything up and undoes nothing changes no field. */
  lemma CalmApply(w: World, g: Ground, k: WKey, p: ScalePlan)
    requires GoodGround(g) && GoodPlan(g, k, p) && AllUp(w.objs, p.steps) && Calm(Some(w), p)
    ensures SameFields(w, ApplySpec(w, p.steps).w)
  {
    forall l ensures Val(ApplySpec(w, p.steps).w.objs, l) == Val(w.objs, l) && ApplySpec(w, p.steps).w.objs.Keys == w.objs.Keys {
      ApplyMovesIff(w, g, k, p, l);
      assert !Undone(w, p, l);
    }
  }

  /** A successful apply is calm, and so is one without stamps that finds everything up. */
  lemma CalmWithoutStamps(w: World, p: ScalePlan)
    requires Shared(p.steps, p.desired) && AllUp(w.objs, p.steps) && (NoStamps(p) || ApplySpec(w, p.steps).err.None?)
    ensures Calm(Some(w), p)
  {
    var applied := ForwardSpec(w, p.steps).applied;
    if NoStamps(p) && applied != [] {
      assert applied[0] in applied;
      AppliedAreStamped(w, p.steps, p.desired);
      ForwardGroups(w, p.steps);
      assert false;
    }
  }

  /** Only a planned field of the workload is ever undone. */
  lemma UndoneIsOwn(w: World, g: Ground, k: WKey, p: ScalePlan, l: Loc)
    requires GoodGround(g) && GoodPlan(g, k, p) && Undone(w, p, l)
    ensures l in g.cat && g.cat[l].owner == k
  {
    var f := ForwardSpec(w, p.steps);
    var acts := ToActions(Flat(f.applied));
    var a :| a in acts && ActionLoc(a) == l && Above(w.objs, a);
    var i :| 0 <= i < |acts| && acts[i] == a;
    ForwardGroups(w, p.steps);
    FlatMembers(f.applied, Flat(f.applied)[i]);
    assert FitsPlanned(g, k, Flat(f.applied)[i]);
  }

  /* ---- the settled window ---- */

  predicate Standing(win: Window) {
    && win.status.phase == Open && !win.status.forcedCool && win.status.lastScale.Some?
    && !win.meta.deferred && !win.meta.deleting && win.meta.finalizer
  }

  /** The window of `k` is open on plan `p`, and everything it planned is up. */
  ghost predicate Settled(s: State, g: Ground, k: WKey, wl: Workload, p: ScalePlan)
    requires GoodGround(g)
  {
    && GoodPlan(g, k, p) && PlanOf(p, wl.plan) && DistinctKeys(wl.plan.resolved.value)
    && k in s.wins && Standing(s.wins[k]) && Leads(p, s.wins[k].spec.actions) && AllUp(s.objs, p.steps)
  }

  /** The fields of `k` and its window's standing survive. */
  ghost predicate Stable(s: State, s1: State, g: Ground, k: WKey)
    requires GoodGround(g)
  {
    && s1.objs.Keys == s.objs.Keys
    && (forall l :: l in g.cat && g.cat[l].owner == k ==> Val(s1.objs, l) == Val(s.objs, l))
    && k in s.wins && k in s1.wins && s1.wins[k].status.lastScale == s.wins[k].status.lastScale
  }

  lemma StaysUp(objs: map<Obj, ObjState>, objs1: map<Obj, ObjState>, g: Ground, k: WKey, p: ScalePlan)
    requires GoodGround(g) && GoodPlan(g, k, p) && AllUp(objs, p.steps) && objs1.Keys == objs.Keys
    requires forall l :: l in g.cat && g.cat[l].owner == k ==> Val(objs1, l) == Val(objs, l)
    ensures AllUp(objs1, p.steps)
  {
    forall s | s in p.steps ensures !Below(objs1, s) {
      assert FitsPlanned(g, k, s);
      assert Val(objs1, LocOf(s.target)) == Val(objs, LocOf(s.target));
    }
  }

  lemma RefreshLeads(p: ScalePlan, existing: seq<Action>)
    requires p.steps != []
    ensures Leads(p, PlanActions(p, existing))
  {
    var next := ToActions(p.steps);
    assert (next + Plan.Without(existing, Keys(next)))[..|next|] == next;
  }

  lemma RecordAgain(w: World, k: WKey, wl: Workload, p: ScalePlan, now: int)
    requires k in w.wins && Standing(w.wins[k]) && Leads(p, w.wins[k].spec.actions) && p.steps != []
    ensures var (w1, err) := RecordSpec(w, k, Success(w.wins[k]), OpenSpec(p, wl, w.wins[k].spec.actions), now);
            && w1.objs == w.objs && k in w1.wins && Standing(w1.wins[k]) && Leads(p, w1.wins[k].spec.actions)
            && w1.wins[k].status == w.wins[k].status
  {
    RefreshLeads(p, w.wins[k].spec.actions);
  }

  lemma ReportAgain(w: World, k: WKey, before: Status, now: int, msg: Msg, applied: Option<Error>)
    requires k in w.wins && Standing(w.wins[k]) && w.wins[k].status == before
    ensures var w1 := SetStatusSpec(w, k, before, OpenedStatus(before, now, msg, applied)).0;
            && w1.objs == w.objs && k in w1.wins && Standing(w1.wins[k]) && w1.wins[k].spec == w.wins[k].spec
            && w1.wins[k].status.lastScale == before.lastScale
  {
  }

  lemma RaiseAgain(w: World, g: Ground, k: WKey, wl: Workload, p: ScalePlan, now: int)
    requires GoodGround(g) && Settled(End(w), g, k, wl, p) && Calm(Some(w), p)
    ensures var a := ApplySpec(w, p.steps);
            var w1 := SetStatusSpec(a.w, k, w.wins[k].status,
                                    OpenedStatus(w.wins[k].status, now, OpenMsg(p, a.err), a.err)).0;
            Settled(End(w1), g, k, wl, p) && Stable(End(w), End(w1), g, k)
  {
    ApplyWins(w, p.steps);
    CalmApply(w, g, k, p);
    var a := ApplySpec(w, p.steps);
    StaysUp(w.objs, a.w.objs, g, k, p);
    ReportAgain(a.w, k, w.wins[k].status, now, OpenMsg(p, a.err), a.err);
  }

  /** The world a refresh starts its apply from: it has read the window and stored its record. */
  function RefreshStart(w: World, k: WKey, wl: Workload, p: ScalePlan, now: int): Option<World> {
    if Next(w) != Applied || k !in w.wins then None
    else
      var (w1, err) := RecordSpec(Rest(w), k, Success(w.wins[k]), OpenSpec(p, wl, w.wins[k].spec.actions), now);
      if err.Some? then None else Some(w1)
  }

  /** A refresh that gets its answers opens on the plan it makes. */
  lemma EnsureUnfolds(w: World, k: WKey, wl: Workload, maxWindow: int, now: int)
    requires k in w.wins && Next(w) == Applied && !HoldMaxWindow(maxWindow, w.wins[k], now)
    ensures var (w1, plan) := BuildPlanSpec(Rest(w), wl.plan, w.wins[k].spec.actions, w.wins[k].spec.baseline);
            plan.Success? ==>
              EnsureWindowSpec(w, k, wl, maxWindow, now) == OpenWindowSpec(w1, k, Success(w.wins[k]), wl, plan.value, now)
  {
  }

  /** What an opening does, step by step: record, apply, report. */
  lemma OpenCases(w: World, k: WKey, win: Window, wl: Workload, p: ScalePlan, now: int)
    ensures var (w1, rerr) := RecordSpec(w, k, Success(win), OpenSpec(p, wl, win.spec.actions), now);
            var a := ApplySpec(w1, p.steps);
            var (w2, serr) := SetStatusSpec(a.w, k, win.status, OpenedStatus(win.status, now, OpenMsg(p, a.err), a.err));
            && w1.objs == w.objs && w2.objs == a.w.objs
            && OpenWindowSpec(w, k, Success(win), wl, p, now)
                 == if rerr.Some? then (w1, rerr) else (w2, if serr.Some? then serr else a.err)
  {
    var w1 := RecordSpec(w, k, Success(win), OpenSpec(p, wl, win.spec.actions), now).0;
    var a := ApplySpec(w1, p.steps);
    UpdateStatusCases(a.w, k, OpenedStatus(win.status, now, OpenMsg(p, a.err), a.err));
  }

  /** A refresh of a settled window applies its plan from there, on the fields as they are. */
  lemma RefreshStarts(w: World, g: Ground, k: WKey, wl: Workload, p: ScalePlan, maxWindow: int, now: int)
    requires GoodGround(g) && Settled(End(w), g, k, wl, p) && !MaxWindowExceeded(maxWindow, w.wins[k], now)
    ensures var start := RefreshStart(w, k, wl, p, now);
            var (w1, err) := EnsureWindowSpec(w, k, wl, maxWindow, now);
            && (start.None? ==> err.Some? && w1.objs == w.objs)
            && (start.Some? ==>
                  var a := ApplySpec(start.value, p.steps);
                  start.value.objs == w.objs && w1.objs == a.w.objs && (a.err.Some? ==> err.Some?))
  {
    if Next(w) == Applied {
      Rebuild(Rest(w), wl.plan, w.wins[k].spec.actions, p, w.wins[k].spec.baseline);
      EnsureUnfolds(w, k, wl, maxWindow, now);
      OpenCases(Rest(w), k, w.wins[k], wl, p, now);
    }
  }

  /** Exactly when a refresh moves a field of a settled workload, whatever it reports: it gets
      to its apply, the apply fails, and it compensates a group with this field above the
      baseline; such a group has stamps. */
  lemma RefreshMovesIff(w: World, g: Ground, k: WKey, wl: Workload, p: ScalePlan, maxWindow: int, now: int, l: Loc)
    requires GoodGround(g) && Settled(End(w), g, k, wl, p) && !MaxWindowExceeded(maxWindow, w.wins[k], now)
    ensures var start := RefreshStart(w, k, wl, p, now);
            && MovesIffUndone(w.objs, EnsureWindowSpec(w, k, wl, maxWindow, now).0.objs, g, start, p, l)
            && (start.Some? ==>
                  forall group: seq<Plan.Step> :: group in ForwardSpec(start.value, p.steps).applied ==> Stamped(group))
  {
    RefreshStarts(w, g, k, wl, p, maxWindow, now);
    var start := RefreshStart(w, k, wl, p, now);
    if start.Some? {
      ApplyMovesIff(start.value, g, k, p, l);
      AppliedAreStamped(start.value, p.steps, p.desired);
    }
  }

  /** A calm refresh of a settled window, within its deadline, settles it again. */
  lemma EnsureAgain(w: World, g: Ground, k: WKey, wl: Workload, p: ScalePlan, maxWindow: int, now: int)
    requires GoodGround(g) && Settled(End(w), g, k, wl, p) && !MaxWindowExceeded(maxWindow, w.wins[k], now)
    requires Calm(RefreshStart(w, k, wl, p, now), p)
    ensures var w1 := EnsureWindowSpec(w, k, wl, maxWindow, now).0;
            Settled(End(w1), g, k, wl, p) && Stable(End(w), End(w1), g, k)
  {
    if Next(w) == Applied {
      var win, w1 := w.wins[k], Rest(w);
      Rebuild(w1, wl.plan, win.spec.actions, p, win.spec.baseline);
      EnsureUnfolds(w, k, wl, maxWindow, now);
      RecordAgain(w1, k, wl, p, now);
      OpenCases(w1, k, win, wl, p, now);
      var (w2, rerr) := RecordSpec(w1, k, Success(win), OpenSpec(p, wl, win.spec.actions), now);
      if rerr.None? { RaiseAgain(w2, g, k, wl, p, now); }
    }
  }

  /** A refresh is calm if it succeeds, and if the plan has no stamps. */
  lemma CalmRefresh(w: World, g: Ground, k: WKey, wl: Workload, p: ScalePlan, maxWindow: int, now: int)
    requires GoodGround(g) && Settled(End(w), g, k, wl, p) && !MaxWindowExceeded(maxWindow, w.wins[k], now)
    requires NoStamps(p) || EnsureWindowSpec(w, k, wl, maxWindow, now).1.None?
    ensures Calm(RefreshStart(w, k, wl, p, now), p)
  {
    RefreshStarts(w, g, k, wl, p, maxWindow, now);
    var start := RefreshStart(w, k, wl, p, now);
    if start.Some? { CalmWithoutStamps(start.value, p); }
  }

  /* ---- a policy pass ---- */

  lemma StableChain(s: State, s1: State, s2: State, g: Ground, k: WKey)
    requires GoodGround(g) && Stable(s, s1, g, k) && Stable(s1, s2, g, k)
    ensures Stable(s, s2, g, k)
  {
  }

  /** What leaves the window of `k` and its fields alone keeps it settled. */
  lemma UntouchedSettled(w: World, w1: World, g: Ground, k: WKey, wl: Workload, p: ScalePlan)
    requires GoodGround(g) && Settled(End(w), g, k, wl, p) && Untouched(w, w1, g, k)
    ensures Settled(End(w1), g, k, wl, p) && Stable(End(w), End(w1), g, k)
  {
    StaysUp(w.objs, w1.objs, g, k, p);
  }

  /** The policy pass plans for the workload as before, within the deadline. */
  ghost predicate SamePlan(input: PolicyIn, k: WKey, wl: Workload, openedAt: int) {
    && SlotCap.Filed(input) && input.policy == k.policy && WorkKey(k) in input.work
    && Alike(input.work[WorkKey(k)].plan, wl.plan) && KeyAt(input, WorkKey(k)) == k
    && !(input.maxWindow > 0 && input.now >= openedAt + input.maxWindow)
  }

  /** Where the turn of a workload starts its apply. */
  function TurnStart(w: World, input: PolicyIn, wl: Workload, p: ScalePlan): Option<World> {
    if Next(w) != Applied then None else RefreshStart(Rest(w), WindowKey(input.policy, wl), wl, p, input.now)
  }

  /** A workload that holds a slot gets its window refreshed. */
  lemma HolderRefreshes(w: World, input: PolicyIn, wl: Workload, active: int)
    requires SlotCap.Holds(w.wins, WindowKey(input.policy, wl))
    ensures var t := TurnSpec(w, input, wl, active);
            var (w1, err) := EnsureWindowSpec(Rest(w), WindowKey(input.policy, wl), wl, input.maxWindow, input.now);
            if Next(w) == Applied then t.w == w1 && t.errors == One(err.Some?) else t.w == Rest(w)
  {
    TurnCases(w, input, wl, active);
  }

  /** The own turn of a settled workload: a calm one settles it again. */
  lemma OwnTurnAgain(w: World, g: Ground, input: PolicyIn, wl: Workload, active: int, k: WKey, p: ScalePlan)
    requires GoodGround(g) && Settled(End(w), g, k, wl, p) && WindowKey(input.policy, wl) == k
    requires !MaxWindowExceeded(input.maxWindow, w.wins[k], input.now) && Calm(TurnStart(w, input, wl, p), p)
    ensures var t := TurnSpec(w, input, wl, active);
            Settled(End(t.w), g, k, wl, p) && Stable(End(w), End(t.w), g, k)
  {
    HolderRefreshes(w, input, wl, active);
    assert End(Rest(w)) == End(w);
    if Next(w) == Applied { EnsureAgain(Rest(w), g, k, wl, p, input.maxWindow, input.now); }
  }

  /** It moves a field exactly when its apply undoes it. */
  lemma OwnTurnMoves(w: World, g: Ground, input: PolicyIn, wl: Workload, active: int, k: WKey, p: ScalePlan, l: Loc)
    requires GoodGround(g) && Settled(End(w), g, k, wl, p) && WindowKey(input.policy, wl) == k
    requires !MaxWindowExceeded(input.maxWindow, w.wins[k], input.now)
    ensures MovesIffUndone(w.objs, TurnSpec(w, input, wl, active).w.objs, g, TurnStart(w, input, wl, p), p, l)
  {
    HolderRefreshes(w, input, wl, active);
    assert End(Rest(w)) == End(w);
    if Next(w) == Applied { RefreshMovesIff(Rest(w), g, k, wl, p, input.maxWindow, input.now, l); }
  }

  lemma OwnTurnCalm(w: World, g: Ground, input: PolicyIn, wl: Workload, active: int, k: WKey, p: ScalePlan)
    requires GoodGround(g) && Settled(End(w), g, k, wl, p) && WindowKey(input.policy, wl) == k
    requires !MaxWindowExceeded(input.maxWindow, w.wins[k], input.now)
    requires NoStamps(p) || TurnSpec(w, input, wl, active).errors == 0
    ensures Calm(TurnStart(w, input, wl, p), p)
  {
    HolderRefreshes(w, input, wl, active);
    assert End(Rest(w)) == End(w);
    if Next(w) == Applied { CalmRefresh(Rest(w), g, k, wl, p, input.maxWindow, input.now); }
  }

  /* ---- the turns around it ---- */

  /** Where the turn of the workload filed under `key` starts, when the loop gets there, and
      the count of slots it has by then. */
  function OwnTurnIn(w: World, input: PolicyIn, keys: seq<string>, active: int, key: string): (r: Option<(World, int)>)
    requires forall x :: x in keys ==> x in input.work
    ensures r.Some? ==> key in keys
    decreases |keys|
  {
    if keys == [] then None
    else if keys[0] == key then Some((w, active))
    else
      var t := TurnSpec(w, input, input.work[keys[0]], active);
      if t.stop.Some? then None else OwnTurnIn(t.w, input, keys[1..], t.active, key)
  }

  /** From `w` to `w1` the window and the fields of `k` differ by its own turn alone. */
  ghost predicate ByOwnTurn(w: World, own: Option<(World, int)>, w1: World, g: Ground, input: PolicyIn, k: WKey)
    requires GoodGround(g) && (own.Some? ==> WorkKey(k) in input.work)
  {
    if own.None? then Untouched(w, w1, g, k)
    else
      var (w0, active) := own.value;
      Inv(w0.objs, w0.wins, g) && Untouched(w, w0, g, k)
      && Untouched(TurnSpec(w0, input, input.work[WorkKey(k)], active).w, w1, g, k)
  }

  lemma OthersAfter(input: PolicyIn, keys: seq<string>, k: WKey)
    requires SlotCap.Filed(input) && Ascending(keys) && keys != [] && keys[0] == WorkKey(k)
    requires forall key :: key in keys ==> key in input.work
    ensures forall key :: key in keys[1..] ==> key in input.work && KeyAt(input, key) != k
  {
    AscendingHeadOnce(keys);
  }

  lemma OthersBefore(w: World, w0: World, own: Option<(World, int)>, w1: World, g: Ground, input: PolicyIn, k: WKey)
    requires GoodGround(g) && (own.Some? ==> WorkKey(k) in input.work)
    requires Untouched(w, w0, g, k) && ByOwnTurn(w0, own, w1, g, input, k)
    ensures ByOwnTurn(w, own, w1, g, input, k)
  {
  }

  lemma {:induction false} LoopByOwnTurn(w: World, g: Ground, input: PolicyIn, keys: seq<string>, active: int, k: WKey)
    requires Inv(w.objs, w.wins, g) && FitsPass(g, input) && SlotCap.Filed(input)
    requires Ascending(keys) && forall key :: key in keys ==> key in input.work
    decreases |keys|
    ensures ByOwnTurn(w, OwnTurnIn(w, input, keys, active, WorkKey(k)), SlotLoopSpec(w, input, keys, active).w, g, input, k)
  {
    if keys != [] {
      var wl1 := input.work[keys[0]];
      var t := TurnSpec(w, input, wl1, active);
      TurnKeeps(w, g, input, wl1, active);
      if keys[0] == WorkKey(k) {
        OthersAfter(input, keys, k);
        OthersElsewhere(t.w, g, input, keys[1..], t.active, k);
      } else {
        TurnTouches(w, g, input, wl1, active);
        ConfinedElsewhere(w, t.w, g, KeyAt(input, keys[0]), k);
        if t.stop.None? {
          LoopByOwnTurn(t.w, g, input, keys[1..], t.active, k);
          OthersBefore(w, t.w, OwnTurnIn(t.w, input, keys[1..], t.active, WorkKey(k)),
                       SlotLoopSpec(t.w, input, keys[1..], t.active).w, g, input, k);
        }
      }
    }
  }

  /** Where the turn of `k` starts in a policy pass, when the pass gets there. */
  ghost function OwnTurnOf(w: World, input: PolicyIn, k: WKey): (r: Option<(World, int)>)
    requires GoodOrder(input)
    ensures r.Some? ==> WorkKey(k) in input.work
  {
    SortKeeps(input);
    if Next(w) != Applied then None
    else OwnTurnIn(Rest(w), input, Sort(input.order), |SlotHolders(w.wins, input.policy)|, WorkKey(k))
  }

  lemma ClearedAfter(w: World, own: Option<(World, int)>, w1: World, w2: World, g: Ground, input: PolicyIn, k: WKey)
    requires GoodGround(g) && WorkKey(k) in input.work && ByOwnTurn(w, own, w1, g, input, k) && Cleared(w1, w2, input, k)
    ensures ByOwnTurn(w, own, w2, g, input, k)
  {
    var w0 := if own.None? then w else TurnSpec(own.value.0, input, input.work[WorkKey(k)], own.value.1).w;
    UntouchedThenCleared(w0, w1, w2, g, input, k);
  }

  /** A policy pass touches the window and the fields of `k` in its own turn only. */
  lemma PassByOwnTurn(w: World, g: Ground, input: PolicyIn, k: WKey)
    requires Inv(w.objs, w.wins, g) && GoodOrder(input) && FitsPass(g, input) && SlotCap.Filed(input)
    requires WorkKey(k) in input.work
    ensures ByOwnTurn(w, OwnTurnOf(w, input, k), PolicyPassSpec(w, input).w, g, input, k)
  {
    PassCases(w, input);
    if Next(w) == Applied {
      SortKeeps(input);
      LoopByOwnTurn(Rest(w), g, input, Sort(input.order), |SlotHolders(w.wins, input.policy)|, k);
      PassClears(w, g, input, k);
      ClearedAfter(Rest(w), OwnTurnOf(w, input, k), PassLoop(Rest(w), input).w, PolicyPassSpec(w, input).w, g, input, k);
    }
  }

  /** Where a policy pass starts the apply of `k`, when it gets there. */
  ghost function PassStart(w: World, input: PolicyIn, k: WKey, p: ScalePlan): Option<World>
    requires GoodOrder(input)
  {
    var own := OwnTurnOf(w, input, k);
    if own.None? then None else TurnStart(own.value.0, input, input.work[WorkKey(k)], p)
  }

  /** The pass reports an error for workload `k` itself. */
  ghost predicate OwnTurnFails(w: World, input: PolicyIn, k: WKey)
    requires GoodOrder(input)
  {
    var own := OwnTurnOf(w, input, k);
    own.Some? && TurnSpec(own.value.0, input, input.work[WorkKey(k)], own.value.1).errors > 0
  }

  /** A policy pass whose apply for `k` is calm settles it again. */
  lemma PolicyPassAgain(w: World, g: Ground, input: PolicyIn, k: WKey, wl: Workload, p: ScalePlan, openedAt: int)
    requires Inv(w.objs, w.wins, g) && GoodOrder(input) && FitsPass(g, input) && SamePlan(input, k, wl, openedAt)
    requires Settled(End(w), g, k, wl, p) && w.wins[k].status.lastScale == Some(openedAt)
    requires Calm(PassStart(w, input, k, p), p)
    ensures var w1 := PolicyPassSpec(w, input).w;
            Settled(End(w1), g, k, wl, p) && Stable(End(w), End(w1), g, k)
  {
    PassByOwnTurn(w, g, input, k);
    var own, w1 := OwnTurnOf(w, input, k), PolicyPassSpec(w, input).w;
    if own.None? {
      UntouchedSettled(w, w1, g, k, wl, p);
    } else {
      var (w0, active) := own.value;
      var t := TurnSpec(w0, input, input.work[WorkKey(k)], active);
      UntouchedSettled(w, w0, g, k, wl, p);
      OwnTurnAgain(w0, g, input, input.work[WorkKey(k)], active, k, p);
      UntouchedSettled(t.w, w1, g, k, wl, p);
      StableChain(End(w), End(w0), End(t.w), g, k);
      StableChain(End(w), End(t.w), End(w1), g, k);
    }
  }

  /** A policy pass moves a field of a settled workload exactly when the apply of the
      workload's own turn undoes it. */
  lemma PolicyPassMovesIff(w: World, g: Ground, input: PolicyIn, k: WKey, wl: Workload, p: ScalePlan, openedAt: int, l: Loc)
    requires Inv(w.objs, w.wins, g) && GoodOrder(input) && FitsPass(g, input) && SamePlan(input, k, wl, openedAt)
    requires Settled(End(w), g, k, wl, p) && w.wins[k].status.lastScale == Some(openedAt)
    requires l in g.cat && g.cat[l].owner == k
    ensures MovesIffUndone(w.objs, PolicyPassSpec(w, input).w.objs, g, PassStart(w, input, k, p), p, l)
  {
    PassByOwnTurn(w, g, input, k);
    var own := OwnTurnOf(w, input, k);
    if own.Some? {
      var (w0, active) := own.value;
      UntouchedSettled(w, w0, g, k, wl, p);
      OwnTurnMoves(w0, g, input, input.work[WorkKey(k)], active, k, p, l);
    }
  }

  /** It is calm if the own turn reports no error, and if the plan has no stamps. */
  lemma CalmPass(w: World, g: Ground, input: PolicyIn, k: WKey, wl: Workload, p: ScalePlan, openedAt: int)
    requires Inv(w.objs, w.wins, g) && GoodOrder(input) && FitsPass(g, input) && SamePlan(input, k, wl, openedAt)
    requires Settled(End(w), g, k, wl, p) && w.wins[k].status.lastScale == Some(openedAt)
    requires NoStamps(p) || !OwnTurnFails(w, input, k)
    ensures Calm(PassStart(w, input, k, p), p)
  {
    PassByOwnTurn(w, g, input, k);
    var own := OwnTurnOf(w, input, k);
    if own.Some? {
      UntouchedSettled(w, own.value.0, g, k, wl, p);
      OwnTurnCalm(own.value.0, g, input, input.work[WorkKey(k)], own.value.1, k, p);
    }
  }

  lemma OtherPolicyPass(w: World, g: Ground, input: PolicyIn, k: WKey, wl: Workload, p: ScalePlan)
    requires Inv(w.objs, w.wins, g) && GoodOrder(input) && FitsPass(g, input) && input.policy != k.policy
    requires Settled(End(w), g, k, wl, p)
    ensures var w1 := PolicyPassSpec(w, input).w;
            Settled(End(w1), g, k, wl, p) && Stable(End(w), End(w1), g, k)
  {
    PolicyPassSpares(w, g, input, k);
    StaysUp(w.objs, PolicyPassSpec(w, input).w.objs, g, k, p);
  }

  /* ---- a window pass ---- */

  /** The window pass still sees a pod at risk, the policy and the target, within the deadline. */
  predicate StillAtRisk(input: WinIn, openedAt: int) {
    && !input.policyGone && !input.targetGone && LiveAtRisk(input.pods, input.vulnerable) > 0
    && !(input.maxWindow > 0 && input.now >= openedAt + input.maxWindow)
  }

  ghost predicate Stands(w: World, k: WKey, win: Window) {
    k in w.wins && Standing(w.wins[k]) && w.wins[k].spec.actions == win.spec.actions
    && w.wins[k].status.lastScale == win.status.lastScale
  }

  lemma AbortStands(w: World, k: WKey, win: Window, input: WinIn)
    requires Stored(w, k, win) && Standing(win)
    ensures var (w1, err) := AbortCooldownSpec(w, k, win, input);
            Stands(w1, k, win) && (err.None? ==> Stored(w1, k, win.(spec := win.spec.(until := None))))
  {
    if win.spec.until.Some? {
      var win1 := win.(spec := win.spec.(until := None));
      StampCooldownKeepsInts(PatchWinSpec(w, k, win1).0, input.stampUntil, win.spec.actions, k.ns, "");
    }
  }

  lemma WriteStands(w: World, k: WKey, win: Window, input: WinIn, msg: Msg)
    requires Stored(w, k, win) && Standing(win)
    ensures Stands(WriteStatusSpec(w, k, win, input, Open, msg).0, k, win)
  {
  }

  lemma StayOpenStands(w: World, k: WKey, win: Window, input: WinIn, dec: Decision)
    requires Stored(w, k, win) && Standing(win) && dec.phase == Open && dec.abort
    ensures Stands(StayOpenSpec(w, k, win, input, dec).w, k, win)
  {
    AbortStands(w, k, win, input);
    var (w1, aerr) := AbortCooldownSpec(w, k, win, input);
    if aerr.None? { WriteStands(w1, k, win.(spec := win.spec.(until := None)), input, dec.message); }
  }

  lemma AtRiskPass(w: World, g: Ground, k: WKey, input: WinIn, wl: Workload, p: ScalePlan, openedAt: int)
    requires Inv(w.objs, w.wins, g) && Settled(End(w), g, k, wl, p) && w.wins[k].status.lastScale == Some(openedAt)
    requires StillAtRisk(input, openedAt)
    ensures var w1 := WindowPassSpec(w, k, input).w;
            Settled(End(w1), g, k, wl, p) && Stable(End(w), End(w1), g, k)
  {
    var win, w3 := w.wins[k], Rest(Rest(Rest(w)));
    assert !MaxWindowExceeded(input.maxWindow, win, input.now);
    assert Decide(win, input, false).step == StayOpenVulnerable;
    AtRiskLive(w3, g, k, win, input);
    AtRiskUnfolds(w, k, win, input);
    var w1 := WindowPassSpec(w, k, input).w;
    if w1.objs != w.objs || w1.wins != w.wins { StaysUp(w.objs, w1.objs, g, k, p); }
  }

  lemma AtRiskUnfolds(w: World, k: WKey, win: Window, input: WinIn)
    requires Stored(w, k, win) && Standing(win) && !input.policyGone && !input.targetGone
    ensures var w1 := WindowPassSpec(w, k, input).w;
            (w1.objs == w.objs && w1.wins == w.wins)
            || w1 == LivePassSpec(Rest(Rest(Rest(w))), k, win, input).w
  {
  }

  lemma AtRiskLive(w: World, g: Ground, k: WKey, win: Window, input: WinIn)
    requires Inv(w.objs, w.wins, g) && Stored(w, k, win) && Standing(win)
    requires !MaxWindowExceeded(input.maxWindow, win, input.now) && LiveAtRisk(input.pods, input.vulnerable) > 0
    ensures var w1 := LivePassSpec(w, k, win, input).w;
            SameFields(w, w1) && Stands(w1, k, win)
  {
    LivePassLowers(w, g, k, win, input);
    StayOpenStands(Rest(w), k, win, input, Decide(win, input, false));
  }

  /* ---- how a workload settles ---- */

  lemma ApplySettles(w: World, p: ScalePlan)
    requires Shared(p.steps, p.desired) && ApplySpec(w, p.steps).err.None?
    ensures AllUp(ApplySpec(w, p.steps).w.objs, p.steps)
  {
    ForwardResult(w, p.steps, p.desired);
    var objs1 := ApplySpec(w, p.steps).w.objs;
    forall s | s in p.steps ensures !Below(objs1, s) {
      assert Val(objs1, LocOf(s.target)) == RaisedVal(w.objs, p.steps, p.desired, LocOf(s.target));
    }
  }

  /** The record is there or new, and neither held nor on its way out. */
  ghost predicate Openable(w: World, k: WKey, maxWindow: int, now: int) {
    k in w.wins ==> w.wins[k].meta.finalizer && !w.wins[k].meta.deleting && !HoldMaxWindow(maxWindow, w.wins[k], now)
  }

  lemma RecordSettles(w: World, k: WKey, found: Result<Window>, wl: Workload, p: ScalePlan, now: int)
    requires FoundIs(w, k, found) && p.steps != [] && (k in w.wins ==> w.wins[k].meta.finalizer && !w.wins[k].meta.deleting)
    ensures var existing := if found.Success? then found.value.spec.actions else [];
            var status := if found.Success? then found.value.status else FRESH_STATUS;
            var (w1, err) := RecordSpec(w, k, found, OpenSpec(p, wl, existing), now);
            err.None? ==> k in w1.wins && w1.wins[k].status == status && Leads(p, w1.wins[k].spec.actions)
                          && w1.wins[k].meta.finalizer && !w1.wins[k].meta.deleting && !w1.wins[k].meta.deferred
  {
    RefreshLeads(p, if found.Success? then found.value.spec.actions else []);
  }

  /** The opening is reported: the window stands, open since its first report. */
  lemma ReportSettles(w: World, k: WKey, before: Status, now: int, msg: Msg, maxWindow: int)
    requires k in w.wins && w.wins[k].status == before && !before.forcedCool
    requires w.wins[k].meta.finalizer && !w.wins[k].meta.deleting && !w.wins[k].meta.deferred
    requires before.lastScale.Some? ==> !(maxWindow > 0 && now >= before.lastScale.value + maxWindow)
    ensures var (w1, err) := SetStatusSpec(w, k, before, OpenedStatus(before, now, msg, None));
            err.None? ==> w1.objs == w.objs && k in w1.wins && Standing(w1.wins[k]) && w1.wins[k].spec == w.wins[k].spec
                          && !MaxWindowExceeded(maxWindow, w1.wins[k], now)
  {
  }

  lemma RaiseSettles(w: World, g: Ground, k: WKey, wl: Workload, p: ScalePlan, before: Status, maxWindow: int, now: int)
    requires GoodGround(g) && GoodPlan(g, k, p) && PlanOf(p, wl.plan) && DistinctKeys(wl.plan.resolved.value)
    requires k in w.wins && w.wins[k].status == before && !before.forcedCool && Leads(p, w.wins[k].spec.actions)
    requires w.wins[k].meta.finalizer && !w.wins[k].meta.deleting && !w.wins[k].meta.deferred
    requires before.lastScale.Some? ==> !(maxWindow > 0 && now >= before.lastScale.value + maxWindow)
    ensures var a := ApplySpec(w, p.steps);
            var (w1, err) := SetStatusSpec(a.w, k, before, OpenedStatus(before, now, OpenMsg(p, a.err), a.err));
            a.err.None? && err.None? ==> Settled(End(w1), g, k, wl, p) && !MaxWindowExceeded(maxWindow, w1.wins[k], now)
  {
    ApplyWins(w, p.steps);
    var a := ApplySpec(w, p.steps);
    if a.err.None? {
      ApplySettles(w, p);
      ReportSettles(a.w, k, before, now, OpenMsg(p, a.err), maxWindow);
    }
  }

  /** A successful opening is a record, an apply and a report that all succeed. */
  lemma OpenUnfolds(w: World, k: WKey, found: Result<Window>, wl: Workload, p: ScalePlan, now: int)
    returns (w1: World, status: Status)
    requires OpenWindowSpec(w, k, found, wl, p, now).1.None?
    ensures status == if found.Success? then found.value.status else FRESH_STATUS
    ensures (w1, None) == RecordSpec(w, k, found, OpenSpec(p, wl, if found.Success? then found.value.spec.actions else []), now)
    ensures var a := ApplySpec(w1, p.steps);
            a.err.None? && OpenWindowSpec(w, k, found, wl, p, now)
                             == SetStatusSpec(a.w, k, status, OpenedStatus(status, now, OpenMsg(p, a.err), a.err))
  {
    status := if found.Success? then found.value.status else FRESH_STATUS;
    w1 := RecordSpec(w, k, found, OpenSpec(p, wl, if found.Success? then found.value.spec.actions else []), now).0;
  }

  lemma OpenSettles(w: World, g: Ground, k: WKey, found: Result<Window>, wl: Workload, p: ScalePlan, maxWindow: int, now: int, out: World)
    requires GoodGround(g) && GoodPlan(g, k, p) && PlanOf(p, wl.plan) && DistinctKeys(wl.plan.resolved.value)
    requires FoundIs(w, k, found) && Openable(w, k, maxWindow, now)
    requires (out, None) == OpenWindowSpec(w, k, found, wl, p, now)
    ensures Settled(End(out), g, k, wl, p) && !MaxWindowExceeded(maxWindow, out.wins[k], now)
  {
    var w1, status := OpenUnfolds(w, k, found, wl, p, now);
    RecordSettles(w, k, found, wl, p, now);
    RaiseSettles(w1, g, k, wl, p, status, maxWindow, now);
  }

  /** A successful ensureWindow settles the workload, on the plan it just made. */
  lemma EnsureSettles(w: World, g: Ground, k: WKey, wl: Workload, maxWindow: int, now: int) returns (p: ScalePlan)
    requires Inv(w.objs, w.wins, g) && FitsWork(g, k, wl.plan) && Openable(w, k, maxWindow, now)
    requires wl.plan.resolved.Some? && DistinctKeys(wl.plan.resolved.value)
    requires EnsureWindowSpec(w, k, wl, maxWindow, now).1.None?
    ensures var w1 := EnsureWindowSpec(w, k, wl, maxWindow, now).0;
            Settled(End(w1), g, k, wl, p) && !MaxWindowExceeded(maxWindow, w1.wins[k], now)
  {
    var (w1, found) := GetWinSpec(w, k);
    var existing := if found.Success? then found.value.spec.actions else [];
    var sticky := if found.Success? then found.value.spec.baseline else 0;
    PlanKeeps(w1, g, k, wl.plan, existing, sticky);
    BuildGivesPlan(w1, wl.plan, existing, 0, ScalePlan([], 0, 0));
    assert wl.plan.resolved.value[0..] == wl.plan.resolved.value;
    var (w2, plan) := BuildPlanSpec(w1, wl.plan, existing, sticky);
    p := plan.value;
    OpenSettles(w2, g, k, found, wl, p, maxWindow, now, EnsureWindowSpec(w, k, wl, maxWindow, now).0);
  }

  /* ---- all runs ---- */

  /** The snapshot is frozen for workload `k`: the same plan, a pod at risk, the policy and
      the target there, time within the deadline, nothing deleted. */
  ghost predicate Frozen(e: Event, k: WKey, wl: Workload, openedAt: int) {
    match e
    case PolicyPass(pin, _) => pin.policy == k.policy ==> SamePlan(pin, k, wl, openedAt)
    case WindowPass(j, win, _) => j == k ==> StillAtRisk(win, openedAt)
    case DeleteWindow(j) => j != k
    case ObjectGone(_) => false
  }

  /** Where the event starts an apply for `k`, when it does. */
  ghost function ApplyStart(s: State, e: Event, k: WKey, p: ScalePlan): Option<World>
    requires Ordered(e)
  {
    if e.PolicyPass? && e.pin.policy == k.policy then PassStart(Start(s, e.tape), e.pin, k, p) else None
  }

  /** None of the applies for `k` along the run undoes a field. */
  ghost predicate CalmRun(s: State, events: seq<Event>, k: WKey, p: ScalePlan)
    requires forall e :: e in events ==> Ordered(e)
    decreases |events|
  {
    events != [] ==>
      assert events[0] in events;
      Calm(ApplyStart(s, events[0], k, p), p) && CalmRun(Happen(s, events[0]), events[1..], k, p)
  }

  lemma OtherWindowPass(w: World, g: Ground, j: WKey, input: WinIn, k: WKey, wl: Workload, p: ScalePlan)
    requires Inv(w.objs, w.wins, g) && Settled(End(w), g, k, wl, p) && j != k
    ensures var w1 := WindowPassSpec(w, j, input).w;
            Settled(End(w1), g, k, wl, p) && Stable(End(w), End(w1), g, k)
  {
    var w1 := WindowPassSpec(w, j, input).w;
    OtherWindow(w, j, k, input);
    WindowPassLowers(w, g, j, input);
    forall l | l in g.cat && g.cat[l].owner == k ensures Val(w1.objs, l) == Val(w.objs, l) {}
    StaysUp(w.objs, w1.objs, g, k, p);
  }

  lemma PolicyEventAgain(s: State, g: Ground, e: Event, k: WKey, wl: Workload, p: ScalePlan, openedAt: int)
    requires Sound(s, g) && Bound(g, e) && Frozen(e, k, wl, openedAt) && Calm(ApplyStart(s, e, k, p), p) && e.PolicyPass?
    requires Settled(s, g, k, wl, p) && s.wins[k].status.lastScale == Some(openedAt)
    ensures Settled(Happen(s, e), g, k, wl, p) && Stable(s, Happen(s, e), g, k)
  {
    if e.pin.policy == k.policy {
      PolicyPassAgain(Start(s, e.tape), g, e.pin, k, wl, p, openedAt);
    } else {
      OtherPolicyPass(Start(s, e.tape), g, e.pin, k, wl, p);
    }
  }

  lemma WindowEventAgain(s: State, g: Ground, e: Event, k: WKey, wl: Workload, p: ScalePlan, openedAt: int)
    requires Sound(s, g) && Frozen(e, k, wl, openedAt) && e.WindowPass?
    requires Settled(s, g, k, wl, p) && s.wins[k].status.lastScale == Some(openedAt)
    ensures Settled(Happen(s, e), g, k, wl, p) && Stable(s, Happen(s, e), g, k)
  {
    if e.key == k {
      AtRiskPass(Start(s, e.tape), g, k, e.win, wl, p, openedAt);
    } else {
      OtherWindowPass(Start(s, e.tape), g, e.key, e.win, k, wl, p);
    }
  }

  lemma DeleteEventAgain(s: State, g: Ground, e: Event, k: WKey, wl: Workload, p: ScalePlan)
    requires GoodGround(g) && e.DeleteWindow? && e.key != k && Settled(s, g, k, wl, p)
    ensures Settled(Happen(s, e), g, k, wl, p) && Stable(s, Happen(s, e), g, k)
  {
    DeletedElsewhere(Start(s, []), e.key, k);
  }

  lemma DeletedElsewhere(w: World, j: WKey, k: WKey)
    requires j != k && k in w.wins
    ensures var w1 := Deleted(w, j);
            w1.objs == w.objs && k in w1.wins && w1.wins[k] == w.wins[k]
  {
  }

  lemma StepAgain(s: State, g: Ground, e: Event, k: WKey, wl: Workload, p: ScalePlan, openedAt: int)
    requires Sound(s, g) && Bound(g, e) && Frozen(e, k, wl, openedAt) && Calm(ApplyStart(s, e, k, p), p)
    requires Settled(s, g, k, wl, p) && s.wins[k].status.lastScale == Some(openedAt)
    ensures Settled(Happen(s, e), g, k, wl, p) && Stable(s, Happen(s, e), g, k)
  {
    if e.PolicyPass? {
      PolicyEventAgain(s, g, e, k, wl, p, openedAt);
    } else if e.WindowPass? {
      WindowEventAgain(s, g, e, k, wl, p, openedAt);
    } else {
      DeleteEventAgain(s, g, e, k, wl, p);
    }
  }

  /** No flapping: on a frozen snapshot, passes of both controllers in any order, over this
      workload and any other, leave every field of a settled workload as it is. */
  lemma {:induction false} NoFlapping(s: State, g: Ground, events: seq<Event>, k: WKey, wl: Workload, p: ScalePlan, openedAt: int)
    requires Sound(s, g) && (forall e :: e in events ==> Bound(g, e) && Frozen(e, k, wl, openedAt)) && Careful(s, g, events)
    requires CalmRun(s, events, k, p)
    requires Settled(s, g, k, wl, p) && s.wins[k].status.lastScale == Some(openedAt)
    decreases |events|
    ensures Settled(Run(s, events), g, k, wl, p) && Stable(s, Run(s, events), g, k)
  {
    if events != [] {
      assert events[0] in events;
      var s1 := Happen(s, events[0]);
      StepAgain(s, g, events[0], k, wl, p, openedAt);
      StepKeeps(s, g, events[0]);
      NoFlapping(s1, g, events[1..], k, wl, p, openedAt);
      StableChain(s, s1, Run(s1, events[1..]), g, k);
    }
  }

  /* ---- exactly when fields move ---- */

  /** Every field of `k` reads the same after each event of the run. */
  ghost predicate Unmoved(s: State, events: seq<Event>, g: Ground, k: WKey)
    requires GoodGround(g) && forall e :: e in events ==> Ordered(e)
    decreases |events|
  {
    events != [] ==>
      assert events[0] in events;
      var s1 := Happen(s, events[0]);
      (forall l :: l in g.cat && g.cat[l].owner == k ==> Val(s1.objs, l) == Val(s.objs, l)) && Unmoved(s1, events[1..], g, k)
  }

  /** Compensations for `k` along the run report no error. */
  ghost predicate CompensatedRun(s: State, events: seq<Event>, k: WKey, p: ScalePlan)
    requires forall e :: e in events ==> Ordered(e)
    decreases |events|
  {
    events != [] ==>
      assert events[0] in events;
      var start := ApplyStart(s, events[0], k, p);
      (start.Some? ==> Compensated(start.value, p)) && CompensatedRun(Happen(s, events[0]), events[1..], k, p)
  }

  lemma UncalmStep(s: State, g: Ground, e: Event, k: WKey, wl: Workload, p: ScalePlan, openedAt: int) returns (l: Loc)
    requires Sound(s, g) && Bound(g, e) && Frozen(e, k, wl, openedAt) && !Calm(ApplyStart(s, e, k, p), p)
    requires Compensated(ApplyStart(s, e, k, p).value, p)
    requires Settled(s, g, k, wl, p) && s.wins[k].status.lastScale == Some(openedAt)
    ensures l in g.cat && g.cat[l].owner == k && Val(Happen(s, e).objs, l) != Val(s.objs, l)
  {
    var start := ApplyStart(s, e, k, p);
    l :| Undone(start.value, p, l);
    UndoneIsOwn(start.value, g, k, p, l);
    PolicyPassMovesIff(Start(s, e.tape), g, e.pin, k, wl, p, openedAt, l);
  }

  /** Exactly when a frozen run leaves a settled workload alone: none of the workload's own
      refreshes fails and compensates a field that stands above its baseline. */
  lemma {:induction false} NoFlappingIff(s: State, g: Ground, events: seq<Event>, k: WKey, wl: Workload, p: ScalePlan, openedAt: int)
    requires Sound(s, g) && (forall e :: e in events ==> Bound(g, e) && Frozen(e, k, wl, openedAt)) && Careful(s, g, events)
    requires CompensatedRun(s, events, k, p)
    requires Settled(s, g, k, wl, p) && s.wins[k].status.lastScale == Some(openedAt)
    decreases |events|
    ensures Unmoved(s, events, g, k) <==> CalmRun(s, events, k, p)
  {
    if events != [] {
      var e := events[0];
      assert e in events;
      if Calm(ApplyStart(s, e, k, p), p) {
        StepAgain(s, g, e, k, wl, p, openedAt);
        StepKeeps(s, g, e);
        NoFlappingIff(Happen(s, e), g, events[1..], k, wl, p, openedAt);
      } else {
        var l := UncalmStep(s, g, e, k, wl, p, openedAt);
      }
    }
  }

  /* ---- one pass, then any run ---- */

  /** The pass plans for `k`, with a catalog whose action keys differ, and finds its window
      absent or neither held nor on its way out. */
  ghost predicate Serves(w: World, input: PolicyIn, k: WKey) {
    && SlotCap.Filed(input) && WorkKey(k) in input.work && KeyAt(input, WorkKey(k)) == k
    && input.work[WorkKey(k)].plan.resolved.Some? && DistinctKeys(input.work[WorkKey(k)].plan.resolved.value)
    && Openable(w, k, input.maxWindow, input.now)
  }

  /** The pass reaches the turn of `k`, has a slot for it, and reports no error for it. */
  ghost predicate OwnTurnSucceeds(w: World, input: PolicyIn, k: WKey)
    requires GoodOrder(input)
  {
    var own := OwnTurnOf(w, input, k);
    own.Some? &&
      var t := TurnSpec(own.value.0, input, input.work[WorkKey(k)], own.value.1);
      t.stop.None? && t.deferred == 0 && t.errors == 0
  }

  /** A turn that succeeds settles its workload, whether it creates, promotes or refreshes
      the window. */
  lemma OwnTurnSettles(w: World, g: Ground, input: PolicyIn, wl: Workload, active: int, k: WKey) returns (p: ScalePlan)
    requires Inv(w.objs, w.wins, g) && k == WindowKey(input.policy, wl) && FitsWork(g, k, wl.plan)
    requires Openable(w, k, input.maxWindow, input.now) && wl.plan.resolved.Some? && DistinctKeys(wl.plan.resolved.value)
    requires var t := TurnSpec(w, input, wl, active); t.stop.None? && t.deferred == 0 && t.errors == 0
    ensures var t := TurnSpec(w, input, wl, active);
            Settled(End(t.w), g, k, wl, p) && !MaxWindowExceeded(input.maxWindow, t.w.wins[k], input.now)
  {
    TurnCases(w, input, wl, active);
    p := EnsureSettles(Rest(w), g, k, wl, input.maxWindow, input.now);
  }

  /** A policy pass that succeeds for `k`, whatever it reports for others, settles it. */
  lemma PolicyPassSettles(w: World, g: Ground, input: PolicyIn, k: WKey) returns (p: ScalePlan)
    requires Inv(w.objs, w.wins, g) && GoodOrder(input) && FitsPass(g, input) && Serves(w, input, k)
    requires OwnTurnSucceeds(w, input, k)
    ensures var w1 := PolicyPassSpec(w, input).w;
            Settled(End(w1), g, k, input.work[WorkKey(k)], p) && !MaxWindowExceeded(input.maxWindow, w1.wins[k], input.now)
  {
    PassByOwnTurn(w, g, input, k);
    var wl := input.work[WorkKey(k)];
    var (w0, active) := OwnTurnOf(w, input, k).value;
    p := OwnTurnSettles(w0, g, input, wl, active, k);
    UntouchedSettled(TurnSpec(w0, input, wl, active).w, PolicyPassSpec(w, input).w, g, k, wl, p);
  }

  /** The fixpoint: one policy pass that succeeds for a workload, be it the first, settles it;
      from then on, on a frozen snapshot, no pass in any order changes one of its fields, though
      the Deployment now shows the raised replicas. (`p` is the plan of that pass.) */
  lemma OnePassIsEnough(s: State, g: Ground, first: Event, events: seq<Event>, k: WKey) returns (p: ScalePlan)
    requires Sound(s, g) && Bound(g, first) && first.PolicyPass? && Serves(Start(s, first.tape), first.pin, k)
    requires OwnTurnSucceeds(Start(s, first.tape), first.pin, k)
    requires forall e :: e in events ==> Bound(g, e)
    ensures var s1 := Happen(s, first);
            && Settled(s1, g, k, first.pin.work[WorkKey(k)], p)
            && (Careful(s1, g, events) && CalmRun(s1, events, k, p)
                && (forall e :: e in events ==> Frozen(e, k, first.pin.work[WorkKey(k)], s1.wins[k].status.lastScale.value))
                ==> Stable(s1, Run(s1, events), g, k))
  {
    p := PolicyPassSettles(Start(s, first.tape), g, first.pin, k);
    StepKeeps(s, g, first);
    var s1 := Happen(s, first);
    var wl, openedAt := first.pin.work[WorkKey(k)], s1.wins[k].status.lastScale.value;
    if Careful(s1, g, events) && CalmRun(s1, events, k, p) && (forall e :: e in events ==> Frozen(e, k, wl, openedAt)) {
      NoFlapping(s1, g, events, k, wl, p, openedAt);
    }
  }

  /* ---- from the snapshot of pods and nodes ---- */

  /** The event happens on the snapshot: policy passes plan for the workloads with pods on the
      vulnerable nodes, and for `k` as `wl` does; window passes over `k` see its pods. */
  ghost predicate OnSnapshot(e: Event, snap: Collect.Snapshot, nodes: seq<string>, k: WKey, wl: Workload, openedAt: int) {
    match e
    case PolicyPass(pin, _) => pin.policy == k.policy ==>
      && (forall key :: key in pin.work <==> Count(snap.pods, Collect.HitsOn(snap, key, ToSet(nodes))) > 0)
      && SlotCap.Filed(pin) && (WorkKey(k) in pin.work ==> pin.work[WorkKey(k)].ns == k.ns && pin.work[WorkKey(k)].name == k.name)
      && (WorkKey(k) in pin.work ==> Alike(pin.work[WorkKey(k)].plan, wl.plan))
      && !(pin.maxWindow > 0 && pin.now >= openedAt + pin.maxWindow)
    case WindowPass(j, win, _) => j == k ==>
      && win.vulnerable == ToSet(nodes) && Collect.Selected(snap, WorkKey(k), win.pods)
      && !win.policyGone && !win.targetGone && !(win.maxWindow > 0 && win.now >= openedAt + win.maxWindow)
    case DeleteWindow(j) => j != k
    case ObjectGone(_) => false
  }

  /** A workload the snapshot counts is frozen by every event on the snapshot. */
  lemma CountedIsFrozen(e: Event, snap: Collect.Snapshot, nodes: seq<string>, k: WKey, wl: Workload, openedAt: int)
    requires OnSnapshot(e, snap, nodes, k, wl, openedAt) && "" !in nodes
    requires Count(snap.pods, Collect.HitsOn(snap, WorkKey(k), ToSet(nodes))) > 0
    ensures Frozen(e, k, wl, openedAt)
  {
    if e.WindowPass? && e.key == k { Collect.CountedIsLive(snap, nodes, WorkKey(k), e.win.pods); }
  }

  /** The fixpoint on a snapshot: for a workload that collectWorkloads counts, whose pods match
      its selector, one successful policy pass and then any passes on the same snapshot. */
  lemma SnapshotFixpoint(s: State, g: Ground, first: Event, events: seq<Event>, k: WKey, snap: Collect.Snapshot, nodes: seq<string>)
    returns (p: ScalePlan)
    requires Sound(s, g) && Bound(g, first) && first.PolicyPass? && Serves(Start(s, first.tape), first.pin, k)
    requires OwnTurnSucceeds(Start(s, first.tape), first.pin, k)
    requires "" !in nodes && Count(snap.pods, Collect.HitsOn(snap, WorkKey(k), ToSet(nodes))) > 0
    requires (forall e :: e in events ==> Bound(g, e)) && Careful(Happen(s, first), g, events)
    ensures var s1 := Happen(s, first);
            && Settled(s1, g, k, first.pin.work[WorkKey(k)], p)
            && (CalmRun(s1, events, k, p)
                && (forall e :: e in events ==>
                      OnSnapshot(e, snap, nodes, k, first.pin.work[WorkKey(k)], s1.wins[k].status.lastScale.value))
                ==> Stable(s1, Run(s1, events), g, k))
  {
    p := OnePassIsEnough(s, g, first, events, k);
    var s1, wl := Happen(s, first), first.pin.work[WorkKey(k)];
    var openedAt := s1.wins[k].status.lastScale.value;
    if forall e :: e in events ==> OnSnapshot(e, snap, nodes, k, wl, openedAt) {
      forall e | e in events ensures Frozen(e, k, wl, openedAt) { CountedIsFrozen(e, snap, nodes, k, wl, openedAt); }
    }
  }

  /* ---- a workload no longer at risk ---- */

  /** No pass of the run finds the workload at risk. */
  predicate Uncounted(e: Event, k: WKey) {
    e.PolicyPass? ==> forall key :: key in e.pin.work ==> KeyAt(e.pin, key) != k
  }

  lemma QuietStays(s: State, s1: State, g: Ground, k: WKey)
    requires GoodGround(g) && Quiet(s.objs, g, k)
    requires forall l :: l in g.cat && g.cat[l].owner == k && !g.cat[l].skip ==> NotRaised(s, s1, g, l)
    ensures Quiet(s1.objs, g, k)
  {
    forall l | l in g.cat && g.cat[l].owner == k && !g.cat[l].skip ensures !Raised(s1.objs, g, l) {
      assert NotRaised(s, s1, g, l) && !Raised(s.objs, g, l);
    }
  }

  lemma UncountedStep(s: State, g: Ground, e: Event, k: WKey)
    requires Sound(s, g) && Bound(g, e) && Uncounted(e, k) && Quiet(s.objs, g, k)
    requires e.DeleteWindow? ==> Harmless(s, g, e.key)
    ensures Quiet(Happen(s, e).objs, g, k)
  {
    var s1 := Happen(s, e);
    match e {
      case PolicyPass(pin, tape) => UncountedPass(Start(s, tape), g, pin, k);
      case WindowPass(j, win, tape) => WindowPassLowers(Start(s, tape), g, j, win);
      case DeleteWindow(j) =>
      case ObjectGone(o) => assert forall l :: Val(s1.objs, l) == Val(s.objs, l) || Val(s1.objs, l) == None;
    }
    forall l | l in g.cat && g.cat[l].owner == k && !g.cat[l].skip ensures NotRaised(s, s1, g, l) {}
    QuietStays(s, s1, g, k);
  }

  /** Once a workload that no pass finds at risk has been restored, it stays restored. */
  lemma {:induction false} UncountedStaysRestored(s: State, g: Ground, events: seq<Event>, k: WKey)
    requires Sound(s, g) && (forall e :: e in events ==> Bound(g, e) && Uncounted(e, k)) && Careful(s, g, events)
    requires Restored(s.objs, g, k)
    decreases |events|
    ensures Restored(Run(s, events).objs, g, k)
  {
    if events != [] {
      assert events[0] in events;
      var s1 := Happen(s, events[0]);
      QuietIsRestored(s.objs, s.wins, g, k);
      UncountedStep(s, g, events[0], k);
      StepKeeps(s, g, events[0]);
      QuietIsRestored(s1.objs, s1.wins, g, k);
      UncountedStaysRestored(s1, g, events[1..], k);
    }
  }
}
