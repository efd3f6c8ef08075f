/** A policy pass keeps the write-ahead invariant, wherever it stops. */
module PolicyLedger {
  import opened Types
  import opened Strings
  import opened Store
  import opened Plan
  import opened PlanEffects
  import opened PlanTheorems
  import opened Clock
  import opened PolicyController
  import opened Ledger

  /** A catalog step of workload `k` is one of its bound fields. */
  ghost predicate FitsStep(g: Ground, k: WKey, s: ResolvedStep)
    requires GoodGround(g)
  {
    var l := LocOf(s.target);
    && l in g.cat && s.target.obj.ns != ""
    && g.cat[l] == Entry(k, ActionKey(s.key, s.target.obj, s.target.fieldPath), DefaultOf(s.target), s.skip)
  }

  /** Every plan of the workload has at least one step, all of them bound fields. The list
      of steps may differ from pass to pass. */
  ghost predicate FitsWork(g: Ground, k: WKey, plan: PlanIn)
    requires GoodGround(g)
  {
    plan.resolved.Some? ==> plan.resolved.value != [] && forall s :: s in plan.resolved.value ==> FitsStep(g, k, s)
  }

  ghost predicate FitsPlanned(g: Ground, k: WKey, s: Step)
    requires GoodGround(g)
  {
    Fits(g, k, ToAction(s)) && g.cat[LocOf(s.target)].dflt == DefaultOf(s.target)
  }

  ghost predicate GoodPlan(g: Ground, k: WKey, p: ScalePlan)
    requires GoodGround(g)
  {
    Shared(p.steps, p.desired) && forall s :: s in p.steps ==> FitsPlanned(g, k, s)
  }

  /** The actions the pass plans with are the stored ones. */
  ghost predicate Known(w: World, k: WKey, existing: seq<Action>) {
    existing == if k in w.wins then w.wins[k].spec.actions else []
  }

  /* ---- planning ---- */

  /** A baseline is the original value: it is a recorded one, or it is read while the field
      is not raised. */
  lemma BaselineIsOriginal(w: World, g: Ground, k: WKey, s: ResolvedStep, existing: seq<Action>)
    requires Inv(w.objs, w.wins, g) && Known(w, k, existing) && FitsStep(g, k, s)
    ensures var (w1, base) := BaselineSpec(w, s, existing);
            && w1.objs == w.objs && w1.wins == w.wins
            && (base.Success? && !s.skip ==> base.value == g.orig[LocOf(s.target)])
  {
    var l := LocOf(s.target);
    var found := FindAction(existing, s.key, s.target);
    if found.Some? {
      var a := found.value;
      assert Fits(g, k, a);
      assert ActionLoc(a) == l;
    } else if !s.skip && Peek(w.objs, s.target).Success? {
      forall a | a in existing ensures ActionLoc(a) != l {
        assert Fits(g, k, a);
      }
      assert Val(w.objs, l).Some? ==> Val(w.objs, l).value >= g.orig[l];
    }
  }

  lemma PlannedFits(g: Ground, k: WKey, input: PlanIn, s: ResolvedStep, baseline: int32, desired: int32)
    requires GoodGround(g) && FitsStep(g, k, s) && (!s.skip ==> baseline == g.orig[LocOf(s.target)])
    ensures FitsPlanned(g, k, MakeStep(input, s, baseline, desired))
  {
  }

  lemma {:induction false} BuildKeeps(w: World, g: Ground, k: WKey, input: PlanIn, existing: seq<Action>,
                                      todo: seq<ResolvedStep>, plan: ScalePlan)
    decreases |todo|
    requires Inv(w.objs, w.wins, g) && Known(w, k, existing) && GoodPlan(g, k, plan)
    requires forall s :: s in todo ==> FitsStep(g, k, s)
    ensures var (w1, r) := BuildFrom(w, input, existing, todo, plan);
            && w1.objs == w.objs && w1.wins == w.wins
            && (r.Success? ==> GoodPlan(g, k, r.value) && (todo != [] || plan.steps != [] ==> r.value.steps != []))
  {
    if todo != [] {
      var s := todo[0];
      assert s in todo;
      BaselineIsOriginal(w, g, k, s, existing);
      var (w1, base) := BaselineSpec(w, s, existing);
      if base.Success? {
        var p := if plan.steps == [] then ScalePlan([], base.value, Desired(input, base.value)) else plan;
        var step := MakeStep(input, s, base.value, p.desired);
        PlannedFits(g, k, input, s, base.value, p.desired);
        BuildKeeps(w1, g, k, input, existing, todo[1..], p.(steps := p.steps + [step]));
      }
    }
  }

  lemma PlanKeeps(w: World, g: Ground, k: WKey, input: PlanIn, existing: seq<Action>, sticky: int32)
    requires Inv(w.objs, w.wins, g) && Known(w, k, existing) && FitsWork(g, k, input)
    ensures var (w1, r) := BuildPlanSpec(w, input, existing, sticky);
            && w1.objs == w.objs && w1.wins == w.wins
            && (r.Success? ==> GoodPlan(g, k, r.value) && r.value.steps != [])
  {
    if input.resolved.Some? {
      BuildKeeps(w, g, k, input, existing, input.resolved.value, ScalePlan([], 0, 0));
    }
  }

  /* ---- recording ---- */

  lemma {:induction false} WithoutMembers(actions: seq<Action>, keys: set<string>, a: Action)
    ensures a in Without(actions, keys) <==> a in actions && KeyOf(a) !in keys
  {
    if actions != [] {
      WithoutMembers(actions[..|actions| - 1], keys, a);
      assert actions == actions[..|actions| - 1] + [actions[|actions| - 1]];
    }
  }

  /** mergeActions keeps a record for every field that had one, and every record fits. */
  lemma MergedKeeps(g: Ground, k: WKey, existing: seq<Action>, p: ScalePlan)
    requires GoodGround(g) && GoodPlan(g, k, p) && p.steps != []
    requires forall a :: a in existing ==> Fits(g, k, a)
    ensures var merged := PlanActions(p, existing);
            && (forall a :: a in merged ==> Fits(g, k, a))
            && (forall a :: a in existing ==> exists b :: b in merged && ActionLoc(b) == ActionLoc(a))
            && (forall s :: s in p.steps ==> exists b :: b in merged && ActionLoc(b) == LocOf(s.target))
  {
    var next := ToActions(p.steps);
    var merged := PlanActions(p, existing);
    forall a | a in next ensures Fits(g, k, a) {
      var i :| 0 <= i < |next| && next[i] == a;
      assert FitsPlanned(g, k, p.steps[i]);
    }
    forall a | a in merged ensures Fits(g, k, a) {
      WithoutMembers(existing, Keys(next), a);
    }
    forall a | a in existing ensures exists b :: b in merged && ActionLoc(b) == ActionLoc(a) {
      WithoutMembers(existing, Keys(next), a);
      if KeyOf(a) in Keys(next) {
        var b :| b in next && KeyOf(b) == KeyOf(a);
        assert Fits(g, k, a) && Fits(g, k, b);
        assert b in merged;
      } else {
        assert a in merged;
      }
    }
    forall s | s in p.steps ensures exists b :: b in merged && ActionLoc(b) == LocOf(s.target) {
      var i :| 0 <= i < |p.steps| && p.steps[i] == s;
      assert next[i] in merged && ActionLoc(next[i]) == LocOf(s.target);
    }
  }

  ghost predicate FoundIs(w: World, k: WKey, found: Result<Window>) {
    match found
    case Success(win) => k in w.wins && w.wins[k] == win
    case Failure(e) => k !in w.wins
  }

  /** The window after a successful record: it owes every planned field. */
  ghost predicate Recorded(w: World, k: WKey, p: ScalePlan, status: Status) {
    && k in w.wins && w.wins[k].status == status && status.phase != Closed && w.wins[k].spec.until.None?
    && forall s :: s in p.steps ==> exists b :: b in w.wins[k].spec.actions && ActionLoc(b) == LocOf(s.target)
  }

  /** Finalizers stay on, and only closed windows lack one. */
  ghost predicate Safe(w: World, w1: World) {
    && (Pinned(w.wins) ==> Pinned(w1.wins))
    && (forall k :: Finalized(w.wins, k) ==> Finalized(w1.wins, k))
  }

  lemma RefreshKeeps(w: World, g: Ground, k: WKey, win: Window, wl: Workload, p: ScalePlan)
    requires Inv(w.objs, w.wins, g) && GoodPlan(g, k, p) && p.steps != []
    requires k in w.wins && w.wins[k] == win && win.status.phase != Closed
    ensures var win1 := Window(win.meta.(deferred := false), OpenSpec(p, wl, win.spec.actions), win.status);
            var (w1, err) := PatchWinSpec(w, k, win1);
            && w1.objs == w.objs && Inv(w1.objs, w1.wins, g)
            && (err.None? ==> Recorded(w1, k, p, win.status))
            && Safe(w, w1)
  {
    MergedKeeps(g, k, win.spec.actions, p);
    var win1 := Window(win.meta.(deferred := false), OpenSpec(p, wl, win.spec.actions), win.status);
    forall l | l in g.cat && Owes(win, l) ensures Owes(win1, l) {
      var a :| a in win.spec.actions && ActionLoc(a) == l;
    }
    PutKeeps(w.objs, w.wins, g, k, win1);
  }

  lemma CreateKeeps(w: World, g: Ground, k: WKey, wl: Workload, p: ScalePlan, now: int)
    requires Inv(w.objs, w.wins, g) && GoodPlan(g, k, p) && p.steps != [] && k !in w.wins
    ensures var (w1, err) := CreateWinSpec(w, k, Window(NewMeta(false), OpenSpec(p, wl, []), FRESH_STATUS), now);
            && w1.objs == w.objs && Inv(w1.objs, w1.wins, g)
            && (err.None? ==> Recorded(w1, k, p, FRESH_STATUS))
            && Safe(w, w1)
  {
    MergedKeeps(g, k, [], p);
    QuietUnlessOwed(w.objs, w.wins, g, k);
    PutKeeps(w.objs, w.wins, g, k, Window(NewMeta(false).(created := Some(now)), OpenSpec(p, wl, []), FRESH_STATUS));
  }

  lemma RecordKeeps(w: World, g: Ground, k: WKey, found: Result<Window>, wl: Workload, p: ScalePlan, now: int)
    requires Inv(w.objs, w.wins, g) && GoodPlan(g, k, p) && p.steps != [] && FoundIs(w, k, found)
    requires found.Success? ==> found.value.status.phase != Closed
    ensures var existing := if found.Success? then found.value.spec.actions else [];
            var status := if found.Success? then found.value.status else FRESH_STATUS;
            var (w1, err) := RecordSpec(w, k, found, OpenSpec(p, wl, existing), now);
            && w1.objs == w.objs && Inv(w1.objs, w1.wins, g)
            && (err.None? ==> Recorded(w1, k, p, status))
            && Safe(w, w1)
  {
    if found.Success? {
      RefreshKeeps(w, g, k, found.value, wl, p);
    } else {
      CreateKeeps(w, g, k, wl, p, now);
    }
  }

  /* ---- raising ---- */

  /** A field the plan raises is owed, and its target is not below its original value. */
  lemma PlannedRaise(w: World, g: Ground, k: WKey, p: ScalePlan, status: Status, l: Loc)
    requires Inv(w.objs, w.wins, g) && GoodPlan(g, k, p) && Recorded(w, k, p, status) && NeedsRaise(w.objs, p.steps, l)
    ensures l in g.cat && p.desired >= g.orig[l] && g.cat[l].owner == k && Owes(w.wins[k], l)
  {
    var s :| s in p.steps && LocOf(s.target) == l && Below(w.objs, s);
    assert FitsPlanned(g, k, s);
    assert NotBelow(w.objs, g, l);
  }

  /** A field that stays or goes to the target keeps its bounds and is owed when raised. */
  lemma RaisedWithin(w: World, objs1: map<Obj, ObjState>, g: Ground, k: WKey, p: ScalePlan, status: Status, l: Loc)
    requires Inv(w.objs, w.wins, g) && GoodPlan(g, k, p) && Recorded(w, k, p, status) && l in g.cat && objs1.Keys == w.objs.Keys
    requires Val(objs1, l) == Val(w.objs, l) || (NeedsRaise(w.objs, p.steps, l) && Val(objs1, l) == Some(p.desired))
    ensures l.obj in objs1 ==> NotBelow(objs1, g, l)
    ensures Raised(objs1, g, l) ==> Raised(w.objs, g, l) || (g.cat[l].owner == k && Owes(w.wins[k], l))
  {
    if Val(objs1, l) != Val(w.objs, l) { PlannedRaise(w, g, k, p, status, l); }
    assert l.obj in w.objs ==> NotBelow(w.objs, g, l);
  }

  /** The walk up raises only recorded fields. */
  lemma ForwardKeeps(w: World, g: Ground, k: WKey, p: ScalePlan, status: Status)
    requires Inv(w.objs, w.wins, g) && GoodPlan(g, k, p) && Recorded(w, k, p, status)
    ensures var f := ForwardSpec(w, p.steps);
            f.w.wins == w.wins && Inv(f.w.objs, f.w.wins, g)
  {
    ForwardResult(w, p.steps, p.desired);
    RaiseKeeps(w, ForwardSpec(w, p.steps).w, g, k, p, status);
  }

  lemma RaiseKeeps(w: World, w1: World, g: Ground, k: WKey, p: ScalePlan, status: Status)
    requires Inv(w.objs, w.wins, g) && GoodPlan(g, k, p) && Recorded(w, k, p, status)
    requires w1.wins == w.wins && w1.objs.Keys == w.objs.Keys
    requires forall l :: Val(w1.objs, l) == Val(w.objs, l) || (NeedsRaise(w.objs, p.steps, l) && Val(w1.objs, l) == Some(p.desired))
    ensures Inv(w1.objs, w1.wins, g)
  {
    forall l | l in g.cat
      ensures l.obj in w1.objs ==> NotBelow(w1.objs, g, l)
      ensures Raised(w1.objs, g, l) ==> Raised(w.objs, g, l) || (g.cat[l].owner == k && Owes(w.wins[k], l))
    {
      RaisedWithin(w, w1.objs, g, k, p, status, l);
    }
  }

  lemma PlanConsistent(g: Ground, k: WKey, p: ScalePlan, some: seq<Step>)
    requires GoodGround(g) && GoodPlan(g, k, p) && forall s :: s in some ==> s in p.steps
    ensures Consistent(ToActions(some), Base(g))
  {
    forall a | a in ToActions(some) && !a.skip ensures ActionLoc(a) in Base(g) && Base(g)[ActionLoc(a)] == a.baseline {
      var i :| 0 <= i < |some| && ToActions(some)[i] == a;
      assert some[i] in some;
      assert FitsPlanned(g, k, some[i]);
    }
  }

  /** An apply keeps the invariant whether it succeeds, fails, or fails to compensate. */
  lemma ApplyKeeps(w: World, g: Ground, k: WKey, p: ScalePlan, status: Status)
    requires Inv(w.objs, w.wins, g) && GoodPlan(g, k, p) && Recorded(w, k, p, status)
    ensures var a := ApplySpec(w, p.steps);
            a.w.wins == w.wins && Inv(a.w.objs, a.w.wins, g)
  {
    ForwardKeeps(w, g, k, p, status);
    var f := ForwardSpec(w, p.steps);
    ForwardGroups(w, p.steps);
    forall s | s in Flat(f.applied) ensures s in p.steps { FlatMembers(f.applied, s); }
    PlanConsistent(g, k, p, Flat(f.applied));
    CompensateResult(f.w, f.applied, p.steps, Base(g));
    LoweredKeeps(f.w, CompensateSpec(f.w, f.applied).0, g, ToActions(Flat(f.applied)));
  }

  /* ---- reporting ---- */

  lemma ReportKeeps(w: World, g: Ground, k: WKey, p: ScalePlan, before: Status, after: Status)
    requires Inv(w.objs, w.wins, g) && Recorded(w, k, p, before) && after.phase == Open
    ensures var (w1, err) := SetStatusSpec(w, k, before, after);
            w1.objs == w.objs && Inv(w1.objs, w1.wins, g) && Safe(w, w1)
  {
    UpdateStatusCases(w, k, after);
    var win1 := w.wins[k].(status := after);
    assert forall l :: Owes(w.wins[k], l) ==> Owes(win1, l);
    PutKeeps(w.objs, w.wins, g, k, win1);
  }

  /** After the record: raise, then report. */
  lemma RaiseReportKeeps(w: World, g: Ground, k: WKey, p: ScalePlan, status: Status, now: int)
    requires Inv(w.objs, w.wins, g) && GoodPlan(g, k, p) && Recorded(w, k, p, status)
    ensures var a := ApplySpec(w, p.steps);
            var w1 := SetStatusSpec(a.w, k, status, OpenedStatus(status, now, OpenMsg(p, a.err), a.err)).0;
            Inv(w1.objs, w1.wins, g) && Safe(w, w1)
  {
    ApplyKeeps(w, g, k, p, status);
    var a := ApplySpec(w, p.steps);
    ReportKeeps(a.w, g, k, p, status, OpenedStatus(status, now, OpenMsg(p, a.err), a.err));
  }

  lemma OpenWindowKeeps(w: World, g: Ground, k: WKey, found: Result<Window>, wl: Workload, p: ScalePlan, now: int)
    requires Inv(w.objs, w.wins, g) && GoodPlan(g, k, p) && p.steps != [] && FoundIs(w, k, found)
    requires found.Success? ==> found.value.status.phase != Closed
    ensures var (w1, err) := OpenWindowSpec(w, k, found, wl, p, now);
            Inv(w1.objs, w1.wins, g) && Safe(w, w1)
  {
    RecordKeeps(w, g, k, found, wl, p, now);
    var existing := if found.Success? then found.value.spec.actions else [];
    var status := if found.Success? then found.value.status else FRESH_STATUS;
    var (w1, rerr) := RecordSpec(w, k, found, OpenSpec(p, wl, existing), now);
    if rerr.None? {
      RaiseReportKeeps(w1, g, k, p, status, now);
    }
  }

  lemma EnsureWindowKeeps(w: World, g: Ground, k: WKey, wl: Workload, maxWindow: int, now: int)
    requires Inv(w.objs, w.wins, g) && FitsWork(g, k, wl.plan)
    ensures var (w1, err) := EnsureWindowSpec(w, k, wl, maxWindow, now);
            Inv(w1.objs, w1.wins, g) && Safe(w, w1)
  {
    var (w1, found) := GetWinSpec(w, k);
    if (found.Success? && !HoldMaxWindow(maxWindow, found.value, now)) || found == Failure(NotFound) {
      var existing := if found.Success? then found.value.spec.actions else [];
      var sticky := if found.Success? then found.value.spec.baseline else 0;
      PlanKeeps(w1, g, k, wl.plan, existing, sticky);
      var (w2, plan) := BuildPlanSpec(w1, wl.plan, existing, sticky);
      if plan.Success? { OpenWindowKeeps(w2, g, k, found, wl, plan.value, now); }
    }
  }

  /** A window that waits has recorded nothing, so a placeholder loses no record. */
  lemma EnsureDeferredKeeps(w: World, g: Ground, k: WKey, wl: Workload, maxWindow: int, now: int)
    requires Inv(w.objs, w.wins, g)
    requires k in w.wins ==> !IsActive(w.wins[k]) || w.wins[k].meta.deferred
    ensures var (w1, err) := EnsureDeferredSpec(w, k, wl, maxWindow, now);
            Inv(w1.objs, w1.wins, g) && Safe(w, w1)
  {
    var (w1, found) := GetWinSpec(w, k);
    QuietUnlessOwed(w.objs, w.wins, g, k);
    if (found.Success? && !HoldMaxWindow(maxWindow, found.value, now)) || found == Failure(NotFound) {
      PlaceholderKeeps(w1, g, k, found, wl, now);
      var (w2, err) := PlaceholderSpec(w1, k, found, DeferredSpec(found, wl), now);
      var status := if found.Success? then found.value.status else FRESH_STATUS;
      if err.None? { WaitingKeeps(w2, g, k, status, OpenedStatus(status, now, WaitingForSlot, None)); }
    }
  }

  /** Reporting a placeholder open: its workload is quiet. */
  lemma WaitingKeeps(w: World, g: Ground, k: WKey, before: Status, after: Status)
    requires Inv(w.objs, w.wins, g) && k in w.wins && Quiet(w.objs, g, k)
    requires w.wins[k].status == before && before.phase != Closed
    ensures var (w1, err) := SetStatusSpec(w, k, before, after);
            Inv(w1.objs, w1.wins, g) && Safe(w, w1)
  {
    UpdateStatusCases(w, k, after);
    PutKeeps(w.objs, w.wins, g, k, w.wins[k].(status := after));
  }

  lemma PlaceholderKeeps(w: World, g: Ground, k: WKey, found: Result<Window>, wl: Workload, now: int)
    requires Inv(w.objs, w.wins, g) && FoundIs(w, k, found) && Quiet(w.objs, g, k)
    ensures var (w1, err) := PlaceholderSpec(w, k, found, DeferredSpec(found, wl), now);
            && w1.objs == w.objs && Inv(w1.objs, w1.wins, g) && Safe(w, w1)
            && (err.None? ==> k in w1.wins && w1.wins[k].status == if found.Success? then found.value.status else FRESH_STATUS)
  {
    var spec := DeferredSpec(found, wl);
    if found.Success? {
      PutKeeps(w.objs, w.wins, g, k, Window(found.value.meta.(deferred := true), spec, found.value.status));
    } else {
      PutKeeps(w.objs, w.wins, g, k, Window(NewMeta(true).(created := Some(now)), spec, FRESH_STATUS));
    }
  }

  /* ---- the whole pass ---- */

  lemma TurnKeeps(w: World, g: Ground, input: PolicyIn, wl: Workload, active: int)
    requires Inv(w.objs, w.wins, g) && FitsWork(g, WindowKey(input.policy, wl), wl.plan)
    ensures var t := TurnSpec(w, input, wl, active);
            Inv(t.w.objs, t.w.wins, g) && Safe(w, t.w)
  {
    var k := WindowKey(input.policy, wl);
    var (w1, found) := GetWinSpec(w, k);
    if found.Success? || found.error == NotFound {
      if MustDefer(Waiting(found), input.cap, active) {
        EnsureDeferredKeeps(w1, g, k, wl, input.maxWindow, input.now);
      } else {
        EnsureWindowKeeps(w1, g, k, wl, input.maxWindow, input.now);
      }
    }
  }

  /** All the workloads of the pass plan with bound fields only. */
  ghost predicate FitsPass(g: Ground, input: PolicyIn)
    requires GoodGround(g)
  {
    forall key :: key in input.work ==> FitsWork(g, KeyAt(input, key), input.work[key].plan)
  }

  lemma {:induction false} SlotLoopKeeps(w: World, g: Ground, input: PolicyIn, keys: seq<string>, active: int)
    requires Inv(w.objs, w.wins, g) && FitsPass(g, input) && forall key :: key in keys ==> key in input.work
    decreases |keys|
    ensures var o := SlotLoopSpec(w, input, keys, active);
            Inv(o.w.objs, o.w.wins, g) && Safe(w, o.w)
  {
    if keys != [] {
      var wl := input.work[keys[0]];
      TurnKeeps(w, g, input, wl, active);
      var t := TurnSpec(w, input, wl, active);
      if t.stop.None? { SlotLoopKeeps(t.w, g, input, keys[1..], t.active); }
    }
  }

  lemma SyncOneCases(w: World, k: WKey, vulnerable: set<string>)
    requires k in w.wins ==> HeldByFinalizer(w.wins[k])
    ensures var w1 := SyncOneSpec(w, k, vulnerable).0;
            && w1.objs == w.objs
            && (w1.wins == w.wins
                || (k in w.wins && w1.wins == w.wins[k := w.wins[k].(spec := w.wins[k].spec.(nodes := []))]
                    && forall n :: n in w.wins[k].spec.nodes ==> n !in vulnerable))
  {
    if k in w.wins { PatchWinCases(Rest(w), k, w.wins[k].(spec := w.wins[k].spec.(nodes := []))); }
  }

  lemma SyncOneKeeps(w: World, g: Ground, k: WKey, vulnerable: set<string>)
    requires Inv(w.objs, w.wins, g)
    ensures var (w1, err) := SyncOneSpec(w, k, vulnerable);
            Inv(w1.objs, w1.wins, g) && Safe(w, w1)
  {
    if k in w.wins { assert GoodWindow(g, k, w.wins[k]); }
    SyncOneCases(w, k, vulnerable);
    if k in w.wins {
      var win1 := w.wins[k].(spec := w.wins[k].spec.(nodes := []));
      assert forall l :: Owes(w.wins[k], l) ==> Owes(win1, l);
      PutKeeps(w.objs, w.wins, g, k, win1);
    }
  }

  lemma {:induction false} SyncKeeps(w: World, g: Ground, input: PolicyIn, listing: seq<WKey>)
    requires Inv(w.objs, w.wins, g)
    decreases |listing|
    ensures var (w1, err) := SyncSpec(w, input, listing);
            Inv(w1.objs, w1.wins, g) && Safe(w, w1)
  {
    if listing != [] {
      if listing[0].policy != input.policy || WorkKey(listing[0]) in input.work {
        SyncKeeps(w, g, input, listing[1..]);
      } else {
        SyncOneKeeps(w, g, listing[0], input.vulnerable);
        var (w1, err) := SyncOneSpec(w, listing[0], input.vulnerable);
        if err.None? { SyncKeeps(w1, g, input, listing[1..]); }
      }
    }
  }

  /** A policy pass keeps the invariant and every finalizer, wherever it stops. */
  lemma PolicyPassKeeps(w: World, g: Ground, input: PolicyIn)
    requires Inv(w.objs, w.wins, g) && GoodOrder(input) && FitsPass(g, input)
    ensures var w1 := PolicyPassSpec(w, input).w;
            Inv(w1.objs, w1.wins, g) && Safe(w, w1)
  {
    SortKeeps(input);
    var (w1, rerr) := ReadSpec(w);
    if rerr.None? {
      var n := |SlotHolders(w1.wins, input.policy)|;
      SlotLoopKeeps(w1, g, input, Sort(input.order), n);
      var o := SlotLoopSpec(w1, input, Sort(input.order), n);
      if o.stop.None? { SyncKeeps(o.w, g, input, input.listing); }
    }
  }
}
