/** What a policy pass may do to the records and the fields of each workload. */
module PolicyEvolution {
  import opened Strings
  import opened Types
  import opened Store
  import opened Plan
  import opened PlanEffects
  import opened PlanRecords
  import opened PlanTheorems
  import opened Clock
  import opened PolicyController
  import opened Ledger
  import opened PolicyLedger

  /** The opening time never moves once it is set; ForcedCool and Closed are not the policy
      pass's to set. */
  ghost predicate Ages(a: Window, b: Window) {
    && b.meta.created == a.meta.created && b.meta.finalizer == a.meta.finalizer && b.meta.deleting == a.meta.deleting
    && (a.status.lastScale.Some? ==> b.status.lastScale == a.status.lastScale)
    && b.status.forcedCool == a.status.forcedCool && (b.status.phase == a.status.phase || b.status.phase == Open)
  }

  /** Only the record of `k` and the fields bound to `k` may change. */
  ghost predicate Confined(w: World, w1: World, g: Ground, k: WKey)
    requires GoodGround(g)
  {
    && w1.wins - {k} == w.wins - {k} && w1.objs.Keys == w.objs.Keys
    && (k in w.wins ==> k in w1.wins && Ages(w.wins[k], w1.wins[k]))
    && forall l :: Val(w1.objs, l) == Val(w.objs, l) || (l in g.cat && g.cat[l].owner == k)
  }

  lemma ConfinedChain(w: World, w1: World, w2: World, g: Ground, k: WKey)
    requires GoodGround(g) && Confined(w, w1, g, k) && Confined(w1, w2, g, k)
    ensures Confined(w, w2, g, k)
  {
    forall l ensures Val(w2.objs, l) == Val(w.objs, l) || (l in g.cat && g.cat[l].owner == k) {
      assert Val(w1.objs, l) == Val(w.objs, l) || (l in g.cat && g.cat[l].owner == k);
    }
  }

  lemma ForwardTouches(w: World, g: Ground, k: WKey, p: ScalePlan)
    requires GoodGround(g) && GoodPlan(g, k, p)
    ensures var f := ForwardSpec(w, p.steps);
            f.w.wins == w.wins && f.w.objs.Keys == w.objs.Keys
            && forall l :: Val(f.w.objs, l) == Val(w.objs, l) || (l in g.cat && g.cat[l].owner == k)
  {
    ForwardResult(w, p.steps, p.desired);
    forall l | NeedsRaise(w.objs, p.steps, l) ensures l in g.cat && g.cat[l].owner == k {
      var s :| s in p.steps && LocOf(s.target) == l && Below(w.objs, s);
      assert FitsPlanned(g, k, s);
    }
  }

  lemma CompensateTouches(w: World, g: Ground, k: WKey, p: ScalePlan, groups: seq<seq<Step>>)
    requires GoodGround(g) && GoodPlan(g, k, p) && ProperGroups(groups, p.steps)
    ensures var w1 := CompensateSpec(w, groups).0;
            w1.wins == w.wins && w1.objs.Keys == w.objs.Keys
            && forall l :: Val(w1.objs, l) == Val(w.objs, l) || (l in g.cat && g.cat[l].owner == k)
  {
    forall s | s in Flat(groups) ensures s in p.steps { FlatMembers(groups, s); }
    PlanConsistent(g, k, p, Flat(groups));
    CompensateResult(w, groups, p.steps, Base(g));
    var acts := ToActions(Flat(groups));
    forall l | NeedsLower(w.objs, acts, l) ensures l in g.cat && g.cat[l].owner == k {
      var a :| a in acts && ActionLoc(a) == l && Above(w.objs, a);
      var i :| 0 <= i < |acts| && acts[i] == a;
      assert Flat(groups)[i] in p.steps;
      assert FitsPlanned(g, k, Flat(groups)[i]);
    }
  }

  lemma ApplyTouches(w: World, g: Ground, k: WKey, p: ScalePlan)
    requires GoodGround(g) && GoodPlan(g, k, p)
    ensures Confined(w, ApplySpec(w, p.steps).w, g, k)
  {
    ForwardTouches(w, g, k, p);
    var f := ForwardSpec(w, p.steps);
    if f.err.Some? {
      ForwardGroups(w, p.steps);
      CompensateTouches(f.w, g, k, p, f.applied);
    }
  }

  lemma RecordTouches(w: World, g: Ground, k: WKey, found: Result<Window>, spec: Spec, now: int)
    requires GoodGround(g) && FoundIs(w, k, found) && (k in w.wins ==> GoodWindow(g, k, w.wins[k]))
    ensures var (w1, err) := RecordSpec(w, k, found, spec, now);
            && Confined(w, w1, g, k)
            && (err.None? ==> k in w1.wins
                              && w1.wins[k].status == if found.Success? then found.value.status else FRESH_STATUS)
  {
  }

  lemma ReportTouches(w: World, g: Ground, k: WKey, before: Status, now: int, msg: Msg, applied: Option<Error>)
    requires GoodGround(g) && k in w.wins && w.wins[k].status == before
    ensures Confined(w, SetStatusSpec(w, k, before, OpenedStatus(before, now, msg, applied)).0, g, k)
  {
  }

  lemma OpenWindowTouches(w: World, g: Ground, k: WKey, found: Result<Window>, wl: Workload, p: ScalePlan, now: int)
    requires Inv(w.objs, w.wins, g) && GoodPlan(g, k, p) && FoundIs(w, k, found)
    ensures Confined(w, OpenWindowSpec(w, k, found, wl, p, now).0, g, k)
  {
    var existing := if found.Success? then found.value.spec.actions else [];
    var status := if found.Success? then found.value.status else FRESH_STATUS;
    RecordTouches(w, g, k, found, OpenSpec(p, wl, existing), now);
    var (w1, rerr) := RecordSpec(w, k, found, OpenSpec(p, wl, existing), now);
    if rerr.None? {
      ApplyTouches(w1, g, k, p);
      ForwardTouches(w1, g, k, p);
      var a := ApplySpec(w1, p.steps);
      ApplyWins(w1, p.steps);
      ReportTouches(a.w, g, k, status, now, OpenMsg(p, a.err), a.err);
      var w2 := SetStatusSpec(a.w, k, status, OpenedStatus(status, now, OpenMsg(p, a.err), a.err)).0;
      ConfinedChain(w, w1, a.w, g, k);
      ConfinedChain(w, a.w, w2, g, k);
    }
  }

  lemma EnsureWindowTouches(w: World, g: Ground, k: WKey, wl: Workload, maxWindow: int, now: int)
    requires Inv(w.objs, w.wins, g) && FitsWork(g, k, wl.plan)
    ensures Confined(w, EnsureWindowSpec(w, k, wl, maxWindow, now).0, g, k)
  {
    var (w1, found) := GetWinSpec(w, k);
    if (found.Success? && !HoldMaxWindow(maxWindow, found.value, now)) || found == Failure(NotFound) {
      var existing := if found.Success? then found.value.spec.actions else [];
      var sticky := if found.Success? then found.value.spec.baseline else 0;
      PlanKeeps(w1, g, k, wl.plan, existing, sticky);
      var (w2, plan) := BuildPlanSpec(w1, wl.plan, existing, sticky);
      if plan.Success? {
        OpenWindowTouches(w2, g, k, found, wl, plan.value, now);
        ConfinedChain(w, w2, OpenWindowSpec(w2, k, found, wl, plan.value, now).0, g, k);
      }
    }
  }

  lemma EnsureDeferredTouches(w: World, g: Ground, k: WKey, wl: Workload, maxWindow: int, now: int)
    requires Inv(w.objs, w.wins, g)
    ensures var w1 := EnsureDeferredSpec(w, k, wl, maxWindow, now).0;
            Confined(w, w1, g, k) && w1.objs == w.objs
  {
    var (w1, found) := GetWinSpec(w, k);
    if (found.Success? && !HoldMaxWindow(maxWindow, found.value, now)) || found == Failure(NotFound) {
      var status := if found.Success? then found.value.status else FRESH_STATUS;
      PlaceholderTouches(w1, g, k, found, wl, now);
      var (w2, err) := PlaceholderSpec(w1, k, found, DeferredSpec(found, wl), now);
      if err.None? {
        ReportTouches(w2, g, k, status, now, WaitingForSlot, None);
        ConfinedChain(w, w2, SetStatusSpec(w2, k, status, OpenedStatus(status, now, WaitingForSlot, None)).0, g, k);
      }
    }
  }

  lemma PlaceholderTouches(w: World, g: Ground, k: WKey, found: Result<Window>, wl: Workload, now: int)
    requires GoodGround(g) && FoundIs(w, k, found) && (k in w.wins ==> GoodWindow(g, k, w.wins[k]))
    ensures var (w1, err) := PlaceholderSpec(w, k, found, DeferredSpec(found, wl), now);
            && Confined(w, w1, g, k) && w1.objs == w.objs
            && (err.None? ==> k in w1.wins
                              && w1.wins[k].status == if found.Success? then found.value.status else FRESH_STATUS)
  {
  }

  /** A held window is read, and nothing else. */
  lemma HeldStays(w: World, k: WKey, wl: Workload, maxWindow: int, now: int)
    requires k in w.wins && HoldMaxWindow(maxWindow, w.wins[k], now)
    ensures EnsureWindowSpec(w, k, wl, maxWindow, now).0 == EnsureDeferredSpec(w, k, wl, maxWindow, now).0 == Rest(w)
  {
  }

  /** One workload's turn is confined to its own window and its own fields, and leaves a held
      window and its fields alone. */
  lemma TurnTouches(w: World, g: Ground, input: PolicyIn, wl: Workload, active: int)
    requires Inv(w.objs, w.wins, g) && FitsWork(g, WindowKey(input.policy, wl), wl.plan)
    ensures var t := TurnSpec(w, input, wl, active);
            var k := WindowKey(input.policy, wl);
            && Confined(w, t.w, g, k)
            && (k in w.wins && HoldMaxWindow(input.maxWindow, w.wins[k], input.now) ==> t.w.wins == w.wins && t.w.objs == w.objs)
  {
    var k, w1 := WindowKey(input.policy, wl), Rest(w);
    TurnCases(w, input, wl, active);
    EnsureDeferredTouches(w1, g, k, wl, input.maxWindow, input.now);
    EnsureWindowTouches(w1, g, k, wl, input.maxWindow, input.now);
    if k in w.wins && HoldMaxWindow(input.maxWindow, w.wins[k], input.now) {
      HeldStays(w1, k, wl, input.maxWindow, input.now);
    }
  }

  /* ---- the whole pass, seen from one window ---- */

  ghost predicate FieldsOf(w: World, w1: World, g: Ground, k: WKey)
    requires GoodGround(g)
  {
    w1.objs.Keys == w.objs.Keys && forall l :: l in g.cat && g.cat[l].owner == k ==> Val(w1.objs, l) == Val(w.objs, l)
  }

  /** The nodes of a window are forgotten only when none of them is vulnerable. */
  ghost predicate Forgets(a: Window, b: Window, vulnerable: set<string>) {
    b == a || (b == a.(spec := a.spec.(nodes := [])) && forall n :: n in a.spec.nodes ==> n !in vulnerable)
  }

  /** The window of `k` stays and ages; a held one, and its fields, are left alone but for
      the nodes it forgets, and those of another policy altogether. */
  ghost predicate Spares(w: World, w1: World, g: Ground, k: WKey, input: PolicyIn)
    requires GoodGround(g)
  {
    k in w.wins ==>
      && k in w1.wins && Ages(w.wins[k], w1.wins[k])
      && (HoldMaxWindow(input.maxWindow, w.wins[k], input.now) ==>
            Forgets(w.wins[k], w1.wins[k], input.vulnerable) && FieldsOf(w, w1, g, k))
      && (input.policy != k.policy ==> w1.wins[k] == w.wins[k] && FieldsOf(w, w1, g, k))
  }

  lemma SparesChain(w: World, w1: World, w2: World, g: Ground, k: WKey, input: PolicyIn)
    requires GoodGround(g) && Spares(w, w1, g, k, input) && Spares(w1, w2, g, k, input)
    ensures Spares(w, w2, g, k, input)
  {
  }

  /** Neither the window of `k` nor one of its fields differs. */
  ghost predicate Untouched(w: World, w1: World, g: Ground, k: WKey)
    requires GoodGround(g)
  {
    && (k in w1.wins <==> k in w.wins) && (k in w.wins ==> w1.wins[k] == w.wins[k])
    && FieldsOf(w, w1, g, k)
  }

  lemma UntouchedChain(w: World, w1: World, w2: World, g: Ground, k: WKey)
    requires GoodGround(g) && Untouched(w, w1, g, k) && Untouched(w1, w2, g, k)
    ensures Untouched(w, w2, g, k)
  {
  }

  lemma ConfinedElsewhere(w: World, w1: World, g: Ground, j: WKey, k: WKey)
    requires GoodGround(g) && Confined(w, w1, g, j) && j != k
    ensures Untouched(w, w1, g, k)
  {
    assert k in w.wins <==> k in w.wins - {j};
    assert k in w1.wins <==> k in w1.wins - {j};
    assert k in w.wins ==> (w.wins - {j})[k] == w.wins[k];
    forall l | l in g.cat && g.cat[l].owner == k ensures Val(w1.objs, l) == Val(w.objs, l) {}
  }

  /** The turns of other workloads, however they end. */
  lemma {:induction false} OthersElsewhere(w: World, g: Ground, input: PolicyIn, keys: seq<string>, active: int, k: WKey)
    requires Inv(w.objs, w.wins, g) && FitsPass(g, input)
    requires forall key :: key in keys ==> key in input.work && KeyAt(input, key) != k
    decreases |keys|
    ensures Untouched(w, SlotLoopSpec(w, input, keys, active).w, g, k)
  {
    if keys != [] {
      var wl := input.work[keys[0]];
      TurnTouches(w, g, input, wl, active);
      TurnKeeps(w, g, input, wl, active);
      var t := TurnSpec(w, input, wl, active);
      ConfinedElsewhere(w, t.w, g, KeyAt(input, keys[0]), k);
      if t.stop.None? {
        OthersElsewhere(t.w, g, input, keys[1..], t.active, k);
        UntouchedChain(w, t.w, SlotLoopSpec(t.w, input, keys[1..], t.active).w, g, k);
      }
    }
  }

  lemma TurnSpares(w: World, g: Ground, input: PolicyIn, wl: Workload, active: int, k: WKey)
    requires Inv(w.objs, w.wins, g) && FitsWork(g, WindowKey(input.policy, wl), wl.plan)
    ensures Spares(w, TurnSpec(w, input, wl, active).w, g, k, input)
  {
    TurnTouches(w, g, input, wl, active);
    var j := WindowKey(input.policy, wl);
    if j != k { ConfinedElsewhere(w, TurnSpec(w, input, wl, active).w, g, j, k); }
  }

  lemma {:induction false} SlotLoopSpares(w: World, g: Ground, input: PolicyIn, keys: seq<string>, active: int, k: WKey)
    requires Inv(w.objs, w.wins, g) && FitsPass(g, input) && forall key :: key in keys ==> key in input.work
    decreases |keys|
    ensures Spares(w, SlotLoopSpec(w, input, keys, active).w, g, k, input)
  {
    if keys != [] {
      var wl := input.work[keys[0]];
      TurnSpares(w, g, input, wl, active, k);
      TurnKeeps(w, g, input, wl, active);
      var t := TurnSpec(w, input, wl, active);
      if t.stop.None? {
        SlotLoopSpares(t.w, g, input, keys[1..], t.active, k);
        SparesChain(w, t.w, SlotLoopSpec(t.w, input, keys[1..], t.active).w, g, k, input);
      }
    }
  }

  /** No field moves; the record of `k` forgets its nodes at most, and nothing when `k` is of
      another policy or at risk. */
  ghost predicate Cleared(w: World, w1: World, input: PolicyIn, k: WKey) {
    && w1.objs == w.objs && (k in w1.wins <==> k in w.wins)
    && (k in w.wins ==>
          && Forgets(w.wins[k], w1.wins[k], input.vulnerable)
          && (input.policy != k.policy || WorkKey(k) in input.work ==> w1.wins[k] == w.wins[k]))
  }

  lemma SyncOneClears(w: World, input: PolicyIn, j: WKey, k: WKey)
    requires (j in w.wins ==> HeldByFinalizer(w.wins[j])) && j.policy == input.policy && WorkKey(j) !in input.work
    ensures Cleared(w, SyncOneSpec(w, j, input.vulnerable).0, input, k)
  {
    SyncOneCases(w, j, input.vulnerable);
  }

  lemma {:induction false} SyncClears(w: World, g: Ground, input: PolicyIn, listing: seq<WKey>, k: WKey)
    requires Inv(w.objs, w.wins, g)
    decreases |listing|
    ensures Cleared(w, SyncSpec(w, input, listing).0, input, k)
  {
    if listing != [] {
      if listing[0].policy != input.policy || WorkKey(listing[0]) in input.work {
        SyncClears(w, g, input, listing[1..], k);
      } else {
        var (w1, err) := SyncOneSpec(w, listing[0], input.vulnerable);
        if listing[0] in w.wins { assert GoodWindow(g, listing[0], w.wins[listing[0]]); }
        SyncOneClears(w, input, listing[0], k);
        SyncOneKeeps(w, g, listing[0], input.vulnerable);
        if err.None? {
          SyncClears(w1, g, input, listing[1..], k);
          ClearedChain(w, w1, SyncSpec(w1, input, listing[1..]).0, input, k);
        }
      }
    }
  }

  lemma ClearedChain(w: World, w1: World, w2: World, input: PolicyIn, k: WKey)
    requires Cleared(w, w1, input, k) && Cleared(w1, w2, input, k)
    ensures Cleared(w, w2, input, k)
  {
  }

  lemma ClearedSpares(w: World, w1: World, g: Ground, input: PolicyIn, k: WKey)
    requires GoodGround(g) && Cleared(w, w1, input, k)
    ensures Spares(w, w1, g, k, input)
  {
  }

  /** After its loop a policy pass only clears. */
  lemma PassClears(w: World, g: Ground, input: PolicyIn, k: WKey)
    requires Inv(w.objs, w.wins, g) && GoodOrder(input) && FitsPass(g, input) && Next(w) == Applied
    ensures Cleared(PassLoop(Rest(w), input).w, PolicyPassSpec(w, input).w, input, k)
  {
    SortKeeps(input);
    var o := PassLoop(Rest(w), input);
    SlotLoopKeeps(Rest(w), g, input, Sort(input.order), |SlotHolders(w.wins, input.policy)|);
    SyncClears(o.w, g, input, input.listing, k);
    PassCases(w, input);
  }

  lemma UntouchedThenCleared(w: World, w1: World, w2: World, g: Ground, input: PolicyIn, k: WKey)
    requires GoodGround(g) && Untouched(w, w1, g, k) && Cleared(w1, w2, input, k)
    ensures FieldsOf(w, w2, g, k) && (k in w2.wins <==> k in w.wins)
    ensures k in w.wins ==> Forgets(w.wins[k], w2.wins[k], input.vulnerable)
    ensures input.policy != k.policy || WorkKey(k) in input.work ==> Untouched(w, w2, g, k)
  {
  }

  /** A pass that does not find the workload at risk touches none of its fields, and its
      window forgets its nodes at most. */
  lemma UncountedPass(w: World, g: Ground, input: PolicyIn, k: WKey)
    requires Inv(w.objs, w.wins, g) && GoodOrder(input) && FitsPass(g, input)
    requires forall key :: key in input.work ==> KeyAt(input, key) != k
    ensures var w1 := PolicyPassSpec(w, input).w;
            && FieldsOf(w, w1, g, k) && (k in w1.wins <==> k in w.wins)
            && (k in w.wins ==> Forgets(w.wins[k], w1.wins[k], input.vulnerable))
  {
    PassCases(w, input);
    if Next(w) == Applied {
      SortKeeps(input);
      OthersElsewhere(Rest(w), g, input, Sort(input.order), |SlotHolders(w.wins, input.policy)|, k);
      PassClears(w, g, input, k);
      UntouchedThenCleared(Rest(w), PassLoop(Rest(w), input).w, PolicyPassSpec(w, input).w, g, input, k);
    }
  }

  /** A policy pass never removes a window and never moves a set opening time; a held window
      and the fields of its workload are left alone, and its nodes are forgotten only when
      none is vulnerable. */
  lemma PolicyPassSpares(w: World, g: Ground, input: PolicyIn, k: WKey)
    requires Inv(w.objs, w.wins, g) && GoodOrder(input) && FitsPass(g, input)
    ensures Spares(w, PolicyPassSpec(w, input).w, g, k, input)
  {
    PassCases(w, input);
    if Next(w) == Applied {
      SortKeeps(input);
      var w1, w2 := PassLoop(Rest(w), input).w, PolicyPassSpec(w, input).w;
      SlotLoopSpares(Rest(w), g, input, Sort(input.order), |SlotHolders(w.wins, input.policy)|, k);
      PassClears(w, g, input, k);
      ClearedSpares(w1, w2, g, input, k);
      SparesChain(Rest(w), w1, w2, g, k, input);
    }
  }
}
