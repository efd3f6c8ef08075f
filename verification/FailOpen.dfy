/** Fail-open over whole runs: a window past its deadline only cools, closes and goes. */
module FailOpen {
  import opened Strings
  import opened Types
  import opened Store
  import opened Plan
  import opened PlanRecords
  import opened Clock
  import opened WindowController
  import opened PolicyController
  import opened Ledger
  import opened WindowLedger
  import opened WindowEvolution
  import opened WindowFields
  import opened PolicyLedger
  import opened PolicyEvolution
  import opened Protocol
  import Gate

  /** ForcedCool is stamped, and the deadline it stands for has passed. */
  predicate Forced(s: State, k: WKey, maxWindow: int, clock: int) {
    k in s.wins && s.wins[k].status.forcedCool && MaxWindowExceeded(maxWindow, s.wins[k], clock)
  }

  /** The passes over `k` use this maxWindow, at times that never go back. */
  predicate Ticking(events: seq<Event>, k: WKey, maxWindow: int, clock: int)
    decreases |events|
  {
    events != [] ==>
      var e := events[0];
      if e.WindowPass? && e.key == k then
        e.win.maxWindow == maxWindow && e.win.now >= clock && Ticking(events[1..], k, maxWindow, e.win.now)
      else Ticking(events[1..], k, maxWindow, clock)
  }

  /** The window is there before, between and after the events. */
  ghost predicate Stays(s: State, events: seq<Event>, k: WKey)
    requires forall e :: e in events ==> Ordered(e)
    decreases |events|
  {
    k in s.wins && (events != [] ==> assert events[0] in events; Stays(Happen(s, events[0]), events[1..], k))
  }

  /** How far a forced window still is from being gone. */
  function Rank(win: Window): nat {
    if win.status.phase == Closed then 1 else if win.spec.until.Some? then 2 else 3
  }

  /** What one event, or a run of them, may do to a forced window that stays. */
  ghost predicate StillForced(s: State, s1: State, g: Ground, k: WKey)
    requires GoodGround(g)
  {
    k in s.wins && k in s1.wins && s.wins[k].status.forcedCool ==>
      var a, b := s.wins[k], s1.wins[k];
      && b.status.forcedCool && WindowOpenedAt(b) == WindowOpenedAt(a)
      && (a.spec.until.Some? ==> b.spec.until == a.spec.until)
      && Rank(b) <= Rank(a)
      && forall l :: l in g.cat && g.cat[l].owner == k ==> NotRaised(s, s1, g, l)
  }

  /** The field keeps its value, goes back to its original one, or goes with its object. */
  predicate NotRaised(s: State, s1: State, g: Ground, l: Loc)
    requires l in g.cat && l in g.orig
  {
    || Val(s1.objs, l) == Val(s.objs, l) || Val(s1.objs, l) == None
    || (!g.cat[l].skip && Val(s1.objs, l) == Some(g.orig[l]))
  }

  lemma StillForcedChain(s: State, s1: State, s2: State, g: Ground, k: WKey)
    requires GoodGround(g) && StillForced(s, s1, g, k) && StillForced(s1, s2, g, k)
    requires k in s1.wins
    ensures StillForced(s, s2, g, k)
  {
    if k in s.wins && k in s2.wins && s.wins[k].status.forcedCool {
      forall l | l in g.cat && g.cat[l].owner == k ensures NotRaised(s, s2, g, l) {
        assert NotRaised(s, s1, g, l) && NotRaised(s1, s2, g, l);
      }
    }
  }

  /* ---- one event ---- */

  lemma UnfinalizedStatus(w: World, k: WKey, win: Window)
    requires Stored(w, k, win)
    ensures var w1 := UnfinalizeSpec(w, k, win).0;
            k in w1.wins ==> w1.wins[k].status == win.status
  {
  }

  lemma DeletedStatus(w: World, k: WKey, win: Window)
    requires Stored(w, k, win)
    ensures var w1 := DeleteClosedSpec(w, k, win).w;
            k in w1.wins ==> w1.wins[k].status == win.status
  {
  }

  lemma ScaledBackStatus(w: World, k: WKey, win: Window)
    requires Stored(w, k, win)
    ensures var w1 := ScaleBackAndUnfinalizeSpec(w, k, win).w;
            k in w1.wins ==> w1.wins[k].status == win.status
  {
    RestoreWins(w, FillNs(win.spec.actions, k.ns));
    UnfinalizedStatus(RestoreSpec(w, win.spec.actions, k.ns).0, k, win);
  }

  lemma TombstoneFound(w: World, k: WKey, win: Window, input: WinIn)
    requires Stored(w, k, win) && win.status.phase == Closed && win.status.forcedCool
    ensures var w1 := FoundPassSpec(w, k, win, input).w;
            k in w1.wins ==> w1.wins[k].status == win.status
  {
    if win.meta.deleting {
      ScaledBackStatus(w, k, win);
    } else if win.meta.finalizer {
      ScaledBackStatus(Rest(w), k, win);
      ScaledBackStatus(Rest(Rest(w)), k, win);
      DeletedStatus(Rest(Rest(Rest(w))), k, win);
      OwnedCases(w, k, win, input);
    }
  }

  /** A tombstone's status is never written again. */
  lemma TombstoneKeepsStatus(w: World, k: WKey, input: WinIn)
    requires k in w.wins && w.wins[k].status.phase == Closed && w.wins[k].status.forcedCool
    ensures var w1 := WindowPassSpec(w, k, input).w;
            k in w1.wins ==> w1.wins[k].status == w.wins[k].status
  {
    TombstoneFound(Rest(w), k, w.wins[k], input);
  }

  lemma OtherWindow(w: World, j: WKey, k: WKey, input: WinIn)
    requires j != k
    ensures var w1 := WindowPassSpec(w, j, input).w;
            (k in w.wins <==> k in w1.wins) && (k in w.wins ==> w1.wins[k] == w.wins[k])
  {
    WindowPassMoves(w, j, input);
    var w1 := WindowPassSpec(w, j, input).w;
    assert k in w1.wins <==> k in w1.wins - {j};
    assert k in w.wins <==> k in w.wins - {j};
  }

  lemma WindowPassForced(s: State, g: Ground, j: WKey, input: WinIn, tape: seq<Outcome>, k: WKey, maxWindow: int, clock: int)
    requires Sound(s, g) && Forced(s, k, maxWindow, clock)
    requires j == k ==> input.maxWindow == maxWindow && input.now >= clock
    ensures StillForced(s, End(WindowPassSpec(Start(s, tape), j, input).w), g, k)
  {
    var w := Start(s, tape);
    var w1 := WindowPassSpec(w, j, input).w;
    WindowPassLowers(w, g, j, input);
    if j != k {
      OtherWindow(w, j, k, input);
      forall l | l in g.cat && g.cat[l].owner == k ensures Val(w1.objs, l) == Val(s.objs, l) {}
    } else {
      WindowPassMoves(w, k, input);
      if s.wins[k].status.phase == Closed { TombstoneKeepsStatus(w, k, input); }
      forall l | l in g.cat && g.cat[l].owner == k ensures NotRaised(s, End(w1), g, l) {}
    }
  }

  lemma PolicyPassForced(s: State, g: Ground, input: PolicyIn, tape: seq<Outcome>, k: WKey)
    requires Sound(s, g) && GoodOrder(input) && FitsPass(g, input)
    ensures StillForced(s, End(PolicyPassSpec(Start(s, tape), input).w), g, k)
  {
    PolicyPassSpares(Start(s, tape), g, input, k);
  }

  lemma DeletedForced(s: State, g: Ground, j: WKey, k: WKey)
    requires GoodGround(g)
    ensures StillForced(s, Happen(s, DeleteWindow(j)), g, k)
  {
  }

  lemma GoneForced(s: State, g: Ground, o: Obj, k: WKey)
    requires GoodGround(g)
    ensures StillForced(s, Happen(s, ObjectGone(o)), g, k)
  {
    forall l | l in g.cat ensures NotRaised(s, Happen(s, ObjectGone(o)), g, l) {
      assert l.obj in s.objs - {o} ==> Val(s.objs - {o}, l) == Val(s.objs, l);
    }
  }

  /** One event, wherever it stops, keeps a forced window forced: no step raises one of its
      fields, clears its WindowUntil or moves its opening time. */
  lemma ForcedStep(s: State, g: Ground, e: Event, k: WKey, maxWindow: int, clock: int)
    requires Sound(s, g) && Bound(g, e) && Forced(s, k, maxWindow, clock)
    requires e.WindowPass? && e.key == k ==> e.win.maxWindow == maxWindow && e.win.now >= clock
    ensures StillForced(s, Happen(s, e), g, k)
  {
    match e {
      case PolicyPass(pin, tape) => PolicyPassForced(s, g, pin, tape, k);
      case WindowPass(j, input, tape) => WindowPassForced(s, g, j, input, tape, k, maxWindow, clock);
      case DeleteWindow(j) => DeletedForced(s, g, j, k);
      case ObjectGone(o) => GoneForced(s, g, o, k);
    }
  }

  /* ---- all runs ---- */

  /** Fail-open is permanent: over any run in which the forced window stays, under a fixed
      positive maxWindow and a clock that never goes back, ForcedCool stays stamped, the
      opening time and a set WindowUntil stay, and no field of the workload is raised. */
  lemma {:induction false} FailOpenIsPermanent(s: State, g: Ground, events: seq<Event>, k: WKey, maxWindow: int, clock: int)
    requires Sound(s, g) && (forall e :: e in events ==> Bound(g, e)) && Careful(s, g, events)
    requires Forced(s, k, maxWindow, clock) && Ticking(events, k, maxWindow, clock) && Stays(s, events, k)
    decreases |events|
    ensures k in Run(s, events).wins && StillForced(s, Run(s, events), g, k)
    ensures Forced(Run(s, events), k, maxWindow, clock)
  {
    if events != [] {
      var e := events[0];
      assert e in events;
      var s1 := Happen(s, e);
      ForcedStep(s, g, e, k, maxWindow, clock);
      StepKeeps(s, g, e);
      var later := if e.WindowPass? && e.key == k then e.win.now else clock;
      FailOpenIsPermanent(s1, g, events[1..], k, maxWindow, later);
      StillForcedChain(s, s1, Run(s1, events[1..]), g, k);
    }
  }

  /** And the gate denies no pod of the workload any more. */
  lemma FailOpenNeverDenies(s: State, g: Ground, events: seq<Event>, k: WKey, maxWindow: int, clock: int,
                            view: Gate.View, tape: seq<Outcome>)
    requires Sound(s, g) && (forall e :: e in events ==> Bound(g, e)) && Careful(s, g, events)
    requires Forced(s, k, maxWindow, clock) && Ticking(events, k, maxWindow, clock) && Stays(s, events, k)
    requires Gate.Watched(view) ==> Gate.KeyOfView(view) == k
    ensures Gate.EvaluateSpec(Start(Run(s, events), tape), view).1 != Success(Gate.Deny)
  {
    FailOpenIsPermanent(s, g, events, k, maxWindow, clock);
    Gate.ForcedNeverDenies(Start(Run(s, events), tape), view);
  }

  lemma OpeningStep(s: State, g: Ground, e: Event, k: WKey)
    requires Sound(s, g) && Bound(g, e) && k in s.wins && k in Happen(s, e).wins
    requires s.wins[k].status.lastScale.Some?
    ensures Happen(s, e).wins[k].status.lastScale == s.wins[k].status.lastScale
  {
    match e {
      case PolicyPass(pin, tape) => PolicyPassSpares(Start(s, tape), g, pin, k);
      case WindowPass(j, input, tape) =>
        if j == k { WindowPassMoves(Start(s, tape), k, input); } else { OtherWindow(Start(s, tape), j, k, input); }
      case DeleteWindow(j) =>
      case ObjectGone(o) =>
    }
  }

  /** LastScaleTime never changes once set, as long as the window is there: not by a refresh,
      a promotion, a deferral or an aborted cooldown. */
  lemma {:induction false} OpeningTimeIsFixed(s: State, g: Ground, events: seq<Event>, k: WKey)
    requires Sound(s, g) && (forall e :: e in events ==> Bound(g, e)) && Careful(s, g, events)
    requires Stays(s, events, k) && s.wins[k].status.lastScale.Some?
    decreases |events|
    ensures k in Run(s, events).wins && Run(s, events).wins[k].status.lastScale == s.wins[k].status.lastScale
  {
    if events != [] {
      assert events[0] in events;
      var s1 := Happen(s, events[0]);
      OpeningStep(s, g, events[0], k);
      StepKeeps(s, g, events[0]);
      OpeningTimeIsFixed(s1, g, events[1..], k);
    }
  }

  /* ---- the tombstone ---- */

  /** A closed forced window whose recorded node `n` is what keeps it. */
  predicate Tombstoned(s: State, k: WKey, n: string) {
    && k in s.wins && s.wins[k].status.phase == Closed && s.wins[k].status.forcedCool
    && s.wins[k].meta.finalizer && !s.wins[k].meta.deleting && n in s.wins[k].spec.nodes
  }

  /** The event sees `n` vulnerable and the policy and target there, and does not delete. */
  predicate Guards(e: Event, k: WKey, n: string) {
    match e
    case PolicyPass(pin, _) => pin.policy == k.policy ==> n in pin.vulnerable
    case WindowPass(j, win, _) => j == k ==> n in win.vulnerable && !win.policyGone && !win.targetGone
    case DeleteWindow(j) => j != k
    case ObjectGone(_) => true
  }

  lemma TombstonePass(w: World, k: WKey, n: string, input: WinIn)
    requires Tombstoned(End(w), k, n) && n in input.vulnerable && !input.policyGone && !input.targetGone
    ensures WindowPassSpec(w, k, input).w.wins == w.wins && WindowPassSpec(w, k, input).w.objs == w.objs
  {
    assert AnyVulnerable(w.wins[k].spec.nodes, input.vulnerable);
  }

  lemma TombstoneStep(s: State, g: Ground, e: Event, k: WKey, n: string)
    requires Sound(s, g) && Bound(g, e) && Tombstoned(s, k, n) && Guards(e, k, n)
    ensures var s1 := Happen(s, e);
            && k in s1.wins && s1.wins[k] == s.wins[k]
            && forall l :: l in g.cat && g.cat[l].owner == k ==> NotRaised(s, s1, g, l)
  {
    match e {
      case PolicyPass(pin, tape) => PolicyPassSpares(Start(s, tape), g, pin, k);
      case WindowPass(j, input, tape) =>
        if j == k {
          TombstonePass(Start(s, tape), k, n, input);
        } else {
          OtherWindow(Start(s, tape), j, k, input);
          WindowPassLowers(Start(s, tape), g, j, input);
        }
      case DeleteWindow(j) =>
      case ObjectGone(o) =>
    }
  }

  /** While a recorded node is still vulnerable, no interleaving of passes deletes, reopens
      or rewrites a tombstone, or raises a field of its workload. */
  lemma {:induction false} TombstoneHolds(s: State, g: Ground, events: seq<Event>, k: WKey, n: string)
    requires Sound(s, g) && (forall e :: e in events ==> Bound(g, e) && Guards(e, k, n)) && Careful(s, g, events)
    requires Tombstoned(s, k, n)
    decreases |events|
    ensures var s1 := Run(s, events);
            && k in s1.wins && s1.wins[k] == s.wins[k]
            && forall l :: l in g.cat && g.cat[l].owner == k ==> NotRaised(s, s1, g, l)
  {
    if events != [] {
      assert events[0] in events;
      var s1 := Happen(s, events[0]);
      TombstoneStep(s, g, events[0], k, n);
      StepKeeps(s, g, events[0]);
      TombstoneHolds(s1, g, events[1..], k, n);
      forall l | l in g.cat && g.cat[l].owner == k ensures NotRaised(s, Run(s, events), g, l) {
        assert NotRaised(s, s1, g, l) && NotRaised(s1, Run(s1, events[1..]), g, l);
      }
    }
  }

  /* ---- progress ---- */

  /** A pass over a live window that is past its deadline. */
  predicate Overdue(w: World, k: WKey, input: WinIn) {
    && k in w.wins && !w.wins[k].meta.deleting && w.wins[k].meta.finalizer
    && !input.policyGone && !input.targetGone && MaxWindowExceeded(input.maxWindow, w.wins[k], input.now)
  }

  lemma WrittenStatus(w: World, k: WKey, win: Window, input: WinIn, phase: Phase, msg: Msg)
    requires Stored(w, k, win)
    ensures var (w1, err) := WriteStatusSpec(w, k, win, input, phase, msg);
            err.None? ==> k in w1.wins && w1.wins[k].meta == win.meta && w1.wins[k].spec == win.spec
                          && w1.wins[k].status.phase == phase && w1.wins[k].status.forcedCool == win.status.forcedCool
  {
  }

  lemma ArmedStatus(w: World, k: WKey, win: Window, input: WinIn, forceCool: bool)
    requires Stored(w, k, win) && win.meta.finalizer
    ensures var o := ArmCooldownSpec(w, k, win, input, forceCool);
            o.err.None? ==>
              && o.requeue == input.scaleBackAfter && k in o.w.wins && o.w.wins[k].meta == win.meta
              && o.w.wins[k].spec == win.spec.(until := Some(input.now + input.scaleBackAfter))
              && o.w.wins[k].status.phase == Cooling && o.w.wins[k].status.forcedCool == win.status.forcedCool
  {
    var until := input.now + input.scaleBackAfter;
    var win1 := win.(spec := win.spec.(until := Some(until)));
    var (w1, perr) := PatchWinSpec(w, k, win1);
    if perr.None? {
      StampCooldownKeepsInts(w1, input.stampUntil, win.spec.actions, k.ns, Itoa(until));
      var (w2, serr) := StampCooldownSpec(w1, input.stampUntil, win.spec.actions, k.ns, Itoa(until));
      if serr.None? {
        WrittenStatus(w2, k, win1, input, Cooling, CoolingMessage(forceCool, win.status.forcedCool));
      }
    }
  }

  /** What a successful pass makes of an overdue window: a window not yet cooling is restored
      and starts to cool; once its cooldown is over it becomes a tombstone; a tombstone goes
      when none of its nodes is vulnerable. */
  ghost predicate Progressed(w: World, w1: World, k: WKey, input: WinIn)
    requires k in w.wins
  {
    var win := w.wins[k];
    if win.status.phase == Closed && win.status.forcedCool then
      if AnyVulnerable(win.spec.nodes, input.vulnerable) then w1.wins == w.wins && w1.objs == w.objs else k !in w1.wins
    else
      && k in w1.wins && w1.wins[k].status.forcedCool
      && (if win.spec.until.None? then
            w1.wins[k].spec.until == Some(input.now + input.scaleBackAfter) && w1.wins[k].status.phase == Cooling
          else
            w1.wins[k].spec.until == win.spec.until
            && w1.wins[k].status.phase == if input.now < win.spec.until.value then Cooling else Closed)
  }

  lemma LiveProgress(w: World, k: WKey, win: Window, input: WinIn)
    requires Stored(w, k, win) && win.meta.finalizer && MaxWindowExceeded(input.maxWindow, win, input.now)
    requires !(win.status.phase == Closed && win.status.forcedCool)
    ensures var o := LivePassSpec(w, k, win, input);
            o.err.None? ==> Progressed(w, o.w, k, input)
  {
    var seen := Observed(win, input);
    var (w1, err) := ObserveSpec(w, k, win, input);
    if err.None? {
      assert Stored(w1, k, seen);
      var dec := Decide(seen, input, true);
      if dec.step == BeginScaleBack {
        var acts := win.spec.actions;
        RestoreWins(w1, FillNs(acts, k.ns));
        var (w2, rerr) := RestoreSpec(w1, acts, k.ns);
        if rerr.None? { ArmedStatus(w2, k, seen, input, true); }
      } else {
        WrittenStatus(w1, k, seen, input, dec.phase, dec.message);
      }
    }
  }

  lemma OverduePass(w: World, k: WKey, input: WinIn)
    requires Overdue(w, k, input)
    ensures var o := WindowPassSpec(w, k, input);
            o.err.None? ==> Progressed(w, o.w, k, input)
  {
    var win := w.wins[k];
    var w3 := Rest(Rest(Rest(w)));
    if !(win.status.phase == Closed && win.status.forcedCool) { LiveProgress(w3, k, win, input); }
  }

  /** Forced cooling makes progress: a successful pass, made once a set WindowUntil is over,
      brings an overdue window strictly closer to being gone, unless it is a tombstone with a
      node that is still vulnerable; then the pass changes nothing. */
  lemma ForcedCoolingProgresses(w: World, k: WKey, input: WinIn)
    requires Overdue(w, k, input) && WindowPassSpec(w, k, input).err.None?
    requires w.wins[k].status.forcedCool
    requires w.wins[k].spec.until.Some? ==> input.now >= w.wins[k].spec.until.value
    ensures var w1 := WindowPassSpec(w, k, input).w;
            || (k in w1.wins && Rank(w1.wins[k]) < Rank(w.wins[k]))
            || (w.wins[k].status.phase == Closed
                && if AnyVulnerable(w.wins[k].spec.nodes, input.vulnerable) then w1.wins == w.wins && w1.objs == w.objs
                   else k !in w1.wins)
  {
    OverduePass(w, k, input);
  }
}
