/** Window passes at the times they ask for, with anything else going on in between. */
module Polling {
  import opened Types
  import opened Store
  import opened Spare
  import opened Clock
  import opened Plan
  import opened PlanRecords
  import opened WindowController
  import opened PolicyController
  import opened Ledger
  import opened WindowLedger
  import opened WindowEvolution
  import opened PolicyEvolution
  import opened Protocol
  import opened FailOpen
  import Fixpoint

  /** One pass over the window, and what happens until the next. */
  datatype Poll = Poll(input: WinIn, tape: seq<Outcome>, between: seq<Event>)

  /** Not a pass over the window, nor its deletion. */
  predicate Elsewhere(e: Event, k: WKey) {
    (e.WindowPass? ==> e.key != k) && (e.DeleteWindow? ==> e.key != k)
  }

  ghost predicate Meanwhile(s: State, g: Ground, between: seq<Event>, k: WKey)
    requires GoodGround(g)
  {
    (forall e :: e in between ==> Bound(g, e) && Elsewhere(e, k)) && Careful(s, g, between)
  }

  /** The window has its finalizer, is not on its way out and not closed. */
  predicate Live(s: State, k: WKey) {
    k in s.wins && s.wins[k].meta.finalizer && !s.wins[k].meta.deleting && s.wins[k].status.phase != Closed
  }

  lemma ElsewhereStep(s: State, g: Ground, e: Event, k: WKey)
    requires Sound(s, g) && Bound(g, e) && Elsewhere(e, k) && k in s.wins
    ensures k in Happen(s, e).wins && Ages(s.wins[k], Happen(s, e).wins[k])
  {
    match e {
      case PolicyPass(pin, tape) => PolicyPassSpares(Start(s, tape), g, pin, k);
      case WindowPass(j, input, tape) => OtherWindow(Start(s, tape), j, k, input);
      case DeleteWindow(j) =>
      case ObjectGone(o) =>
    }
  }

  lemma {:induction false} MeanwhileKeeps(s: State, g: Ground, between: seq<Event>, k: WKey)
    requires Sound(s, g) && Meanwhile(s, g, between, k) && k in s.wins
    decreases |between|
    ensures Sound(Run(s, between), g) && Stays(s, between, k)
    ensures k in Run(s, between).wins && Ages(s.wins[k], Run(s, between).wins[k])
  {
    if between != [] {
      var e := between[0];
      assert e in between;
      ElsewhereStep(s, g, e, k);
      StepKeeps(s, g, e);
      assert forall x :: x in between[1..] ==> x in between;
      MeanwhileKeeps(Happen(s, e), g, between[1..], k);
    }
  }

  ghost predicate AllOrdered(polls: seq<Poll>) { forall p, e :: p in polls && e in p.between ==> Ordered(e) }

  lemma TailPolls(polls: seq<Poll>)
    requires polls != []
    ensures AllOrdered(polls) ==> AllOrdered(polls[1..]) && forall e :: e in polls[0].between ==> Ordered(e)
  {
    assert polls[0] in polls && forall p :: p in polls[1..] ==> p in polls;
  }

  function Passed(s: State, k: WKey, p: Poll): WinOut { WindowPassSpec(Start(s, p.tape), k, p.input) }

  ghost function AfterPoll(s: State, k: WKey, p: Poll): State
    requires forall e :: e in p.between ==> Ordered(e)
  {
    Run(End(Passed(s, k, p).w), p.between)
  }

  /* ---- a pass that stays open ---- */

  /** What the pass sees keeps the window open. */
  predicate StaysOpen(win: Window, input: WinIn) {
    LiveAtRisk(input.pods, input.vulnerable) > 0 || SafeCount(input.pods, win.spec.nodes) < win.spec.baseline
  }

  lemma StayOpenResult(w: World, k: WKey, win: Window, input: WinIn, dec: Decision)
    requires Stored(w, k, win) && dec.phase == Open && dec.abort
    requires HeldByFinalizer(win)
    ensures var o := StayOpenSpec(w, k, win, input, dec);
            o.err.None? ==>
              && o.requeue == OpenRequeue(input.maxWindow, win, input.now) && k in o.w.wins
              && o.w.wins[k].meta == win.meta && o.w.wins[k].status.phase == Open
              && o.w.wins[k].status.lastScale == win.status.lastScale && o.w.wins[k].status.forcedCool == win.status.forcedCool
  {
    var win1 := win.(spec := win.spec.(until := None));
    var (w1, aerr) := AbortCooldownSpec(w, k, win, input);
    StampCooldownKeepsInts(PatchWinSpec(w, k, win1).0, input.stampUntil, win.spec.actions, k.ns, "");
    if aerr.None? {
      assert Stored(w1, k, win1);
      WrittenStatus(w1, k, win1, input, dec.phase, dec.message);
      StatusKept(w1, k, win1, input, dec.message);
    }
  }

  lemma StatusKept(w: World, k: WKey, win: Window, input: WinIn, msg: Msg)
    requires Stored(w, k, win)
    ensures var (w1, err) := WriteStatusSpec(w, k, win, input, Open, msg);
            err.None? ==> k in w1.wins && w1.wins[k].status.lastScale == win.status.lastScale
  {
  }

  lemma LiveStayOpen(w: World, k: WKey, win: Window, input: WinIn)
    requires Stored(w, k, win) && StaysOpen(win, input) && !MaxWindowExceeded(input.maxWindow, win, input.now)
    requires win.meta.finalizer
    ensures var o := LivePassSpec(w, k, win, input);
            o.err.None? ==>
              && o.requeue == OpenRequeue(input.maxWindow, win, input.now) && k in o.w.wins
              && o.w.wins[k].meta == win.meta && o.w.wins[k].status.phase == Open
              && o.w.wins[k].status.lastScale == win.status.lastScale && o.w.wins[k].status.forcedCool == win.status.forcedCool
  {
    var (w1, err) := ObserveSpec(w, k, win, input);
    StayOpenResult(w1, k, win, input, Decide(win, input, false));
  }

  /** A successful pass that stays open asks for the next one at OpenRequeue of the stored
      window, and keeps its opening time. */
  lemma OpenPassRequeues(s: State, k: WKey, p: Poll)
    requires Live(s, k) && !p.input.policyGone && !p.input.targetGone && Passed(s, k, p).err.None?
    requires StaysOpen(s.wins[k], p.input) && !MaxWindowExceeded(p.input.maxWindow, s.wins[k], p.input.now)
    ensures var o := Passed(s, k, p);
            && o.requeue == OpenRequeue(p.input.maxWindow, s.wins[k], p.input.now)
            && Live(End(o.w), k) && o.w.wins[k].status.phase == Open
            && o.w.wins[k].meta == s.wins[k].meta && o.w.wins[k].status.lastScale == s.wins[k].status.lastScale
  {
    var w := Start(s, p.tape);
    LiveStayOpen(Rest(Rest(Rest(w))), k, s.wins[k], p.input);
    LivePassReached(w, k, p.input);
  }

  lemma LivePassReached(w: World, k: WKey, input: WinIn)
    requires k in w.wins && w.wins[k].meta.finalizer && !w.wins[k].meta.deleting
    requires !(w.wins[k].status.phase == Closed && w.wins[k].status.forcedCool)
    requires !input.policyGone && !input.targetGone && WindowPassSpec(w, k, input).err.None?
    ensures WindowPassSpec(w, k, input) == LivePassSpec(Rest(Rest(Rest(w))), k, w.wins[k], input)
  {
  }

  /* ---- polling up to the deadline ---- */

  /** The i-th poll: a successful pass that sees policy and target and, before the deadline,
      finds a reason to stay open; what happens meanwhile leads to the next state, and the next
      poll comes when this one asked for it. */
  ghost predicate PollAt(g: Ground, k: WKey, maxWindow: int, states: seq<State>, polls: seq<Poll>, i: nat)
    requires GoodGround(g) && |states| == |polls| && i < |polls|
  {
    var s, p := states[i], polls[i];
    && k in s.wins && p.input.maxWindow == maxWindow && !p.input.policyGone && !p.input.targetGone
    && Passed(s, k, p).err.None?
    && (!MaxWindowExceeded(maxWindow, s.wins[k], p.input.now) ==> StaysOpen(s.wins[k], p.input))
    && (i + 1 < |polls| ==>
          && Meanwhile(End(Passed(s, k, p).w), g, p.between, k) && states[i + 1] == AfterPoll(s, k, p)
          && polls[i + 1].input.now == p.input.now + Passed(s, k, p).requeue)
  }

  ghost predicate Polled(g: Ground, k: WKey, maxWindow: int, states: seq<State>, polls: seq<Poll>)
    requires GoodGround(g)
  {
    |states| == |polls| && forall i :: 0 <= i < |polls| ==> PollAt(g, k, maxWindow, states, polls, i)
  }

  /** Where a poll before the deadline starts from: a live window opened at `openedAt`, which
      stays so when LastScaleTime says it, or when nothing else happens. */
  ghost predicate Pending(s: State, g: Ground, k: WKey, openedAt: int, alone: bool) {
    && Sound(s, g) && Live(s, k) && WindowOpenedAt(s.wins[k]) == Some(openedAt)
    && (s.wins[k].status.lastScale.Some? || alone)
  }

  lemma PollNext(g: Ground, k: WKey, maxWindow: int, openedAt: int, alone: bool, states: seq<State>, polls: seq<Poll>, i: nat)
    requires GoodGround(g) && Polled(g, k, maxWindow, states, polls) && i + 1 < |polls| && maxWindow > 0
    requires Pending(states[i], g, k, openedAt, alone) && (alone ==> polls[i].between == [])
    requires polls[i].input.now < openedAt + maxWindow
    ensures Pending(states[i + 1], g, k, openedAt, alone)
    ensures var now, next, deadline := polls[i].input.now, polls[i + 1].input.now, openedAt + maxWindow;
            now < next && (next == deadline <= now + REQUEUE_OPEN || (next < deadline && next == now + REQUEUE_OPEN))
  {
    assert PollAt(g, k, maxWindow, states, polls, i);
    PollKeeps(states[i], g, k, polls[i]);
  }

  lemma PollLast(g: Ground, k: WKey, maxWindow: int, openedAt: int, alone: bool, states: seq<State>, polls: seq<Poll>, i: nat)
    requires GoodGround(g) && Polled(g, k, maxWindow, states, polls) && i < |polls| && maxWindow > 0
    requires Pending(states[i], g, k, openedAt, alone) && polls[i].input.now >= openedAt + maxWindow
    ensures var w1 := Passed(states[i], k, polls[i]).w; k in w1.wins && w1.wins[k].status.forcedCool
  {
    assert PollAt(g, k, maxWindow, states, polls, i);
    DeadlinePass(states[i], k, polls[i]);
  }

  lemma {:induction false} PollsReach(g: Ground, k: WKey, maxWindow: int, openedAt: int, alone: bool,
                                      states: seq<State>, polls: seq<Poll>, i: nat)
    requires GoodGround(g) && Polled(g, k, maxWindow, states, polls) && i < |polls| && maxWindow > 0
    requires Pending(states[i], g, k, openedAt, alone) && (alone ==> forall j :: 0 <= j < |polls| ==> polls[j].between == [])
    requires polls[i].input.now < openedAt + maxWindow && |polls| - 1 - i == PollsLeft(openedAt + maxWindow - polls[i].input.now)
    decreases |polls| - i
    ensures var n := |polls| - 1;
            && polls[n].input.now == openedAt + maxWindow && Pending(states[n], g, k, openedAt, alone)
            && forall j :: i <= j < n ==> polls[j].input.now < openedAt + maxWindow
  {
    var left := openedAt + maxWindow - polls[i].input.now;
    assert PollsLeft(left) == 1 + PollsLeft(left - REQUEUE_OPEN);
    PollNext(g, k, maxWindow, openedAt, alone, states, polls, i);
    if polls[i + 1].input.now == openedAt + maxWindow {
      assert PollsLeft(left - REQUEUE_OPEN) == 0;
    } else {
      PollsReach(g, k, maxWindow, openedAt, alone, states, polls, i + 1);
    }
  }

  /** Polling never misses the deadline: successful passes at the times they ask for reach it
      exactly, with the ceil(remaining / 15s)-th of them after the first, and the pass made then
      leaves ForcedCool stamped, whatever other passes do in between. (`alone` covers a window
      without LastScaleTime, whose opening time is fixed only while nothing else happens.) */
  lemma PollsForceCool(g: Ground, k: WKey, maxWindow: int, openedAt: int, alone: bool, states: seq<State>, polls: seq<Poll>)
    requires GoodGround(g) && Polled(g, k, maxWindow, states, polls) && polls != [] && maxWindow > 0
    requires Pending(states[0], g, k, openedAt, alone) && (alone ==> forall j :: 0 <= j < |polls| ==> polls[j].between == [])
    requires var left := openedAt + maxWindow - polls[0].input.now;
             left > 0 && |polls| - 1 == (left + REQUEUE_OPEN - 1) / REQUEUE_OPEN
    ensures var n := |polls| - 1;
            var w1 := Passed(states[n], k, polls[n]).w;
            && polls[n].input.now == openedAt + maxWindow && (forall j :: 0 <= j < n ==> polls[j].input.now < openedAt + maxWindow)
            && k in w1.wins && w1.wins[k].status.forcedCool
  {
    PollsLeftIsCeil(openedAt + maxWindow - polls[0].input.now);
    PollsReach(g, k, maxWindow, openedAt, alone, states, polls, 0);
    PollLast(g, k, maxWindow, openedAt, alone, states, polls, |polls| - 1);
  }

  /** One poll that stays open, and what happens until the next. */
  lemma PollKeeps(s: State, g: Ground, k: WKey, p: Poll)
    requires Sound(s, g) && Live(s, k) && !p.input.policyGone && !p.input.targetGone && Passed(s, k, p).err.None?
    requires StaysOpen(s.wins[k], p.input) && !MaxWindowExceeded(p.input.maxWindow, s.wins[k], p.input.now)
    requires Meanwhile(End(Passed(s, k, p).w), g, p.between, k)
    requires s.wins[k].status.lastScale.Some? || p.between == []
    ensures var s1 := AfterPoll(s, k, p);
            && Sound(s1, g) && Live(s1, k) && WindowOpenedAt(s1.wins[k]) == WindowOpenedAt(s.wins[k])
            && s1.wins[k].status.lastScale == s.wins[k].status.lastScale
            && (p.input.maxWindow > 0 && WindowOpenedAt(s.wins[k]).Some? ==>
                  var next, deadline := p.input.now + Passed(s, k, p).requeue, WindowOpenedAt(s.wins[k]).value + p.input.maxWindow;
                  && p.input.now < next
                  && (next == deadline <= p.input.now + REQUEUE_OPEN || (next < deadline && next == p.input.now + REQUEUE_OPEN)))
  {
    OpenPassRequeues(s, k, p);
    WindowPassKeeps(Start(s, p.tape), g, k, p.input);
    MeanwhileKeeps(End(Passed(s, k, p).w), g, p.between, k);
  }

  lemma DeadlinePass(s: State, k: WKey, p: Poll)
    requires Live(s, k) && !p.input.policyGone && !p.input.targetGone && Passed(s, k, p).err.None?
    requires MaxWindowExceeded(p.input.maxWindow, s.wins[k], p.input.now)
    ensures var w1 := Passed(s, k, p).w; k in w1.wins && w1.wins[k].status.forcedCool
  {
    OverduePass(Start(s, p.tape), k, p.input);
  }

  /* ---- from ForcedCool to gone ---- */

  lemma {:induction false} ElsewhereTicks(between: seq<Event>, k: WKey, maxWindow: int, clock: int)
    requires forall e :: e in between ==> Elsewhere(e, k)
    decreases |between|
    ensures Ticking(between, k, maxWindow, clock)
  {
    if between != [] {
      assert between[0] in between;
      ElsewhereTicks(between[1..], k, maxWindow, clock);
    }
  }

  /** Successful passes over an overdue window, none before a set WindowUntil is over. */
  ghost predicate DuePolls(s: State, g: Ground, k: WKey, maxWindow: int, polls: seq<Poll>)
    requires GoodGround(g)
    decreases |polls|
  {
    polls != [] && k in s.wins ==>
      var p := polls[0];
      && Overdue(Start(s, p.tape), k, p.input) && p.input.maxWindow == maxWindow && Passed(s, k, p).err.None?
      && (s.wins[k].spec.until.Some? ==> p.input.now >= s.wins[k].spec.until.value)
      && Meanwhile(End(Passed(s, k, p).w), g, p.between, k)
      && DuePolls(AfterPoll(s, k, p), g, k, maxWindow, polls[1..])
  }

  /** One of the passes deletes the window, or finds a tombstone that a vulnerable node holds. */
  ghost predicate GoneOrHeld(s: State, k: WKey, polls: seq<Poll>)
    requires AllOrdered(polls)
    decreases |polls|
  {
    polls != [] && k in s.wins &&
      var p := polls[0];
      TailPolls(polls);
      || k !in Passed(s, k, p).w.wins
      || (s.wins[k].status.phase == Closed && AnyVulnerable(s.wins[k].spec.nodes, p.input.vulnerable))
      || GoneOrHeld(AfterPoll(s, k, p), k, polls[1..])
  }

  /** Forced cooling ends: as many due passes as the rank, so at most three, bring a forced
      window to its deletion or to a held tombstone, whatever other passes do in between. */
  lemma {:induction false} ThreePassesSuffice(s: State, g: Ground, k: WKey, maxWindow: int, clock: int, polls: seq<Poll>)
    requires Sound(s, g) && Forced(s, k, maxWindow, clock) && |polls| >= Rank(s.wins[k])
    requires DuePolls(s, g, k, maxWindow, polls) && AllOrdered(polls)
    decreases |polls|
    ensures Rank(s.wins[k]) <= 3 && GoneOrHeld(s, k, polls)
  {
    TailPolls(polls);
    var p := polls[0];
    var s0 := End(Passed(s, k, p).w);
    ForcedCoolingProgresses(Start(s, p.tape), k, p.input);
    if k in s0.wins && !(s.wins[k].status.phase == Closed && AnyVulnerable(s.wins[k].spec.nodes, p.input.vulnerable)) {
      OverduePass(Start(s, p.tape), k, p.input);
      WindowPassMoves(Start(s, p.tape), k, p.input);
      WindowPassKeeps(Start(s, p.tape), g, k, p.input);
      assert Forced(s0, k, maxWindow, p.input.now);
      MeanwhileKeeps(s0, g, p.between, k);
      ElsewhereTicks(p.between, k, maxWindow, p.input.now);
      FailOpenIsPermanent(s0, g, p.between, k, maxWindow, p.input.now);
      ThreePassesSuffice(AfterPoll(s, k, p), g, k, maxWindow, p.input.now, polls[1..]);
    }
  }

  /* ---- from covered to gone ---- */

  /** The window has its finalizer, is not on its way out and was never forced. */
  predicate Unforced(s: State, k: WKey) {
    k in s.wins && s.wins[k].meta.finalizer && !s.wins[k].meta.deleting && !s.wins[k].status.forcedCool
  }

  /** A successful pass, within the deadline, that finds no live pod at risk and the baseline
      covered by safe pods. */
  predicate ClearPoll(s: State, k: WKey, p: Poll) {
    && k in s.wins && !p.input.policyGone && !p.input.targetGone && Passed(s, k, p).err.None?
    && LiveAtRisk(p.input.pods, p.input.vulnerable) == 0 && SafeCount(p.input.pods, s.wins[k].spec.nodes) >= s.wins[k].spec.baseline
    && !MaxWindowExceeded(p.input.maxWindow, s.wins[k], p.input.now)
  }

  /** The window starts to cool, goes on cooling until WindowUntil, when the next pass is asked
      for, and then is gone. */
  predicate CoolsOrGoes(win: Window, k: WKey, input: WinIn, o: WinOut) {
    if win.spec.until.Some? && input.now >= win.spec.until.value then k !in o.w.wins
    else
      && Unforced(End(o.w), k) && o.w.wins[k].status.phase == Cooling && o.w.wins[k].spec.until == Some(input.now + o.requeue)
      && (if win.spec.until.Some? then o.w.wins[k].spec.until == win.spec.until else o.requeue == input.scaleBackAfter)
  }

  lemma DeletedGone(w: World, k: WKey, win: Window)
    requires k in w.wins && w.wins[k].meta == win.meta && win.meta.finalizer && !win.meta.deleting
    ensures var o := DeleteClosedSpec(w, k, win);
            o.err.None? ==> k !in o.w.wins
  {
  }

  lemma ClearBegins(w: World, k: WKey, win: Window, input: WinIn)
    requires Stored(w, k, win) && Unforced(End(w), k) && win.spec.until.None?
    ensures var o := BeginScaleBackSpec(w, k, win, input, false);
            o.err.None? ==> CoolsOrGoes(win, k, input, o)
  {
    RestoreWins(w, FillNs(win.spec.actions, k.ns));
    var (w1, rerr) := RestoreSpec(w, win.spec.actions, k.ns);
    if rerr.None? { ArmedStatus(w1, k, win, input, false); }
  }

  lemma ClearCloses(w: World, k: WKey, win: Window, input: WinIn, dec: Decision)
    requires Stored(w, k, win) && Unforced(End(w), k) && !dec.retain
    ensures var o := CloseSpec(w, k, win, input, dec);
            o.err.None? ==> k !in o.w.wins
  {
    WrittenStatus(w, k, win, input, dec.phase, dec.message);
    var (w1, err) := WriteStatusSpec(w, k, win, input, dec.phase, dec.message);
    if err.None? { DeletedGone(w1, k, win); }
  }

  lemma ClearActs(w: World, k: WKey, win: Window, input: WinIn)
    requires Stored(w, k, win) && Unforced(End(w), k) && LiveAtRisk(input.pods, input.vulnerable) == 0
    requires SafeCount(input.pods, win.spec.nodes) >= win.spec.baseline
    ensures var o := ActSpec(w, k, win, input, false, Decide(win, input, false));
            o.err.None? ==> CoolsOrGoes(win, k, input, o)
  {
    var dec := Decide(win, input, false);
    if win.spec.until.None? {
      ClearBegins(w, k, win, input);
    } else if dec.step == Close {
      ClearCloses(w, k, win, input, dec);
    } else {
      WrittenStatus(w, k, win, input, dec.phase, dec.message);
    }
  }

  lemma ClearPass(s: State, k: WKey, p: Poll)
    requires Unforced(s, k) && ClearPoll(s, k, p)
    ensures CoolsOrGoes(s.wins[k], k, p.input, Passed(s, k, p))
  {
    var w, win := Start(s, p.tape), s.wins[k];
    var w3 := Rest(Rest(Rest(w)));
    LivePassReached(w, k, p.input);
    var (w4, err) := ObserveSpec(w3, k, win, p.input);
    ClearActs(w4, k, win, p.input);
  }

  lemma UncountedWindow(s: State, g: Ground, e: Event, k: WKey)
    requires Sound(s, g) && Bound(g, e) && Elsewhere(e, k) && Fixpoint.Uncounted(e, k) && k in s.wins
    ensures k in Happen(s, e).wins && Forgets(s.wins[k], Happen(s, e).wins[k], {})
  {
    match e {
      case PolicyPass(pin, tape) => UncountedPass(Start(s, tape), g, pin, k);
      case WindowPass(j, input, tape) => OtherWindow(Start(s, tape), j, k, input);
      case DeleteWindow(j) =>
      case ObjectGone(o) =>
    }
  }

  /** While no pass counts the workload, others leave its window but for the nodes. */
  lemma {:induction false} UncountedMeanwhile(s: State, g: Ground, between: seq<Event>, k: WKey)
    requires Sound(s, g) && Meanwhile(s, g, between, k) && k in s.wins
    requires forall e :: e in between ==> Fixpoint.Uncounted(e, k)
    decreases |between|
    ensures var s1 := Run(s, between);
            Sound(s1, g) && k in s1.wins && Forgets(s.wins[k], s1.wins[k], {})
  {
    if between != [] {
      var e := between[0];
      assert e in between && forall x :: x in between[1..] ==> x in between;
      UncountedWindow(s, g, e, k);
      StepKeeps(s, g, e);
      UncountedMeanwhile(Happen(s, e), g, between[1..], k);
    }
  }

  /** Back to normal: once no live pod is at risk and the baseline is covered, two successful
      passes at the times they ask for restore the workload, cool the window and delete it, as
      long as no pass in between finds the workload at risk again. */
  lemma TwoPassesSuffice(s: State, g: Ground, k: WKey, first: Poll, second: Poll)
    requires Sound(s, g) && Unforced(s, k) && ClearPoll(s, k, first)
    requires Meanwhile(End(Passed(s, k, first).w), g, first.between, k)
    requires forall e :: e in first.between ==> Fixpoint.Uncounted(e, k)
    requires k in Passed(s, k, first).w.wins ==>
               && second.input.now == first.input.now + Passed(s, k, first).requeue
               && ClearPoll(AfterPoll(s, k, first), k, second)
    ensures var s0 := End(Passed(s, k, first).w);
            var s1 := AfterPoll(s, k, first);
            var s2 := End(Passed(s1, k, second).w);
            && Restored(s0.objs, g, k)
            && (k in s0.wins ==> k !in s2.wins && Restored(s1.objs, g, k) && Restored(s2.objs, g, k))
  {
    var s0 := End(Passed(s, k, first).w);
    ClearPass(s, k, first);
    WindowPassKeeps(Start(s, first.tape), g, k, first.input);
    IdleIsRestored(s0, g, k);
    if k in s0.wins {
      var s1 := AfterPoll(s, k, first);
      UncountedMeanwhile(s0, g, first.between, k);
      ClearPass(s1, k, second);
      WindowPassKeeps(Start(s1, second.tape), g, k, second.input);
      IdleIsRestored(s1, g, k);
      IdleIsRestored(End(Passed(s1, k, second).w), g, k);
    }
  }

  lemma IdleIsRestored(s: State, g: Ground, k: WKey)
    requires Sound(s, g) && (k in s.wins ==> s.wins[k].spec.until.Some?)
    ensures Restored(s.objs, g, k)
  {
    QuietUnlessOwed(s.objs, s.wins, g, k);
    QuietIsRestored(s.objs, s.wins, g, k);
  }
}
