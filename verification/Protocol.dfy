/** Whole runs: passes of both controllers, deletions and vanished objects, one after the
    other, each stopping wherever its answers make it stop. */
module Protocol {
  import opened Types
  import opened Store
  import opened Plan
  import opened WindowController
  import opened PolicyController
  import opened Ledger
  import opened WindowLedger
  import opened WindowEvolution
  import opened PolicyLedger

  datatype State = State(objs: map<Obj, ObjState>, wins: map<WKey, Window>)

  /** Every pass brings the answers it will get; a short tape is a pass that stops early.
      DeleteWindow is a deletion from outside, such as the clean-up of a deleted policy. */
  datatype Event =
    | PolicyPass(pin: PolicyIn, tape: seq<Outcome>)
    | WindowPass(key: WKey, win: WinIn, tape: seq<Outcome>)
    | DeleteWindow(key: WKey)
    | ObjectGone(obj: Obj)

  function Start(s: State, tape: seq<Outcome>): World { World(s.objs, s.wins, tape) }

  function End(w: World): State { State(w.objs, w.wins) }

  ghost predicate Ordered(e: Event) { e.PolicyPass? ==> GoodOrder(e.pin) }

  ghost function Happen(s: State, e: Event): State
    requires Ordered(e)
  {
    match e
    case PolicyPass(pin, tape) => End(PolicyPassSpec(Start(s, tape), pin).w)
    case WindowPass(k, win, tape) => End(WindowPassSpec(Start(s, tape), k, win).w)
    case DeleteWindow(k) => End(Deleted(Start(s, []), k))
    case ObjectGone(o) => s.(objs := s.objs - {o})
  }

  ghost function Run(s: State, events: seq<Event>): State
    requires forall e :: e in events ==> Ordered(e)
    decreases |events|
  {
    if events == [] then s
    else
      assert events[0] in events;
      Run(Happen(s, events[0]), events[1..])
  }

  ghost predicate Sound(s: State, g: Ground) { Inv(s.objs, s.wins, g) }

  /** Every plan of the event binds at least one field, and only fields of the ground. */
  ghost predicate Bound(g: Ground, e: Event)
    requires GoodGround(g)
  {
    Ordered(e) && (e.PolicyPass? ==> FitsPass(g, e.pin))
  }

  /** An outside deletion that loses nothing. */
  ghost predicate Harmless(s: State, g: Ground, k: WKey)
    requires GoodGround(g)
  {
    k !in s.wins || s.wins[k].meta.finalizer || Quiet(s.objs, g, k)
  }

  /** All outside deletions of the run are harmless when they come. */
  ghost predicate Careful(s: State, g: Ground, events: seq<Event>)
    requires GoodGround(g) && forall e :: e in events ==> Bound(g, e)
    decreases |events|
  {
    events != [] ==>
      assert Bound(g, events[0]) by { assert events[0] in events; }
      (events[0].DeleteWindow? ==> Harmless(s, g, events[0].key)) && Careful(Happen(s, events[0]), g, events[1..])
  }

  /** The event sees the window's policy and target. */
  predicate Firm(e: Event) { e.WindowPass? ==> !e.win.policyGone && !e.win.targetGone }

  /* ---- one event ---- */

  lemma GoneKeeps(s: State, g: Ground, o: Obj)
    requires Sound(s, g)
    ensures Sound(s.(objs := s.objs - {o}), g)
  {
    var objs1 := s.objs - {o};
    forall l | l in g.cat && l.obj in objs1 ensures Val(objs1, l) == Val(s.objs, l) {}
    forall l | l in g.cat && Raised(objs1, g, l) ensures Raised(s.objs, g, l) {}
  }

  lemma StepKeeps(s: State, g: Ground, e: Event)
    requires Sound(s, g) && Bound(g, e) && (e.DeleteWindow? ==> Harmless(s, g, e.key))
    ensures Sound(Happen(s, e), g)
  {
    match e {
      case PolicyPass(pin, tape) => PolicyPassKeeps(Start(s, tape), g, pin);
      case WindowPass(k, win, tape) => WindowPassKeeps(Start(s, tape), g, k, win);
      case DeleteWindow(k) => DeletedKeeps(Start(s, []), g, k);
      case ObjectGone(o) => GoneKeeps(s, g, o);
    }
  }

  /** An outside deletion keeps the invariant exactly when it is harmless. */
  lemma DeletionKeepsIffHarmless(s: State, g: Ground, k: WKey)
    requires Sound(s, g)
    ensures Sound(Happen(s, DeleteWindow(k)), g) <==> Harmless(s, g, k)
  {
    if Harmless(s, g, k) {
      DeletedKeeps(Start(s, []), g, k);
    } else {
      assert Deleted(Start(s, []), k).wins == s.wins - {k};
    }
  }

  lemma FirmStep(s: State, g: Ground, e: Event)
    requires Sound(s, g) && Bound(g, e) && Firm(e) && Pinned(s.wins)
    ensures (e.DeleteWindow? ==> Harmless(s, g, e.key)) && Pinned(Happen(s, e).wins)
  {
    match e {
      case PolicyPass(pin, tape) => PolicyPassKeeps(Start(s, tape), g, pin);
      case WindowPass(k, win, tape) => FirmWindowPass(s, k, win, tape);
      case DeleteWindow(k) =>
        if k in s.wins && !s.wins[k].meta.finalizer { QuietUnlessOwed(s.objs, s.wins, g, k); }
      case ObjectGone(o) =>
    }
  }

  lemma FirmWindowPass(s: State, k: WKey, win: WinIn, tape: seq<Outcome>)
    requires Pinned(s.wins) && !win.policyGone && !win.targetGone
    ensures Pinned(WindowPassSpec(Start(s, tape), k, win).w.wins)
  {
    WindowPassMoves(Start(s, tape), k, win);
    var wins1 := WindowPassSpec(Start(s, tape), k, win).w.wins;
    forall j | j in wins1 && !wins1[j].meta.finalizer ensures wins1[j].status.phase == Closed {
      if j != k { assert j in wins1 - {k} && j in s.wins - {k}; }
    }
  }

  /* ---- all runs ---- */

  /** The write-ahead invariant holds after every run, at every point where a pass may stop. */
  lemma {:induction false} RunKeeps(s: State, g: Ground, events: seq<Event>)
    requires Sound(s, g) && (forall e :: e in events ==> Bound(g, e)) && Careful(s, g, events)
    decreases |events|
    ensures Sound(Run(s, events), g)
  {
    if events != [] {
      assert events[0] in events;
      StepKeeps(s, g, events[0]);
      RunKeeps(Happen(s, events[0]), g, events[1..]);
    }
  }

  /** While policies and targets are there, no outside deletion ever loses anything. */
  lemma {:induction false} FirmRun(s: State, g: Ground, events: seq<Event>)
    requires Sound(s, g) && Pinned(s.wins) && forall e :: e in events ==> Bound(g, e) && Firm(e)
    decreases |events|
    ensures Careful(s, g, events) && Sound(Run(s, events), g) && Pinned(Run(s, events).wins)
  {
    if events != [] {
      assert events[0] in events;
      FirmStep(s, g, events[0]);
      StepKeeps(s, g, events[0]);
      FirmRun(Happen(s, events[0]), g, events[1..]);
    }
  }

  /** What a plan reads at the field: its value, or the default of its binding. */
  function Reads(objs: map<Obj, ObjState>, g: Ground, l: Loc): Option<int>
    requires l in g.cat
  {
    match Val(objs, l)
    case Some(v) => Some(v)
    case None => if g.cat[l].dflt.Some? then Some(g.cat[l].dflt.value) else None
  }

  predicate AtOriginal(objs: map<Obj, ObjState>, g: Ground, l: Loc)
    requires l in g.cat && l in g.orig
  {
    l.obj in objs && Reads(objs, g, l).Some? ==> Reads(objs, g, l).value == g.orig[l]
  }

  /** All the fields of the workload that get restored read as they did originally. */
  ghost predicate Restored(objs: map<Obj, ObjState>, g: Ground, k: WKey)
    requires GoodGround(g)
  {
    forall l :: l in g.cat && g.cat[l].owner == k && !g.cat[l].skip ==> AtOriginal(objs, g, l)
  }

  lemma QuietIsRestored(objs: map<Obj, ObjState>, wins: map<WKey, Window>, g: Ground, k: WKey)
    requires Inv(objs, wins, g)
    ensures Quiet(objs, g, k) <==> Restored(objs, g, k)
  {
    if Quiet(objs, g, k) {
      forall l | l in g.cat && g.cat[l].owner == k && !g.cat[l].skip ensures AtOriginal(objs, g, l) {
        assert !Raised(objs, g, l);
      }
    } else {
      var l :| l in g.cat && g.cat[l].owner == k && !g.cat[l].skip && Raised(objs, g, l);
      assert !AtOriginal(objs, g, l);
    }
  }

  /** With no window, and fields that read as the ground says, a run can start. */
  lemma CleanStart(objs: map<Obj, ObjState>, g: Ground)
    requires GoodGround(g) && forall l :: l in g.cat ==> AtOriginal(objs, g, l)
    ensures Sound(State(objs, map[]), g) && Pinned(map[])
  {
    forall l | l in g.cat ensures !Raised(objs, g, l) {
      assert AtOriginal(objs, g, l);
    }
    forall l | l in g.cat && l.obj in objs ensures NotBelow(objs, g, l) {
      assert AtOriginal(objs, g, l);
    }
  }

  /** Write-ahead: after any run every raised field that gets restored is listed, with its
      original value as baseline, in the stored actions of its workload's unclosed window. */
  lemma WriteAhead(s: State, g: Ground, events: seq<Event>, l: Loc)
    requires Sound(s, g) && (forall e :: e in events ==> Bound(g, e)) && Careful(s, g, events)
    requires l in g.cat && !g.cat[l].skip
    ensures var s1 := Run(s, events);
            var k := g.cat[l].owner;
            Raised(s1.objs, g, l) ==>
              && k in s1.wins && s1.wins[k].spec.until.None? && s1.wins[k].status.phase != Closed
              && exists a :: a in s1.wins[k].spec.actions && ActionLoc(a) == l && a.baseline == g.orig[l] && !a.skip
  {
    RunKeeps(s, g, events);
    var s1 := Run(s, events);
    var k := g.cat[l].owner;
    if Raised(s1.objs, g, l) {
      var a :| a in s1.wins[k].spec.actions && ActionLoc(a) == l;
      assert Fits(g, k, a);
    }
  }

  /** Crash-consistent restore: after any run a window with WindowUntil set, or Closed, and
      equally a workload without a window, has every restorable field back. */
  lemma CoolingMeansRestored(s: State, g: Ground, events: seq<Event>, k: WKey)
    requires Sound(s, g) && (forall e :: e in events ==> Bound(g, e)) && Careful(s, g, events)
    ensures var s1 := Run(s, events);
            (k in s1.wins && s1.wins[k].spec.until.None? && s1.wins[k].status.phase != Closed) || Restored(s1.objs, g, k)
  {
    RunKeeps(s, g, events);
    var s1 := Run(s, events);
    if k !in s1.wins || s1.wins[k].spec.until.Some? || s1.wins[k].status.phase == Closed {
      QuietUnlessOwed(s1.objs, s1.wins, g, k);
      QuietIsRestored(s1.objs, s1.wins, g, k);
    }
  }

  /** Round trip: after any run the first restore of the stored record that reports no error
      puts every restorable field back to the value it had before the first raise. */
  lemma RoundTrip(s: State, g: Ground, events: seq<Event>, k: WKey, tape: seq<Outcome>)
    requires Sound(s, g) && (forall e :: e in events ==> Bound(g, e)) && Careful(s, g, events)
    requires k in Run(s, events).wins
    ensures var s1 := Run(s, events);
            var (w, err) := RestoreSpec(Start(s1, tape), s1.wins[k].spec.actions, k.ns);
            && (err.None? ==> Restored(w.objs, g, k))
            && NeverBelow(s1.objs, g)
            && forall a :: a in s1.wins[k].spec.actions && !a.skip ==>
                 ActionLoc(a) in g.orig && a.baseline == g.orig[ActionLoc(a)]
  {
    RunKeeps(s, g, events);
    var s1 := Run(s, events);
    var win := s1.wins[k];
    RestoreKeeps(Start(s1, tape), g, k, win);
    var (w, err) := RestoreSpec(Start(s1, tape), win.spec.actions, k.ns);
    if err.None? { QuietIsRestored(w.objs, w.wins, g, k); }
    forall a | a in win.spec.actions && !a.skip ensures ActionLoc(a) in g.orig && a.baseline == g.orig[ActionLoc(a)] {
      assert Fits(g, k, a);
    }
  }

  /** The finalizer of a window goes only when everything it raised is back. */
  lemma ReleasedMeansRestored(s: State, g: Ground, events: seq<Event>, last: Event, k: WKey)
    requires Sound(s, g) && (forall e :: e in events ==> Bound(g, e)) && Careful(s, g, events)
    requires Bound(g, last) && Finalized(Run(s, events).wins, k)
    ensures var s2 := Happen(Run(s, events), last);
            !Finalized(s2.wins, k) ==> Restored(s2.objs, g, k)
  {
    RunKeeps(s, g, events);
    var s1 := Run(s, events);
    var s2 := Happen(s1, last);
    match last {
      case PolicyPass(pin, tape) => PolicyPassKeeps(Start(s1, tape), g, pin);
      case WindowPass(j, win, tape) =>
        WindowPassKeeps(Start(s1, tape), g, j, win);
        WindowPassMoves(Start(s1, tape), j, win);
        if j != k { assert k in s1.wins - {j} && k in s2.wins - {j}; }
      case DeleteWindow(j) =>
      case ObjectGone(o) =>
    }
    if !Finalized(s2.wins, k) {
      assert last.WindowPass?;
      QuietIsRestored(s2.objs, s2.wins, g, k);
    }
  }
}
