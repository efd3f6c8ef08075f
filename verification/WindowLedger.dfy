/** A window pass keeps the write-ahead invariant, wherever it stops. */
module WindowLedger {
  import opened Types
  import opened Store
  import opened Plan
  import opened PlanEffects
  import opened Spare
  import opened Clock
  import opened Strings
  import opened WindowController
  import opened Ledger

  /** The window is still the record the pass read. */
  ghost predicate Stored(w: World, k: WKey, win: Window) { k in w.wins && w.wins[k] == win }

  /** What every piece of a pass over window `k` keeps: the invariant, and the finalizer
      unless nothing of the workload is raised any more. */
  ghost predicate Keeps(w: World, w1: World, g: Ground, k: WKey) {
    && Inv(w1.objs, w1.wins, g)
    && (Finalized(w.wins, k) ==> Finalized(w1.wins, k) || Quiet(w1.objs, g, k))
    && (Quiet(w.objs, g, k) ==> Quiet(w1.objs, g, k))
  }

  lemma KeepsChain(w: World, w1: World, w2: World, g: Ground, k: WKey)
    requires Keeps(w, w1, g, k) && Keeps(w1, w2, g, k)
    ensures Keeps(w, w2, g, k)
  {
  }

  lemma {:induction false} StampCooldownKeepsInts(w: World, stampUntil: Option<string>, actions: seq<Action>, ns: string, until: string)
    decreases |actions|
    ensures var w1 := StampCooldownSpec(w, stampUntil, actions, ns, until).0;
            w1.wins == w.wins && w1.objs.Keys == w.objs.Keys && forall l :: Val(w1.objs, l) == Val(w.objs, l)
  {
    if stampUntil.Some? && actions != [] {
      var o := WithNs(actions[0], ns).obj;
      PatchAnnotationsKeepsInts(w, o, map[stampUntil.value := until]);
      var (w1, err) := PatchAnnotationsSpec(w, o, map[stampUntil.value := until]);
      if err.None? { StampCooldownKeepsInts(w1, stampUntil, actions[1..], ns, until); }
    }
  }

  lemma StampKeeps(w: World, g: Ground, k: WKey, stampUntil: Option<string>, actions: seq<Action>, until: string)
    requires Inv(w.objs, w.wins, g)
    ensures var w1 := StampCooldownSpec(w, stampUntil, actions, k.ns, until).0;
            w1.wins == w.wins && Keeps(w, w1, g, k)
  {
    StampCooldownKeepsInts(w, stampUntil, actions, k.ns, until);
    SameValsKeeps(w.objs, StampCooldownSpec(w, stampUntil, actions, k.ns, until).0.objs, w.wins, g);
  }

  /** A metadata or spec patch of the stored window that still owes what it owed. */
  lemma PatchKeeps(w: World, g: Ground, k: WKey, win: Window, win1: Window)
    requires Inv(w.objs, w.wins, g) && Stored(w, k, win) && win1.status == win.status
    requires GoodWindow(g, k, win1) || (win1.meta.deleting && !win1.meta.finalizer)
    requires Quiet(w.objs, g, k) || (win1.meta.finalizer && forall l :: l in g.cat && Owes(win, l) ==> Owes(win1, l))
    ensures var (w1, err) := PatchWinSpec(w, k, win1);
            && Keeps(w, w1, g, k) && w1.objs == w.objs
            && (err.None? ==> Stored(w1, k, win1) || (win1.meta.deleting && !win1.meta.finalizer && w1.wins == w.wins - {k}))
  {
    if GoodWindow(g, k, win1) { PutOrSame(w, g, k, win1); }
    if Quiet(w.objs, g, k) { RemoveKeeps(w.objs, w.wins, g, k); }
  }

  lemma PutOrSame(w: World, g: Ground, k: WKey, win1: Window)
    requires Inv(w.objs, w.wins, g) && GoodWindow(g, k, win1)
    requires Quiet(w.objs, g, k) || (k in w.wins && forall l :: l in g.cat && Owes(w.wins[k], l) ==> Owes(win1, l))
    ensures Inv(w.objs, w.wins[k := win1], g)
  {
    PutKeeps(w.objs, w.wins, g, k, win1);
  }

  /** A status write: closing the window needs a quiet workload. */
  lemma StatusKeeps(w: World, g: Ground, k: WKey, win: Window, status: Status)
    requires Inv(w.objs, w.wins, g) && Stored(w, k, win)
    requires Quiet(w.objs, g, k) || status.phase != Closed
    ensures var (w1, err) := UpdateStatusSpec(w, k, status);
            && Keeps(w, w1, g, k) && w1.objs == w.objs
            && (err.None? ==> Stored(w1, k, win.(status := status)))
            && k in w1.wins && w1.wins[k].meta == win.meta && w1.wins[k].spec == win.spec
  {
    UpdateStatusCases(w, k, status);
    var win1 := win.(status := status);
    assert forall l :: Owes(win, l) && status.phase != Closed ==> Owes(win1, l);
    PutKeeps(w.objs, w.wins, g, k, win1);
  }

  lemma WriteStatusKeeps(w: World, g: Ground, k: WKey, win: Window, input: WinIn, phase: Phase, msg: Msg)
    requires Inv(w.objs, w.wins, g) && Stored(w, k, win)
    requires Quiet(w.objs, g, k) || phase != Closed
    ensures var (w1, err) := WriteStatusSpec(w, k, win, input, phase, msg);
            && Keeps(w, w1, g, k) && w1.objs == w.objs && k in w1.wins
            && w1.wins[k].meta == win.meta && w1.wins[k].spec == win.spec
            && (err.None? ==> w1.wins[k].status.phase == phase)
  {
    var (w1, err) := ReadSpec(w);
    var ready, safe := ReadyCount(input.pods), SafeCount(input.pods, win.spec.nodes);
    if err.None? && !StatusUnchanged(win, ready, safe, phase, msg) {
      StatusKeeps(w1, g, k, win, NewStatus(win, ready, safe, phase, msg));
    }
  }

  lemma UnfinalizeKeeps(w: World, g: Ground, k: WKey, win: Window)
    requires Inv(w.objs, w.wins, g) && Stored(w, k, win) && Quiet(w.objs, g, k)
    ensures var (w1, err) := UnfinalizeSpec(w, k, win);
            && Keeps(w, w1, g, k) && w1.objs == w.objs
  {
    if win.meta.finalizer { PatchKeeps(w, g, k, win, win.(meta := win.meta.(finalizer := false))); }
  }

  lemma ScaleBackKeeps(w: World, g: Ground, k: WKey, win: Window)
    requires Inv(w.objs, w.wins, g) && Stored(w, k, win)
    ensures Keeps(w, ScaleBackAndUnfinalizeSpec(w, k, win).w, g, k)
  {
    RestoreKeeps(w, g, k, win);
    var (w1, rerr) := RestoreSpec(w, win.spec.actions, k.ns);
    if rerr.None? { UnfinalizeKeeps(w1, g, k, win); }
  }

  lemma DeletedKeeps(w: World, g: Ground, k: WKey)
    requires Inv(w.objs, w.wins, g) && (Finalized(w.wins, k) || Quiet(w.objs, g, k))
    ensures Inv(w.objs, Deleted(w, k).wins, g)
  {
    if k in w.wins {
      if w.wins[k].meta.finalizer {
        PutKeeps(w.objs, w.wins, g, k, w.wins[k].(meta := w.wins[k].meta.(deleting := true)));
      } else {
        RemoveKeeps(w.objs, w.wins, g, k);
      }
    }
  }

  lemma DeleteClosedKeeps(w: World, g: Ground, k: WKey, win: Window)
    requires Inv(w.objs, w.wins, g) && Stored(w, k, win) && Quiet(w.objs, g, k)
    ensures Keeps(w, DeleteClosedSpec(w, k, win).w, g, k)
  {
    UnfinalizeKeeps(w, g, k, win);
    DeletedKeeps(UnfinalizeSpec(w, k, win).0, g, k);
  }

  lemma AbortKeeps(w: World, g: Ground, k: WKey, win: Window, input: WinIn)
    requires Inv(w.objs, w.wins, g) && Stored(w, k, win) && win.meta.finalizer
    ensures var (w1, err) := AbortCooldownSpec(w, k, win, input);
            && Keeps(w, w1, g, k)
            && (err.None? ==> Stored(w1, k, win.(spec := win.spec.(until := None))))
  {
    if win.spec.until.Some? {
      var win1 := win.(spec := win.spec.(until := None));
      QuietUnlessOwed(w.objs, w.wins, g, k);
      PatchKeeps(w, g, k, win, win1);
      var (w1, err) := PatchWinSpec(w, k, win1);
      if err.None? { StampKeeps(w1, g, k, input.stampUntil, win.spec.actions, ""); }
    }
  }

  lemma StayOpenKeeps(w: World, g: Ground, k: WKey, win: Window, input: WinIn, dec: Decision)
    requires Inv(w.objs, w.wins, g) && Stored(w, k, win) && win.meta.finalizer && dec.phase == Open
    ensures Keeps(w, StayOpenSpec(w, k, win, input, dec).w, g, k)
  {
    if dec.abort { AbortKeeps(w, g, k, win, input); }
    var (w1, aerr) := if dec.abort then AbortCooldownSpec(w, k, win, input) else (w, None);
    var win1 := if dec.abort then win.(spec := win.spec.(until := None)) else win;
    if aerr.None? { WriteStatusKeeps(w1, g, k, win1, input, dec.phase, dec.message); }
  }

  /** Stamping the cooldown and reporting it, once WindowUntil is set. */
  lemma CoolKeeps(w: World, g: Ground, k: WKey, win: Window, input: WinIn, msg: Msg, until: string)
    requires Inv(w.objs, w.wins, g) && Stored(w, k, win)
    ensures var (w1, serr) := StampCooldownSpec(w, input.stampUntil, win.spec.actions, k.ns, until);
            Keeps(w, w1, g, k) && Keeps(w, WriteStatusSpec(w1, k, win, input, Cooling, msg).0, g, k)
  {
    StampKeeps(w, g, k, input.stampUntil, win.spec.actions, until);
    var w1 := StampCooldownSpec(w, input.stampUntil, win.spec.actions, k.ns, until).0;
    WriteStatusKeeps(w1, g, k, win, input, Cooling, msg);
    KeepsChain(w, w1, WriteStatusSpec(w1, k, win, input, Cooling, msg).0, g, k);
  }

  lemma ArmKeeps(w: World, g: Ground, k: WKey, win: Window, input: WinIn, forceCool: bool)
    requires Inv(w.objs, w.wins, g) && Stored(w, k, win) && win.meta.finalizer && Quiet(w.objs, g, k)
    ensures Keeps(w, ArmCooldownSpec(w, k, win, input, forceCool).w, g, k)
  {
    var until := input.now + input.scaleBackAfter;
    var win1 := win.(spec := win.spec.(until := Some(until)));
    PatchKeeps(w, g, k, win, win1);
    var (w1, perr) := PatchWinSpec(w, k, win1);
    if perr.None? {
      CoolKeeps(w1, g, k, win1, input, CoolingMessage(forceCool, win.status.forcedCool), Itoa(until));
      KeepsChain(w, w1, ArmCooldownSpec(w, k, win, input, forceCool).w, g, k);
    }
  }

  lemma BeginKeeps(w: World, g: Ground, k: WKey, win: Window, input: WinIn, forceCool: bool)
    requires Inv(w.objs, w.wins, g) && Stored(w, k, win) && win.meta.finalizer
    ensures Keeps(w, BeginScaleBackSpec(w, k, win, input, forceCool).w, g, k)
  {
    RestoreKeeps(w, g, k, win);
    var (w1, rerr) := RestoreSpec(w, win.spec.actions, k.ns);
    if rerr.None? { ArmKeeps(w1, g, k, win, input, forceCool); }
  }

  lemma CloseKeeps(w: World, g: Ground, k: WKey, win: Window, input: WinIn, dec: Decision)
    requires Inv(w.objs, w.wins, g) && Stored(w, k, win) && win.spec.until.Some?
    ensures Keeps(w, CloseSpec(w, k, win, input, dec).w, g, k)
  {
    QuietUnlessOwed(w.objs, w.wins, g, k);
    WriteStatusKeeps(w, g, k, win, input, dec.phase, dec.message);
    var (w1, err) := WriteStatusSpec(w, k, win, input, dec.phase, dec.message);
    if err.None? && !dec.retain { CloseDeletes(w1, g, k, win); }
  }

  /** Only the status was written since `win` was read. */
  lemma CloseDeletes(w: World, g: Ground, k: WKey, win: Window)
    requires Inv(w.objs, w.wins, g) && Quiet(w.objs, g, k)
    requires k in w.wins && w.wins[k].meta == win.meta && w.wins[k].spec == win.spec
    ensures Keeps(w, DeleteClosedSpec(w, k, win).w, g, k)
  {
    DeleteClosedKeeps(w, g, k, w.wins[k]);
    assert UnfinalizeSpec(w, k, win) == UnfinalizeSpec(w, k, w.wins[k]);
  }

  lemma ActKeeps(w: World, g: Ground, k: WKey, win: Window, input: WinIn, forceCool: bool)
    requires Inv(w.objs, w.wins, g) && Stored(w, k, win) && win.meta.finalizer
    ensures Keeps(w, ActSpec(w, k, win, input, forceCool, Decide(win, input, forceCool)).w, g, k)
  {
    var dec := Decide(win, input, forceCool);
    match dec.step {
      case StayOpenVulnerable => StayOpenKeeps(w, g, k, win, input, dec);
      case StayOpenWaitingSpare => StayOpenKeeps(w, g, k, win, input, dec);
      case BeginScaleBack => BeginKeeps(w, g, k, win, input, forceCool);
      case StayCooling => WriteStatusKeeps(w, g, k, win, input, dec.phase, dec.message);
      case Close => CloseKeeps(w, g, k, win, input, dec);
    }
  }

  lemma ObserveCases(w: World, k: WKey, win: Window, input: WinIn)
    requires Stored(w, k, win)
    ensures var (w1, err) := ObserveSpec(w, k, win, input);
            var seen := Observed(win, input);
            && w1.objs == w.objs
            && (w1.wins == w.wins || w1.wins == w.wins[k := seen])
            && (err.None? ==> Stored(w1, k, seen))
  {
    UpdateStatusCases(Rest(w), k, Observed(win, input).status);
  }

  lemma ObserveKeeps(w: World, g: Ground, k: WKey, win: Window, input: WinIn)
    requires Inv(w.objs, w.wins, g) && Stored(w, k, win)
    ensures var (w1, err) := ObserveSpec(w, k, win, input);
            Keeps(w, w1, g, k) && w1.objs == w.objs && (err.None? ==> Stored(w1, k, Observed(win, input)))
  {
    ObserveCases(w, k, win, input);
    var seen := Observed(win, input);
    assert forall l :: Owes(win, l) ==> Owes(seen, l);
    PutKeeps(w.objs, w.wins, g, k, seen);
  }

  lemma LivePassKeeps(w: World, g: Ground, k: WKey, win: Window, input: WinIn)
    requires Inv(w.objs, w.wins, g) && Stored(w, k, win) && win.meta.finalizer
    ensures Keeps(w, LivePassSpec(w, k, win, input).w, g, k)
  {
    ObserveKeeps(w, g, k, win, input);
    var (w1, err) := ObserveSpec(w, k, win, input);
    if err.None? {
      var forceCool := MaxWindowExceeded(input.maxWindow, win, input.now);
      ActKeeps(w1, g, k, Observed(win, input), input, forceCool);
      KeepsChain(w, w1, LivePassSpec(w, k, win, input).w, g, k);
    }
  }

  lemma TombstoneKeeps(w: World, g: Ground, k: WKey, win: Window, input: WinIn)
    requires Inv(w.objs, w.wins, g) && Stored(w, k, win) && win.status.phase == Closed
    ensures Keeps(w, TombstoneSpec(w, k, win, input).w, g, k)
  {
    QuietUnlessOwed(w.objs, w.wins, g, k);
    DeleteClosedKeeps(Rest(w), g, k, win);
  }

  lemma FoundPassKeeps(w: World, g: Ground, k: WKey, win: Window, input: WinIn)
    requires Inv(w.objs, w.wins, g) && Stored(w, k, win)
    ensures Keeps(w, FoundPassSpec(w, k, win, input).w, g, k)
  {
    if win.meta.deleting {
      ScaleBackKeeps(w, g, k, win);
    } else if !win.meta.finalizer {
      PatchKeeps(w, g, k, win, win.(meta := win.meta.(finalizer := true)));
    } else {
      OwnedPassKeeps(w, g, k, win, input);
    }
  }

  lemma OwnedPassKeeps(w: World, g: Ground, k: WKey, win: Window, input: WinIn)
    requires Inv(w.objs, w.wins, g) && Stored(w, k, win) && !win.meta.deleting && win.meta.finalizer
    ensures Keeps(w, FoundPassSpec(w, k, win, input).w, g, k)
  {
    var w1, w2 := Rest(w), Rest(Rest(w));
    ScaleBackKeeps(w1, g, k, win);
    KeepsFrom(w, w1, ScaleBackAndUnfinalizeSpec(w1, k, win).w, g, k);
    ScaleBackKeeps(w2, g, k, win);
    KeepsFrom(w, w2, ScaleBackAndUnfinalizeSpec(w2, k, win).w, g, k);
    if win.status.phase == Closed {
      TombstoneKeeps(w2, g, k, win, input);
      KeepsFrom(w, w2, TombstoneSpec(w2, k, win, input).w, g, k);
    }
    LivePassKeeps(w2, g, k, win, input);
    KeepsFrom(w, w2, LivePassSpec(w2, k, win, input).w, g, k);
    OwnedCases(w, k, win, input);
  }

  /** Spending answers on reads changes nothing. */
  lemma KeepsFrom(w: World, w0: World, w1: World, g: Ground, k: WKey)
    requires Inv(w.objs, w.wins, g) && w0.objs == w.objs && w0.wins == w.wins
    ensures Keeps(w0, w1, g, k) ==> Keeps(w, w1, g, k)
  {
  }

  /** A window pass keeps the invariant and lets the finalizer go only from a workload whose
      fields are back at their original values. */
  lemma WindowPassKeeps(w: World, g: Ground, k: WKey, input: WinIn)
    requires Inv(w.objs, w.wins, g)
    ensures var w1 := WindowPassSpec(w, k, input).w;
            && Inv(w1.objs, w1.wins, g)
            && (Finalized(w.wins, k) ==> Finalized(w1.wins, k) || Quiet(w1.objs, g, k))
  {
    if k in w.wins { FoundPassKeeps(Rest(w), g, k, w.wins[k], input); }
  }
}
