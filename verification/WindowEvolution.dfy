/** What a window pass may do to the records: only its own window, and only in these ways. */
module WindowEvolution {
  import opened Strings
  import opened Types
  import opened Store
  import opened Plan
  import opened PlanRecords
  import opened Spare
  import opened Clock
  import opened WindowController
  import opened WindowLedger

  /** From `a` to `b` the plan, the opening time and the recorded nodes stay; ForcedCool only
      comes, and only over the deadline, from where a set WindowUntil stays too. */
  ghost predicate Follows(a: Window, b: Window, over: bool) {
    && b.meta.deferred == a.meta.deferred && b.meta.created == a.meta.created
    && b.spec == a.spec.(until := b.spec.until)
    && b.status.lastScale == a.status.lastScale
    && (a.status.forcedCool ==> b.status.forcedCool)
    && (b.status.forcedCool && !a.status.forcedCool ==> over)
    && (over && a.spec.until.Some? ==> b.spec.until == a.spec.until)
  }

  /** Only an entry for `k` may change, go, and never appear. */
  ghost predicate Moves(w: World, w1: World, k: WKey, over: bool) {
    && w1.wins - {k} == w.wins - {k}
    && (k in w1.wins ==> k in w.wins && Follows(w.wins[k], w1.wins[k], over))
  }

  /** The window lacks its finalizer only once it is Closed. */
  ghost predicate PinnedAt(w: World, k: WKey) {
    k in w.wins && !w.wins[k].meta.finalizer ==> w.wins[k].status.phase == Closed
  }

  lemma MovesChain(w: World, w1: World, w2: World, k: WKey, over: bool)
    requires Moves(w, w1, k, over) && Moves(w1, w2, k, over)
    ensures Moves(w, w2, k, over)
  {
  }

  /* ---- the pieces of a pass ---- */

  lemma PatchMoves(w: World, k: WKey, win: Window, win1: Window, over: bool)
    requires Stored(w, k, win) && Follows(win, win1, over) && win1.status == win.status
    requires win1.meta.finalizer || win.status.phase == Closed || win1.meta.deleting
    ensures var (w1, err) := PatchWinSpec(w, k, win1);
            Moves(w, w1, k, over) && (PinnedAt(w, k) ==> PinnedAt(w1, k))
  {
  }

  lemma StatusMoves(w: World, k: WKey, win: Window, status: Status, over: bool)
    requires Stored(w, k, win) && Follows(win, win.(status := status), over)
    requires win.meta.finalizer
    ensures var (w1, err) := UpdateStatusSpec(w, k, status);
            Moves(w, w1, k, over) && PinnedAt(w1, k) && k in w1.wins
  {
  }

  lemma WriteStatusMoves(w: World, k: WKey, win: Window, input: WinIn, phase: Phase, msg: Msg, over: bool)
    requires Stored(w, k, win) && win.meta.finalizer
    ensures var (w1, err) := WriteStatusSpec(w, k, win, input, phase, msg);
            Moves(w, w1, k, over) && PinnedAt(w1, k)
  {
    var (w1, err) := ReadSpec(w);
    StatusMoves(w1, k, win, NewStatus(win, ReadyCount(input.pods), SafeCount(input.pods, win.spec.nodes), phase, msg), over);
  }

  lemma AbortMoves(w: World, k: WKey, win: Window, input: WinIn, over: bool)
    requires Stored(w, k, win) && win.meta.finalizer && !over
    ensures var (w1, err) := AbortCooldownSpec(w, k, win, input);
            Moves(w, w1, k, over) && PinnedAt(w1, k)
            && (err.None? ==> Stored(w1, k, win.(spec := win.spec.(until := None))))
  {
    if win.spec.until.Some? {
      var win1 := win.(spec := win.spec.(until := None));
      PatchMoves(w, k, win, win1, over);
      StampCooldownKeepsInts(PatchWinSpec(w, k, win1).0, input.stampUntil, win.spec.actions, k.ns, "");
    }
  }

  lemma StayOpenMoves(w: World, k: WKey, win: Window, input: WinIn, dec: Decision)
    requires Stored(w, k, win) && win.meta.finalizer
    ensures var w1 := StayOpenSpec(w, k, win, input, dec).w;
            Moves(w, w1, k, false) && PinnedAt(w1, k)
  {
    if dec.abort { AbortMoves(w, k, win, input, false); }
    var (w1, aerr) := if dec.abort then AbortCooldownSpec(w, k, win, input) else (w, None);
    var win1 := if dec.abort then win.(spec := win.spec.(until := None)) else win;
    if aerr.None? { WriteStatusMoves(w1, k, win1, input, dec.phase, dec.message, false); }
  }

  lemma ArmMoves(w: World, k: WKey, win: Window, input: WinIn, forceCool: bool, over: bool)
    requires Stored(w, k, win) && win.meta.finalizer && win.spec.until.None?
    ensures var w1 := ArmCooldownSpec(w, k, win, input, forceCool).w;
            Moves(w, w1, k, over) && PinnedAt(w1, k)
  {
    var until := input.now + input.scaleBackAfter;
    var win1 := win.(spec := win.spec.(until := Some(until)));
    PatchMoves(w, k, win, win1, over);
    var (w1, perr) := PatchWinSpec(w, k, win1);
    if perr.None? {
      StampCooldownKeepsInts(w1, input.stampUntil, win.spec.actions, k.ns, Itoa(until));
      var (w2, serr) := StampCooldownSpec(w1, input.stampUntil, win.spec.actions, k.ns, Itoa(until));
      if serr.None? {
        WriteStatusMoves(w2, k, win1, input, Cooling, CoolingMessage(forceCool, win.status.forcedCool), over);
      }
    }
  }

  lemma BeginMoves(w: World, k: WKey, win: Window, input: WinIn, forceCool: bool, over: bool)
    requires Stored(w, k, win) && win.meta.finalizer && win.spec.until.None?
    ensures var w1 := BeginScaleBackSpec(w, k, win, input, forceCool).w;
            Moves(w, w1, k, over) && PinnedAt(w1, k)
  {
    RestoreWins(w, FillNs(win.spec.actions, k.ns));
    var (w1, rerr) := RestoreSpec(w, win.spec.actions, k.ns);
    if rerr.None? { ArmMoves(w1, k, win, input, forceCool, over); }
  }

  lemma DeleteClosedMoves(w: World, k: WKey, win: Window, over: bool)
    requires k in w.wins && w.wins[k].meta == win.meta && w.wins[k].spec == win.spec
    requires w.wins[k].status.phase == Closed
    ensures var w1 := DeleteClosedSpec(w, k, win).w;
            Moves(w, w1, k, over) && PinnedAt(w1, k)
  {
  }

  lemma CloseMoves(w: World, k: WKey, win: Window, input: WinIn, dec: Decision, over: bool)
    requires Stored(w, k, win) && win.meta.finalizer && dec.phase == Closed
    ensures var w1 := CloseSpec(w, k, win, input, dec).w;
            Moves(w, w1, k, over) && PinnedAt(w1, k)
  {
    WriteStatusMoves(w, k, win, input, dec.phase, dec.message, over);
    var (w1, err) := WriteStatusSpec(w, k, win, input, dec.phase, dec.message);
    if err.None? && !dec.retain { DeleteClosedMoves(w1, k, win, over); }
  }

  lemma ActMoves(w: World, k: WKey, win: Window, input: WinIn, over: bool)
    requires Stored(w, k, win) && win.meta.finalizer
    ensures var w1 := ActSpec(w, k, win, input, over, Decide(win, input, over)).w;
            Moves(w, w1, k, over) && PinnedAt(w1, k)
  {
    var dec := Decide(win, input, over);
    match dec.step {
      case StayOpenVulnerable => StayOpenMoves(w, k, win, input, dec);
      case StayOpenWaitingSpare => StayOpenMoves(w, k, win, input, dec);
      case BeginScaleBack => BeginMoves(w, k, win, input, over, over);
      case StayCooling => WriteStatusMoves(w, k, win, input, dec.phase, dec.message, over);
      case Close => CloseMoves(w, k, win, input, dec, over);
    }
  }

  lemma LivePassMoves(w: World, k: WKey, win: Window, input: WinIn)
    requires Stored(w, k, win) && win.meta.finalizer
    ensures var w1 := LivePassSpec(w, k, win, input).w;
            Moves(w, w1, k, MaxWindowExceeded(input.maxWindow, win, input.now)) && PinnedAt(w1, k)
  {
    var over := MaxWindowExceeded(input.maxWindow, win, input.now);
    StatusMoves(Rest(w), k, win, Observed(win, input).status, over);
    var (w1, err) := ObserveSpec(w, k, win, input);
    if err.None? { ActMoves(w1, k, Observed(win, input), input, over); }
  }

  lemma ScaleBackMoves(w: World, k: WKey, win: Window, over: bool)
    requires Stored(w, k, win)
    ensures var w1 := ScaleBackAndUnfinalizeSpec(w, k, win).w;
            Moves(w, w1, k, over) && (win.meta.deleting ==> PinnedAt(w, k) ==> PinnedAt(w1, k))
  {
    RestoreWins(w, FillNs(win.spec.actions, k.ns));
  }

  /** The finalizer of an unclosed window survives unless the policy or the target is gone. */
  ghost predicate PinKept(w: World, w1: World, k: WKey, input: WinIn) {
    !input.policyGone && !input.targetGone && PinnedAt(w, k) ==> PinnedAt(w1, k)
  }

  lemma TombstoneMoves(w: World, k: WKey, win: Window, input: WinIn, over: bool)
    requires Stored(w, k, win) && win.status.phase == Closed
    ensures var w1 := TombstoneSpec(w, k, win, input).w;
            Moves(w, w1, k, over) && PinKept(w, w1, k, input)
  {
    DeleteClosedMoves(Rest(w), k, win, over);
  }

  lemma OwnedPassMoves(w: World, k: WKey, win: Window, input: WinIn)
    requires Stored(w, k, win) && !win.meta.deleting && win.meta.finalizer
    ensures var w1 := FoundPassSpec(w, k, win, input).w;
            Moves(w, w1, k, MaxWindowExceeded(input.maxWindow, win, input.now)) && PinKept(w, w1, k, input)
  {
    var w1, w2 := Rest(w), Rest(Rest(w));
    var over := MaxWindowExceeded(input.maxWindow, win, input.now);
    ScaleBackMoves(w1, k, win, over);
    ScaleBackMoves(w2, k, win, over);
    if win.status.phase == Closed { TombstoneMoves(w2, k, win, input, over); }
    LivePassMoves(w2, k, win, input);
    OwnedCases(w, k, win, input);
  }

  lemma FoundPassMoves(w: World, k: WKey, win: Window, input: WinIn)
    requires Stored(w, k, win)
    ensures var w1 := FoundPassSpec(w, k, win, input).w;
            Moves(w, w1, k, MaxWindowExceeded(input.maxWindow, win, input.now)) && PinKept(w, w1, k, input)
  {
    var over := MaxWindowExceeded(input.maxWindow, win, input.now);
    if win.meta.deleting {
      ScaleBackMoves(w, k, win, over);
    } else if !win.meta.finalizer {
      PatchMoves(w, k, win, win.(meta := win.meta.(finalizer := true)), over);
    } else {
      OwnedPassMoves(w, k, win, input);
    }
  }

  /** A window pass touches only its own record, keeps the plan and the opening time, and
      takes the finalizer off an unclosed window only when the policy or the target is gone. */
  lemma WindowPassMoves(w: World, k: WKey, input: WinIn)
    ensures var w1 := WindowPassSpec(w, k, input).w;
            && Moves(w, w1, k, k in w.wins && MaxWindowExceeded(input.maxWindow, w.wins[k], input.now))
            && PinKept(w, w1, k, input)
  {
    if k in w.wins { FoundPassMoves(Rest(w), k, w.wins[k], input); }
  }
}
