/** internal/controller/window_controller.go: spare status, cooldown, scale-back, close. */
module WindowController {
  import opened Strings
  import opened Types
  import opened Store
  import opened Plan
  import opened Spare
  import opened Clock

  /** What a window pass reads besides the window: the clock, the policy, the target, the
      target's pods and the nodes that are vulnerable now. `stampUntil` is the window-until
      annotation key when stamping is on. */
  datatype WinIn = WinIn(now: int, policyGone: bool, targetGone: bool, maxWindow: int, scaleBackAfter: int,
                         pods: seq<Pod>, vulnerable: set<string>, stampUntil: Option<string>)

  datatype WinOut = WinOut(w: World, err: Option<Error>, requeue: int)

  predicate AnyVulnerable(nodes: seq<string>, vulnerable: set<string>) {
    exists n :: n in nodes && n in vulnerable
  }

  /* ---- pieces ---- */

  function StampCooldownSpec(w: World, stampUntil: Option<string>, actions: seq<Action>, ns: string, until: string)
    : (World, Option<Error>)
    decreases |actions|
  {
    if stampUntil.None? || actions == [] then (w, None)
    else
      var (w1, err) := PatchAnnotationsSpec(w, WithNs(actions[0], ns).obj, map[stampUntil.value := until]);
      if err.Some? then (w1, err) else StampCooldownSpec(w1, stampUntil, actions[1..], ns, until)
  }

  method StampCooldown(c: Cluster, stampUntil: Option<string>, actions: seq<Action>, ns: string, until: string)
    returns (err: Option<Error>)
    modifies c
    ensures (c.W(), err) == StampCooldownSpec(old(c.W()), stampUntil, actions, ns, until)
  {
    if stampUntil.None? { return None; }
    for i := 0 to |actions|
      invariant StampCooldownSpec(old(c.W()), stampUntil, actions, ns, until)
                  == StampCooldownSpec(c.W(), stampUntil, actions[i..], ns, until)
    {
      assert actions[i..][1..] == actions[i + 1..];
      err := c.PatchAnnotations(WithNs(actions[i], ns).obj, map[stampUntil.value := until]);
      if err.Some? { return; }
    }
    err := None;
  }

  function UnfinalizeSpec(w: World, k: WKey, win: Window): (World, Option<Error>) {
    if win.meta.finalizer then PatchWinSpec(w, k, win.(meta := win.meta.(finalizer := false))) else (w, None)
  }

  method Unfinalize(c: Cluster, k: WKey, win: Window) returns (err: Option<Error>)
    modifies c
    ensures (c.W(), err) == UnfinalizeSpec(old(c.W()), k, win)
  {
    err := None;
    if win.meta.finalizer { err := c.PatchWin(k, win.(meta := win.meta.(finalizer := false))); }
  }

  function ScaleBackAndUnfinalizeSpec(w: World, k: WKey, win: Window): WinOut {
    var (w1, rerr) := RestoreSpec(w, win.spec.actions, k.ns);
    if rerr.Some? && rerr.value != NotFound then WinOut(w1, rerr, 0)
    else
      var (w2, err) := UnfinalizeSpec(w1, k, win);
      WinOut(w2, err, 0)
  }

  method ScaleBackAndUnfinalize(c: Cluster, k: WKey, win: Window) returns (err: Option<Error>, requeue: int)
    modifies c
    ensures WinOut(c.W(), err, requeue) == ScaleBackAndUnfinalizeSpec(old(c.W()), k, win)
  {
    requeue := 0;
    err := RestoreActions(c, win.spec.actions, k.ns);
    if err.Some? && err.value != NotFound { return; }
    err := Unfinalize(c, k, win);
  }

  function DeleteClosedSpec(w: World, k: WKey, win: Window): WinOut {
    var (w1, err) := UnfinalizeSpec(w, k, win);
    if err.Some? then WinOut(w1, err, 0)
    else
      var (w2, derr) := DeleteWinSpec(w1, k);
      WinOut(w2, derr, 0)
  }

  method DeleteClosedWindow(c: Cluster, k: WKey, win: Window) returns (err: Option<Error>, requeue: int)
    modifies c
    ensures WinOut(c.W(), err, requeue) == DeleteClosedSpec(old(c.W()), k, win)
  {
    requeue := 0;
    err := Unfinalize(c, k, win);
    if err.Some? { return; }
    err := c.DeleteWin(k);
  }

  /** applySpareStatus, with the phase and message writeStatus adds. */
  function NewStatus(win: Window, ready: nat, safe: nat, phase: Phase, msg: Msg): Status {
    var want := safe >= win.spec.baseline;
    win.status.(ready := ready, safe := safe, spareReady := want, spareCond := Some(want), phase := phase,
                message := ShownMessage(win, msg))
  }

  /** A failed capacity patch is appended to the two waiting messages. */
  function ShownMessage(win: Window, msg: Msg): Msg {
    if win.status.applied.Some? && win.status.applied.value.Some? && (msg == WaitingSpare || msg == NodesVulnerable)
    then Blocked(msg) else msg
  }

  predicate StatusUnchanged(win: Window, ready: nat, safe: nat, phase: Phase, msg: Msg) {
    && win.status.phase == phase && win.status.message == ShownMessage(win, msg)
    && win.status.spareCond == Some(safe >= win.spec.baseline)
    && win.status.ready == ready && win.status.safe == safe
  }

  function WriteStatusSpec(w: World, k: WKey, win: Window, input: WinIn, phase: Phase, msg: Msg): (World, Option<Error>) {
    var (w1, err) := ReadSpec(w);
    var ready, safe := ReadyCount(input.pods), SafeCount(input.pods, win.spec.nodes);
    if err.Some? then (w1, err)
    else if StatusUnchanged(win, ready, safe, phase, msg) then (w1, None)
    else UpdateStatusSpec(w1, k, NewStatus(win, ready, safe, phase, msg))
  }

  /** The SpareReady flag and its condition say the same. */
  predicate SpareAgrees(status: Status) { status.spareCond.Some? ==> status.spareReady == status.spareCond.value }

  /** After a status write the stored window is SpareReady exactly when the pods it counted
      off the recorded nodes reach its baseline. */
  lemma SpareReadyIsCounted(w: World, k: WKey, win: Window, input: WinIn, phase: Phase, msg: Msg)
    requires k in w.wins && w.wins[k] == win && SpareAgrees(win.status)
    ensures var (w1, err) := WriteStatusSpec(w, k, win, input, phase, msg);
            && k in w1.wins && SpareAgrees(w1.wins[k].status)
            && (err.None? ==> (w1.wins[k].status.spareReady <==> SafeCount(input.pods, win.spec.nodes) >= win.spec.baseline))
  {
    UpdateStatusCases(ReadSpec(w).0, k, NewStatus(win, ReadyCount(input.pods), SafeCount(input.pods, win.spec.nodes), phase, msg));
  }

  method WriteStatus(c: Cluster, k: WKey, win: Window, input: WinIn, phase: Phase, msg: Msg) returns (err: Option<Error>)
    modifies c
    ensures (c.W(), err) == WriteStatusSpec(old(c.W()), k, win, input, phase, msg)
  {
    err := c.Read();
    if err.Some? { return; }
    var ready, safe := SpareCounts(input.pods, win.spec.nodes);
    if StatusUnchanged(win, ready, safe, phase, msg) { return None; }
    err := c.UpdateStatus(k, NewStatus(win, ready, safe, phase, msg));
  }

  function AbortCooldownSpec(w: World, k: WKey, win: Window, input: WinIn): (World, Option<Error>) {
    if win.spec.until.None? then (w, None)
    else
      var (w1, err) := PatchWinSpec(w, k, win.(spec := win.spec.(until := None)));
      if err.Some? then (w1, err) else StampCooldownSpec(w1, input.stampUntil, win.spec.actions, k.ns, "")
  }

  method AbortCooldown(c: Cluster, k: WKey, win: Window, input: WinIn) returns (err: Option<Error>)
    modifies c
    ensures (c.W(), err) == AbortCooldownSpec(old(c.W()), k, win, input)
  {
    if win.spec.until.None? { return None; }
    err := c.PatchWin(k, win.(spec := win.spec.(until := None)));
    if err.Some? { return; }
    err := StampCooldown(c, input.stampUntil, win.spec.actions, k.ns, "");
  }

  /* ---- the four outcomes of a decision ---- */

  function StayOpenSpec(w: World, k: WKey, win: Window, input: WinIn, dec: Decision): WinOut {
    var (w1, aerr) := if dec.abort then AbortCooldownSpec(w, k, win, input) else (w, None);
    if aerr.Some? then WinOut(w1, aerr, 0)
    else
      var win1 := if dec.abort then win.(spec := win.spec.(until := None)) else win;
      var (w2, err) := WriteStatusSpec(w1, k, win1, input, dec.phase, dec.message);
      WinOut(w2, err, if err.Some? then 0 else OpenRequeue(input.maxWindow, win1, input.now))
  }

  method StayOpen(c: Cluster, k: WKey, win: Window, input: WinIn, dec: Decision) returns (err: Option<Error>, requeue: int)
    modifies c
    ensures WinOut(c.W(), err, requeue) == StayOpenSpec(old(c.W()), k, win, input, dec)
  {
    requeue := 0;
    var win1 := win;
    if dec.abort {
      err := AbortCooldown(c, k, win, input);
      if err.Some? { return; }
      win1 := win.(spec := win.spec.(until := None));
    }
    err := WriteStatus(c, k, win1, input, dec.phase, dec.message);
    if err.None? { requeue := OpenRequeue(input.maxWindow, win1, input.now); }
  }

  /** Restore, and only then arm the cooldown. */
  function BeginScaleBackSpec(w: World, k: WKey, win: Window, input: WinIn, forceCool: bool): WinOut {
    var (w1, rerr) := RestoreSpec(w, win.spec.actions, k.ns);
    if rerr.Some? then WinOut(w1, rerr, 0) else ArmCooldownSpec(w1, k, win, input, forceCool)
  }

  function ArmCooldownSpec(w: World, k: WKey, win: Window, input: WinIn, forceCool: bool): WinOut {
    var until := input.now + input.scaleBackAfter;
    var win1 := win.(spec := win.spec.(until := Some(until)));
    var (w1, perr) := PatchWinSpec(w, k, win1);
    if perr.Some? then WinOut(w1, perr, 0)
    else
      var (w2, serr) := StampCooldownSpec(w1, input.stampUntil, win.spec.actions, k.ns, Itoa(until));
      if serr.Some? then WinOut(w2, serr, 0)
      else
        var (w3, err) := WriteStatusSpec(w2, k, win1, input, Cooling, CoolingMessage(forceCool, win.status.forcedCool));
        WinOut(w3, err, if err.Some? then 0 else input.scaleBackAfter)
  }

  method BeginScaleBackPass(c: Cluster, k: WKey, win: Window, input: WinIn, forceCool: bool)
    returns (err: Option<Error>, requeue: int)
    modifies c
    ensures WinOut(c.W(), err, requeue) == BeginScaleBackSpec(old(c.W()), k, win, input, forceCool)
  {
    requeue := 0;
    err := RestoreActions(c, win.spec.actions, k.ns);
    if err.Some? { return; }
    err, requeue := ArmCooldown(c, k, win, input, forceCool);
  }

  method ArmCooldown(c: Cluster, k: WKey, win: Window, input: WinIn, forceCool: bool)
    returns (err: Option<Error>, requeue: int)
    modifies c
    ensures WinOut(c.W(), err, requeue) == ArmCooldownSpec(old(c.W()), k, win, input, forceCool)
  {
    requeue := 0;
    var until := input.now + input.scaleBackAfter;
    var win1 := win.(spec := win.spec.(until := Some(until)));
    err := c.PatchWin(k, win1);
    if err.Some? { return; }
    err := StampCooldown(c, input.stampUntil, win.spec.actions, k.ns, Itoa(until));
    if err.Some? { return; }
    err := WriteStatus(c, k, win1, input, Cooling, CoolingMessage(forceCool, win.status.forcedCool));
    if err.None? { requeue := input.scaleBackAfter; }
  }

  function CloseSpec(w: World, k: WKey, win: Window, input: WinIn, dec: Decision): WinOut {
    var (w1, err) := WriteStatusSpec(w, k, win, input, dec.phase, dec.message);
    if err.Some? || dec.retain then WinOut(w1, err, 0) else DeleteClosedSpec(w1, k, win)
  }

  method CloseWindow(c: Cluster, k: WKey, win: Window, input: WinIn, dec: Decision) returns (err: Option<Error>, requeue: int)
    modifies c
    ensures WinOut(c.W(), err, requeue) == CloseSpec(old(c.W()), k, win, input, dec)
  {
    requeue := 0;
    err := WriteStatus(c, k, win, input, dec.phase, dec.message);
    if err.Some? || dec.retain { return; }
    err, requeue := DeleteClosedWindow(c, k, win);
  }

  function ActSpec(w: World, k: WKey, win: Window, input: WinIn, forceCool: bool, dec: Decision): WinOut {
    match dec.step
    case StayOpenVulnerable => StayOpenSpec(w, k, win, input, dec)
    case StayOpenWaitingSpare => StayOpenSpec(w, k, win, input, dec)
    case BeginScaleBack => BeginScaleBackSpec(w, k, win, input, forceCool)
    case StayCooling =>
      var (w1, err) := WriteStatusSpec(w, k, win, input, dec.phase, dec.message);
      WinOut(w1, err, if err.Some? || win.spec.until.None? then 0 else win.spec.until.value - input.now)
    case Close => CloseSpec(w, k, win, input, dec)
  }

  method Act(c: Cluster, k: WKey, win: Window, input: WinIn, forceCool: bool, dec: Decision)
    returns (err: Option<Error>, requeue: int)
    modifies c
    ensures WinOut(c.W(), err, requeue) == ActSpec(old(c.W()), k, win, input, forceCool, dec)
  {
    match dec.step {
      case StayOpenVulnerable => err, requeue := StayOpen(c, k, win, input, dec);
      case StayOpenWaitingSpare => err, requeue := StayOpen(c, k, win, input, dec);
      case BeginScaleBack => err, requeue := BeginScaleBackPass(c, k, win, input, forceCool);
      case StayCooling =>
        err := WriteStatus(c, k, win, input, dec.phase, dec.message);
        requeue := if err.Some? || win.spec.until.None? then 0 else win.spec.until.value - input.now;
      case Close => err, requeue := CloseWindow(c, k, win, input, dec);
    }
  }

  /* ---- the reconcile ---- */

  function Decide(win: Window, input: WinIn, forceCool: bool): Decision {
    var atRisk := LiveAtRisk(input.pods, input.vulnerable);
    var safe := if !forceCool && atRisk == 0 then SafeCount(input.pods, win.spec.nodes) else win.spec.baseline;
    DecideWindowStep(atRisk, forceCool, win.status.forcedCool, safe, win.spec.baseline, win.spec.until, input.now)
  }

  /** Read the at-risk pods, stamp ForcedCool when the deadline has passed, and read the
      spare pods when the decision depends on them. */
  function ObserveSpec(w: World, k: WKey, win: Window, input: WinIn): (World, Option<Error>) {
    var forceCool := MaxWindowExceeded(input.maxWindow, win, input.now);
    var (w1, rerr) := ReadSpec(w);
    if rerr.Some? then (w1, rerr)
    else
      var (w2, uerr) := if forceCool && !win.status.forcedCool then UpdateStatusSpec(w1, k, Observed(win, input).status)
                        else (w1, None);
      if uerr.Some? || forceCool || LiveAtRisk(input.pods, input.vulnerable) > 0 then (w2, uerr) else ReadSpec(w2)
  }

  function Observed(win: Window, input: WinIn): Window {
    if MaxWindowExceeded(input.maxWindow, win, input.now) then win.(status := win.status.(forcedCool := true)) else win
  }

  /** The part after the tombstone check: stamp ForcedCool first, then decide and act. */
  function LivePassSpec(w: World, k: WKey, win: Window, input: WinIn): WinOut {
    var forceCool := MaxWindowExceeded(input.maxWindow, win, input.now);
    var (w1, err) := ObserveSpec(w, k, win, input);
    if err.Some? then WinOut(w1, err, 0)
    else ActSpec(w1, k, Observed(win, input), input, forceCool, Decide(Observed(win, input), input, forceCool))
  }

  method LivePass(c: Cluster, k: WKey, win: Window, input: WinIn) returns (err: Option<Error>, requeue: int)
    modifies c
    ensures WinOut(c.W(), err, requeue) == LivePassSpec(old(c.W()), k, win, input)
  {
    requeue := 0;
    err := c.Read();
    if err.Some? { return; }
    var atRisk, _ := LiveAtRiskPods(input.pods, n => n in input.vulnerable, input.vulnerable);
    var forceCool := MaxWindowExceeded(input.maxWindow, win, input.now);
    var win1 := win;
    if forceCool && !win.status.forcedCool {
      win1 := win.(status := win.status.(forcedCool := true));
      err := c.UpdateStatus(k, win1.status);
      if err.Some? { return; }
    }
    var safe: int := win1.spec.baseline;
    if !forceCool && atRisk == 0 {
      err := c.Read();
      if err.Some? { return; }
      var _, n := SpareCounts(input.pods, win1.spec.nodes);
      safe := n;
    }
    var dec := DecideWindowStep(atRisk, forceCool, win1.status.forcedCool, safe, win1.spec.baseline, win1.spec.until, input.now);
    err, requeue := Act(c, k, win1, input, forceCool, dec);
  }

  /** After the window itself was read: deletion, finalizer, policy, target, tombstone. */
  function FoundPassSpec(w: World, k: WKey, win: Window, input: WinIn): WinOut {
    if win.meta.deleting then ScaleBackAndUnfinalizeSpec(w, k, win)
    else if !win.meta.finalizer then
      var (w1, err) := PatchWinSpec(w, k, win.(meta := win.meta.(finalizer := true)));
      WinOut(w1, err, 0)
    else
      var (w1, perr) := ReadSpec(w);
      if perr.Some? then WinOut(w1, perr, 0)
      else if input.policyGone then ScaleBackAndUnfinalizeSpec(w1, k, win)
      else
        var (w2, terr) := ReadSpec(w1);
        if terr.Some? then WinOut(w2, terr, 0)
        else if input.targetGone then ScaleBackAndUnfinalizeSpec(w2, k, win)
        else if win.status.phase == Closed && win.status.forcedCool then TombstoneSpec(w2, k, win, input)
        else LivePassSpec(w2, k, win, input)
  }

  /** How a pass over a window with its finalizer, not being deleted, comes out. */
  lemma OwnedCases(w: World, k: WKey, win: Window, input: WinIn)
    requires !win.meta.deleting && win.meta.finalizer
    ensures var w0, w1, o := Rest(w), Rest(Rest(w)), FoundPassSpec(w, k, win, input).w;
            || (o.objs == w.objs && o.wins == w.wins)
            || (input.policyGone && o == ScaleBackAndUnfinalizeSpec(w0, k, win).w)
            || (input.targetGone && o == ScaleBackAndUnfinalizeSpec(w1, k, win).w)
            || (!input.policyGone && !input.targetGone && win.status.phase == Closed && win.status.forcedCool
                && o == TombstoneSpec(w1, k, win, input).w)
            || (!input.policyGone && !input.targetGone && !(win.status.phase == Closed && win.status.forcedCool)
                && o == LivePassSpec(w1, k, win, input).w)
  {
  }

  function TombstoneSpec(w: World, k: WKey, win: Window, input: WinIn): WinOut {
    var (w1, err) := ReadSpec(w);
    if err.Some? then WinOut(w1, err, 0)
    else if AnyVulnerable(win.spec.nodes, input.vulnerable) then WinOut(w1, None, REQUEUE_TOMBSTONE)
    else DeleteClosedSpec(w1, k, win)
  }

  method FoundPass(c: Cluster, k: WKey, win: Window, input: WinIn) returns (err: Option<Error>, requeue: int)
    modifies c
    ensures WinOut(c.W(), err, requeue) == FoundPassSpec(old(c.W()), k, win, input)
  {
    requeue := 0;
    if win.meta.deleting {
      err, requeue := ScaleBackAndUnfinalize(c, k, win);
      return;
    }
    if !win.meta.finalizer {
      err := c.PatchWin(k, win.(meta := win.meta.(finalizer := true)));
      return;
    }
    err := c.Read();
    if err.Some? { return; }
    if input.policyGone {
      err, requeue := ScaleBackAndUnfinalize(c, k, win);
      return;
    }
    err := c.Read();
    if err.Some? { return; }
    if input.targetGone {
      err, requeue := ScaleBackAndUnfinalize(c, k, win);
      return;
    }
    if win.status.phase == Closed && win.status.forcedCool {
      err, requeue := Tombstone(c, k, win, input);
      return;
    }
    err, requeue := LivePass(c, k, win, input);
  }

  method Tombstone(c: Cluster, k: WKey, win: Window, input: WinIn) returns (err: Option<Error>, requeue: int)
    modifies c
    ensures WinOut(c.W(), err, requeue) == TombstoneSpec(old(c.W()), k, win, input)
  {
    requeue := 0;
    err := c.Read();
    if err.Some? { return; }
    var still := false;
    for i := 0 to |win.spec.nodes|
      invariant still <==> AnyVulnerable(win.spec.nodes[..i], input.vulnerable)
    {
      assert win.spec.nodes[..i + 1] == win.spec.nodes[..i] + [win.spec.nodes[i]];
      if win.spec.nodes[i] in input.vulnerable { still := true; }
    }
    assert win.spec.nodes[..|win.spec.nodes|] == win.spec.nodes;
    if still { return None, REQUEUE_TOMBSTONE; }
    err, requeue := DeleteClosedWindow(c, k, win);
  }

  function WindowPassSpec(w: World, k: WKey, input: WinIn): WinOut {
    var (w1, got) := GetWinSpec(w, k);
    if got.Failure? then WinOut(w1, if got.error == NotFound then None else Some(got.error), 0)
    else FoundPassSpec(w1, k, got.value, input)
  }

  method Reconcile(c: Cluster, k: WKey, input: WinIn) returns (err: Option<Error>, requeue: int)
    modifies c
    ensures WinOut(c.W(), err, requeue) == WindowPassSpec(old(c.W()), k, input)
  {
    var got := c.GetWin(k);
    if got.Failure? {
      return if got.error == NotFound then None else Some(got.error), 0;
    }
    err, requeue := FoundPass(c, k, got.value, input);
  }
}
