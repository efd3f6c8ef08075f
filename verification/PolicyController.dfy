/** internal/controller/policy_controller.go: windows opened, refreshed, deferred, cleared. */
module PolicyController {
  import opened Strings
  import opened Types
  import opened Store
  import opened Plan
  import opened Clock

  /** One at-risk workload of a policy pass; `nodes` is the sorted list of its vulnerable nodes. */
  datatype Workload = Workload(ns: string, name: string, plan: PlanIn, nodes: seq<string>)

  /** What a policy pass reads. `order` is the order in which the map of workloads is
      iterated, `listing` the order in which the policy's windows are listed. */
  datatype PolicyIn = PolicyIn(policy: string, now: int, maxWindow: int, cap: int,
                               work: map<string, Workload>, order: seq<string>,
                               listing: seq<WKey>, vulnerable: set<string>)

  function WorkKey(k: WKey): string { k.ns + "/" + k.name }

  function WindowKey(policy: string, wl: Workload): WKey { WKey(policy, wl.ns, wl.name) }

  function KeyAt(input: PolicyIn, key: string): WKey
    requires key in input.work
  {
    WindowKey(input.policy, input.work[key])
  }

  /* ---- ensureWindow ---- */

  function NewMeta(deferred: bool): Meta { Meta(deferred, true, false, None) }

  function OpenSpec(p: ScalePlan, wl: Workload, existing: seq<Action>): Spec {
    Spec(PlanActions(p, existing), p.primaryBaseline, p.desired, wl.nodes, None)
  }

  /** Record the plan before anything is raised: create the window, or patch it. */
  function RecordSpec(w: World, k: WKey, found: Result<Window>, spec: Spec, now: int): (World, Option<Error>) {
    match found
    case Success(win) => PatchWinSpec(w, k, Window(win.meta.(deferred := false), spec, win.status))
    case Failure(_) => CreateWinSpec(w, k, Window(NewMeta(false), spec, FRESH_STATUS), now)
  }

  method Record(c: Cluster, k: WKey, found: Result<Window>, spec: Spec, now: int) returns (err: Option<Error>)
    modifies c
    ensures (c.W(), err) == RecordSpec(old(c.W()), k, found, spec, now)
  {
    match found {
      case Success(win) => err := c.PatchWin(k, Window(win.meta.(deferred := false), spec, win.status));
      case Failure(_) => err := c.CreateWin(k, Window(NewMeta(false), spec, FRESH_STATUS), now);
    }
  }

  function OpenedStatus(status: Status, now: int, msg: Msg, applied: Option<Error>): Status {
    status.(phase := Open, message := msg, applied := Some(applied),
            lastScale := if status.lastScale.None? then Some(now) else status.lastScale)
  }

  function SetStatusSpec(w: World, k: WKey, before: Status, after: Status): (World, Option<Error>) {
    if after == before then (w, None) else UpdateStatusSpec(w, k, after)
  }

  method SetStatus(c: Cluster, k: WKey, before: Status, after: Status) returns (err: Option<Error>)
    modifies c
    ensures (c.W(), err) == SetStatusSpec(old(c.W()), k, before, after)
  {
    if after == before { return None; }
    err := c.UpdateStatus(k, after);
  }

  function OpenMsg(p: ScalePlan, applyErr: Option<Error>): Msg {
    if applyErr.Some? then ApplyFailed(applyErr.value)
    else if p.steps == [] then ExternalScaler else ScaledUp
  }

  /** The part after the plan is made: record, raise, report. */
  function OpenWindowSpec(w: World, k: WKey, found: Result<Window>, wl: Workload, p: ScalePlan, now: int): (World, Option<Error>) {
    var existing := if found.Success? then found.value.spec.actions else [];
    var status := if found.Success? then found.value.status else FRESH_STATUS;
    var (w1, rerr) := RecordSpec(w, k, found, OpenSpec(p, wl, existing), now);
    if rerr.Some? then (w1, rerr)
    else
      var a := ApplySpec(w1, p.steps);
      var (w2, serr) := SetStatusSpec(a.w, k, status, OpenedStatus(status, now, OpenMsg(p, a.err), a.err));
      (w2, if serr.Some? then serr else a.err)
  }

  method OpenWindow(c: Cluster, k: WKey, found: Result<Window>, wl: Workload, p: ScalePlan, now: int) returns (err: Option<Error>)
    modifies c
    ensures (c.W(), err) == OpenWindowSpec(old(c.W()), k, found, wl, p, now)
  {
    var existing: seq<Action>, status := [], FRESH_STATUS;
    if found.Success? { existing, status := found.value.spec.actions, found.value.status; }
    var actions: seq<Action> := [];
    if p.steps != [] { actions := MergeActions(existing, ToActions(p.steps)); }
    err := Record(c, k, found, Spec(actions, p.primaryBaseline, p.desired, wl.nodes, None), now);
    if err.Some? { return; }
    var _, applyErr := Apply(c, p.steps);
    err := SetStatus(c, k, status, OpenedStatus(status, now, OpenMsg(p, applyErr), applyErr));
    if err.None? { err := applyErr; }
  }

  function EnsureWindowSpec(w: World, k: WKey, wl: Workload, maxWindow: int, now: int): (World, Option<Error>) {
    var (w1, found) := GetWinSpec(w, k);
    if found.Failure? && found.error != NotFound then (w1, Some(found.error))
    else if found.Success? && HoldMaxWindow(maxWindow, found.value, now) then (w1, None)
    else
      var existing := if found.Success? then found.value.spec.actions else [];
      var sticky := if found.Success? then found.value.spec.baseline else 0;
      var (w2, plan) := BuildPlanSpec(w1, wl.plan, existing, sticky);
      if plan.Failure? then (w2, Some(plan.error)) else OpenWindowSpec(w2, k, found, wl, plan.value, now)
  }

  method EnsureWindow(c: Cluster, k: WKey, wl: Workload, maxWindow: int, now: int) returns (err: Option<Error>)
    modifies c
    ensures (c.W(), err) == EnsureWindowSpec(old(c.W()), k, wl, maxWindow, now)
  {
    var found := c.GetWin(k);
    if found.Failure? && found.error != NotFound { return Some(found.error); }
    if found.Success? && HoldMaxWindow(maxWindow, found.value, now) { return None; }
    var existing: seq<Action>, sticky: int32 := [], 0;
    if found.Success? { existing, sticky := found.value.spec.actions, found.value.spec.baseline; }
    var plan := BuildPlan(c, wl.plan, existing, sticky);
    if plan.Failure? { return Some(plan.error); }
    err := OpenWindow(c, k, found, wl, plan.value, now);
  }

  /* ---- ensureDeferredWindow ---- */

  function DeferredSpec(found: Result<Window>, wl: Workload): Spec {
    var baseline := if found.Success? && found.value.spec.baseline > 0 then found.value.spec.baseline else wl.plan.replicas;
    Spec([], baseline, baseline, wl.nodes, None)
  }

  /** The placeholder of a workload without a slot: no actions, no raise. */
  function PlaceholderSpec(w: World, k: WKey, found: Result<Window>, spec: Spec, now: int): (World, Option<Error>) {
    match found
    case Success(win) => PatchWinSpec(w, k, Window(win.meta.(deferred := true), spec, win.status))
    case Failure(_) => CreateWinSpec(w, k, Window(NewMeta(true), spec, FRESH_STATUS), now)
  }

  function EnsureDeferredSpec(w: World, k: WKey, wl: Workload, maxWindow: int, now: int): (World, Option<Error>) {
    var (w1, found) := GetWinSpec(w, k);
    if found.Failure? && found.error != NotFound then (w1, Some(found.error))
    else if found.Success? && HoldMaxWindow(maxWindow, found.value, now) then (w1, None)
    else
      var spec := DeferredSpec(found, wl);
      var status := if found.Success? then found.value.status else FRESH_STATUS;
      var (w2, err) := PlaceholderSpec(w1, k, found, spec, now);
      if err.Some? then (w2, err)
      else SetStatusSpec(w2, k, status, OpenedStatus(status, now, WaitingForSlot, None))
  }

  method EnsureDeferredWindow(c: Cluster, k: WKey, wl: Workload, maxWindow: int, now: int) returns (err: Option<Error>)
    modifies c
    ensures (c.W(), err) == EnsureDeferredSpec(old(c.W()), k, wl, maxWindow, now)
  {
    var found := c.GetWin(k);
    if found.Failure? && found.error != NotFound { return Some(found.error); }
    if found.Success? && HoldMaxWindow(maxWindow, found.value, now) { return None; }
    var baseline := wl.plan.replicas;
    if found.Success? && found.value.spec.baseline > 0 { baseline := found.value.spec.baseline; }
    var spec, status := Spec([], baseline, baseline, wl.nodes, None), FRESH_STATUS;
    if found.Success? {
      status := found.value.status;
      err := c.PatchWin(k, Window(found.value.meta.(deferred := true), spec, status));
    } else {
      err := c.CreateWin(k, Window(NewMeta(true), spec, FRESH_STATUS), now);
    }
    if err.Some? { return; }
    err := SetStatus(c, k, status, OpenedStatus(status, now, WaitingForSlot, None));
  }

  /* ---- the slot loop ---- */

  ghost function SlotHolders(wins: map<WKey, Window>, policy: string): set<WKey> {
    set k | k in wins && k.policy == policy && TakesSlot(wins[k])
  }

  predicate Waiting(found: Result<Window>) {
    found.Failure? || !IsActive(found.value) || found.value.meta.deferred
  }

  /** `stop` is an error that ends the whole pass. */
  datatype LoopOut = LoopOut(w: World, active: int, deferred: nat, errors: nat, stop: Option<Error>)

  function Tally(o: LoopOut, deferred: nat, errors: nat): LoopOut {
    o.(deferred := deferred + o.deferred, errors := errors + o.errors)
  }

  function One(b: bool): nat { if b then 1 else 0 }

  function MustDefer(waiting: bool, cap: int, active: int): bool { waiting && cap > 0 && active >= cap }

  /** One workload's turn. */
  function TurnSpec(w: World, input: PolicyIn, wl: Workload, active: int): LoopOut {
    var k := WindowKey(input.policy, wl);
    var (w1, found) := GetWinSpec(w, k);
    if found.Failure? && found.error != NotFound then LoopOut(w1, active, 0, 0, Some(found.error))
    else if MustDefer(Waiting(found), input.cap, active) then
      var (w2, err) := EnsureDeferredSpec(w1, k, wl, input.maxWindow, input.now);
      LoopOut(w2, active, 1, One(err.Some?), None)
    else
      var (w2, err) := EnsureWindowSpec(w1, k, wl, input.maxWindow, input.now);
      LoopOut(w2, if Waiting(found) && err.None? then active + 1 else active, 0, One(err.Some?), None)
  }

  /** A turn reads the window; then it ends the pass, writes the placeholder, or ensures the
      window, and only a window newly ensured takes a slot. */
  lemma TurnCases(w: World, input: PolicyIn, wl: Workload, active: int)
    ensures var t := TurnSpec(w, input, wl, active);
            var k := WindowKey(input.policy, wl);
            var waits := !(k in w.wins && TakesSlot(w.wins[k]));
            var (w1, derr) := EnsureDeferredSpec(Rest(w), k, wl, input.maxWindow, input.now);
            var (w2, err) := EnsureWindowSpec(Rest(w), k, wl, input.maxWindow, input.now);
            if Next(w) != Applied then t == LoopOut(Rest(w), active, 0, 0, Some(Other))
            else if MustDefer(waits, input.cap, active) then t == LoopOut(w1, active, 1, One(derr.Some?), None)
            else t == LoopOut(w2, active + One(waits && err.None?), 0, One(err.Some?), None)
  {
  }

  function SlotLoopSpec(w: World, input: PolicyIn, keys: seq<string>, active: int): LoopOut
    requires forall key :: key in keys ==> key in input.work
    decreases |keys|
  {
    if keys == [] then LoopOut(w, active, 0, 0, None)
    else
      var t := TurnSpec(w, input, input.work[keys[0]], active);
      if t.stop.Some? then t else Tally(SlotLoopSpec(t.w, input, keys[1..], t.active), t.deferred, t.errors)
  }

  method Turn(c: Cluster, input: PolicyIn, wl: Workload, before: int)
    returns (active: int, deferred: nat, errors: nat, stop: Option<Error>)
    modifies c
    ensures LoopOut(c.W(), active, deferred, errors, stop) == TurnSpec(old(c.W()), input, wl, before)
  {
    active, deferred, errors, stop := before, 0, 0, None;
    var k := WindowKey(input.policy, wl);
    var found := c.GetWin(k);
    if found.Failure? && found.error != NotFound {
      stop := Some(found.error);
      return;
    }
    var waiting := Waiting(found);
    if MustDefer(waiting, input.cap, active) {
      deferred := 1;
      var err := EnsureDeferredWindow(c, k, wl, input.maxWindow, input.now);
      if err.Some? { errors := 1; }
      return;
    }
    var err := EnsureWindow(c, k, wl, input.maxWindow, input.now);
    if err.Some? {
      errors := 1;
    } else if waiting {
      active := active + 1;
    }
  }

  /** The loop over the workloads in the given key order. */
  method SlotLoop(c: Cluster, input: PolicyIn, keys: seq<string>, before: int)
    returns (active: int, deferred: nat, errors: nat, stop: Option<Error>)
    requires forall key :: key in keys ==> key in input.work
    modifies c
    ensures LoopOut(c.W(), active, deferred, errors, stop) == SlotLoopSpec(old(c.W()), input, keys, before)
  {
    active, deferred, errors, stop := before, 0, 0, None;
    for i := 0 to |keys|
      invariant stop == None
      invariant SlotLoopSpec(old(c.W()), input, keys, before)
                  == Tally(SlotLoopSpec(c.W(), input, keys[i..], active), deferred, errors)
    {
      assert keys[i..][1..] == keys[i + 1..];
      var d, e;
      active, d, e, stop := Turn(c, input, input.work[keys[i]], active);
      deferred, errors := deferred + d, errors + e;
      if stop.Some? { return; }
    }
  }

  /* ---- syncClearedWindows ---- */

  function SyncOneSpec(w: World, k: WKey, vulnerable: set<string>): (World, Option<Error>) {
    if k !in w.wins || w.wins[k].spec.nodes == [] then (w, None)
    else
      var win := w.wins[k];
      var (w1, rerr) := ReadSpec(w);
      if rerr.Some? then (w1, rerr)
      else if exists n :: n in win.spec.nodes && n in vulnerable then (w1, None)
      else PatchWinSpec(w1, k, win.(spec := win.spec.(nodes := [])))
  }

  function SyncSpec(w: World, input: PolicyIn, listing: seq<WKey>): (World, Option<Error>)
    decreases |listing|
  {
    if listing == [] then (w, None)
    else if listing[0].policy != input.policy || WorkKey(listing[0]) in input.work then SyncSpec(w, input, listing[1..])
    else
      var (w1, err) := SyncOneSpec(w, listing[0], input.vulnerable);
      if err.Some? then (w1, err) else SyncSpec(w1, input, listing[1..])
  }

  method SyncOne(c: Cluster, k: WKey, vulnerable: set<string>) returns (err: Option<Error>)
    modifies c
    ensures (c.W(), err) == SyncOneSpec(old(c.W()), k, vulnerable)
  {
    if k !in c.wins || c.wins[k].spec.nodes == [] { return None; }
    var win := c.wins[k];
    err := c.Read();
    if err.Some? { return; }
    if exists n :: n in win.spec.nodes && n in vulnerable { return None; }
    err := c.PatchWin(k, win.(spec := win.spec.(nodes := [])));
  }

  method SyncClearedWindows(c: Cluster, input: PolicyIn) returns (err: Option<Error>)
    modifies c
    ensures (c.W(), err) == SyncSpec(old(c.W()), input, input.listing)
  {
    for i := 0 to |input.listing|
      invariant SyncSpec(old(c.W()), input, input.listing) == SyncSpec(c.W(), input, input.listing[i..])
    {
      assert input.listing[i..][1..] == input.listing[i + 1..];
      var k := input.listing[i];
      if k.policy != input.policy || WorkKey(k) in input.work { continue; }
      err := SyncOne(c, k, input.vulnerable);
      if err.Some? { return; }
    }
    err := None;
  }

  /* ---- the reconcile ---- */

  ghost predicate GoodOrder(input: PolicyIn) {
    Distinct(input.order) && forall key :: key in input.order <==> key in input.work
  }

  lemma SortKeeps(input: PolicyIn)
    requires GoodOrder(input)
    ensures forall key :: key in Sort(input.order) <==> key in input.work
    ensures Ascending(Sort(input.order))
  {
    SortAscending(input.order);
    forall key ensures key in Sort(input.order) <==> key in input.order {
      assert key in Sort(input.order) <==> key in multiset(Sort(input.order));
      assert key in input.order <==> key in multiset(input.order);
    }
  }

  datatype PolicyOut = PolicyOut(w: World, err: Option<Error>, deferred: nat, errors: nat)

  /** The loop of a pass, with the count the pass starts from. */
  ghost function PassLoop(w: World, input: PolicyIn): LoopOut
    requires GoodOrder(input)
  {
    SortKeeps(input);
    SlotLoopSpec(w, input, Sort(input.order), |SlotHolders(w.wins, input.policy)|)
  }

  /** Count the slots, give them out in key order, clear what is no longer at risk. */
  ghost function PolicyPassSpec(w: World, input: PolicyIn): PolicyOut
    requires GoodOrder(input)
  {
    var (w1, rerr) := ReadSpec(w);
    if rerr.Some? then PolicyOut(w1, rerr, 0, 0)
    else
      var o := PassLoop(w1, input);
      if o.stop.Some? then PolicyOut(o.w, o.stop, 0, 0)
      else
        var (w2, err) := SyncSpec(o.w, input, input.listing);
        PolicyOut(w2, err, o.deferred, o.errors)
  }

  /** How far a policy pass gets: its listing, its loop, or the clearing after it. */
  lemma PassCases(w: World, input: PolicyIn)
    requires GoodOrder(input)
    ensures var o := PassLoop(Rest(w), input);
            PolicyPassSpec(w, input).w == if Next(w) != Applied then Rest(w)
                                          else if o.stop.Some? then o.w else SyncSpec(o.w, input, input.listing).0
  {
  }

  /** countActiveWindows over the listing of the policy's windows. */
  method CountActiveWindows(c: Cluster, listing: seq<WKey>, policy: string) returns (n: nat)
    requires Distinct(listing) && forall k :: k in listing <==> k in c.wins && k.policy == policy
    ensures n == |SlotHolders(c.wins, policy)|
  {
    n := 0;
    ghost var counted: set<WKey> := {};
    for i := 0 to |listing|
      invariant counted == set k | k in listing[..i] && TakesSlot(c.wins[k])
      invariant n == |counted|
    {
      assert listing[..i + 1] == listing[..i] + [listing[i]];
      assert listing[i] !in listing[..i];
      if TakesSlot(c.wins[listing[i]]) {
        n := n + 1;
        counted := counted + {listing[i]};
      }
    }
    assert listing[..|listing|] == listing;
    assert counted == SlotHolders(c.wins, policy);
  }

  method Reconcile(c: Cluster, input: PolicyIn, windows: seq<WKey>) returns (err: Option<Error>, deferred: nat, errors: nat)
    requires GoodOrder(input)
    requires Distinct(windows) && forall k :: k in windows <==> k in c.wins && k.policy == input.policy
    modifies c
    ensures PolicyOut(c.W(), err, deferred, errors) == PolicyPassSpec(old(c.W()), input)
  {
    deferred, errors := 0, 0;
    SortKeeps(input);
    err := c.Read();
    if err.Some? { return; }
    var active := CountActiveWindows(c, windows, input.policy);
    var d, e, stop;
    active, d, e, stop := SlotLoop(c, input, Sort(input.order), active);
    if stop.Some? { return stop, 0, 0; }
    err := SyncClearedWindows(c, input);
    deferred, errors := d, e;
  }
}
