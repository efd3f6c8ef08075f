/** pkg/evictgate/decide.go: may this pod be evicted now? */
module Gate {
  import opened Strings
  import opened Types
  import opened Store
  import opened Spare
  import Ownership

  /** A Deployment, as far as the gate looks at it. */
  datatype Dep = Dep(ns: string, name: string, templateOptedIn: bool, pin: string)

  /** What an admission request finds: the pod, its Deployment, whether the pod's node still
      exists, the policies with their selector answers for the Deployment, the pods its
      selector matches, and the (policy, node) pairs that are vulnerable now. */
  datatype View = View(pod: Pod, dep: Option<Dep>, nodeExists: bool, policies: seq<Ownership.Policy>,
                       pods: seq<Pod>, vulnerable: set<(string, string)>)

  datatype Verdict = Allow | Deny

  predicate AtRisk(p: Pod, nodes: set<string>) { !p.terminating && p.guarded && p.node in nodes }

  /** The names of the at-risk pods, in listing order. */
  function Collected(pods: seq<Pod>, nodes: set<string>): seq<string> {
    if pods == [] then []
    else
      var before := Collected(pods[..|pods| - 1], nodes);
      var p := pods[|pods| - 1];
      if AtRisk(p, nodes) then before + [p.name] else before
  }

  /** Collect and sort, then take the first; "" when there is none. */
  function NextAtRisk(pods: seq<Pod>, nodes: set<string>): string {
    var names := Sort(Collected(pods, nodes));
    if names == [] then "" else names[0]
  }

  ghost predicate Named(pods: seq<Pod>) { forall p :: p in pods ==> p.name != "" }

  lemma {:induction false} CollectedMembers(pods: seq<Pod>, nodes: set<string>, x: string)
    ensures x in Collected(pods, nodes) <==> exists p :: p in pods && AtRisk(p, nodes) && p.name == x
  {
    if pods != [] {
      var before, last := pods[..|pods| - 1], pods[|pods| - 1];
      assert pods == before + [last];
      CollectedMembers(before, nodes, x);
    }
  }

  ghost predicate LeastName(names: seq<string>, x: string) {
    if names == [] then x == "" else x in names && forall y :: y in names ==> y == x || Less(x, y)
  }

  lemma LeastNameIsNext(pods: seq<Pod>, nodes: set<string>, x: string)
    requires LeastName(Collected(pods, nodes), x)
    ensures x == NextAtRisk(pods, nodes)
  {
    var names := Collected(pods, nodes);
    Ownership.SortHead(names);
    if names != [] && Sort(names)[0] != x { LessAsymmetric(x, Sort(names)[0]); }
  }

  /** One pass for the lexicographic minimum. */
  method NextAtRiskPod(pods: seq<Pod>, vulnNodes: seq<string>) returns (next: string)
    requires Named(pods)
    ensures next == NextAtRisk(pods, ToSet(vulnNodes))
  {
    var vuln := ToSet(vulnNodes);
    next := "";
    for i := 0 to |pods|
      invariant LeastName(Collected(pods[..i], vuln), next)
    {
      assert pods[..i + 1][..i] == pods[..i];
      var p := pods[i];
      if p.terminating || !p.guarded || p.node !in vuln { continue; }
      ghost var names := Collected(pods[..i], vuln);
      assert p.name != "";
      if names != [] {
        CollectedMembers(pods[..i], vuln, next);
        LessTotal(p.name, next);
        forall y | y in names && Less(p.name, next) ensures Less(p.name, y) {
          if y != next { LessTransitive(p.name, next, y); }
        }
      }
      if next == "" || Less(p.name, next) { next := p.name; }
    }
    assert pods[..|pods|] == pods;
    LeastNameIsNext(pods, vuln, next);
  }

  /* ---- the decision ---- */

  function WindowOf(dep: Dep, policy: string): WKey { WKey(policy, dep.ns, dep.name) }

  /** The window the gate looks at: an active one, or a forced one. */
  function ActiveWindow(found: Result<Window>): Option<Window> {
    if found.Success? && (IsActive(found.value) || found.value.status.forcedCool) then Some(found.value) else None
  }

  /** The last part: spare is ready, so one pod at a time. */
  function TakeTurnsSpec(w: World, view: View, win: Window): (World, Result<Verdict>) {
    var nodes := if win.spec.nodes == [] then [view.pod.node] else win.spec.nodes;
    var (w1, err) := ReadSpec(w);
    if err.Some? then (w1, Failure(err.value))
    else
      var next := NextAtRisk(view.pods, ToSet(nodes));
      (w1, Success(if next == "" || view.pod.name == next then Allow else Deny))
  }

  function GuardSpec(w: World, view: View, dep: Dep, owner: string): (World, Result<Verdict>) {
    var (w1, found) := GetWinSpec(w, WindowOf(dep, owner));
    if found.Failure? && found.error != NotFound then (w1, Failure(found.error))
    else
      var win := ActiveWindow(found);
      if win.Some? && win.value.status.forcedCool then (w1, Success(Allow))
      else if win.Some? && win.value.status.phase == Closed then (w1, Success(Allow))
      else if win.None? || !win.value.status.spareReady then (w1, Success(Deny))
      else TakeTurnsSpec(w1, view, win.value)
  }

  function OwnedSpec(w: World, view: View, dep: Dep): (World, Result<Verdict>) {
    var (w1, perr) := ReadSpec(w);
    if perr.Some? then (w1, Failure(perr.value))
    else
      var (w2, nerr) := ReadSpec(w1);
      if nerr.Some? then (w2, Failure(nerr.value))
      else
        var owner := Ownership.ResolveOwner(dep.pin, view.policies);
        if owner.None? then (w2, Success(Allow))
        else if (owner.value.name, view.pod.node) !in view.vulnerable then (w2, Success(Allow))
        else GuardSpec(w2, view, dep, owner.value.name)
  }

  function EvaluateSpec(w: World, view: View): (World, Result<Verdict>) {
    if !view.pod.guarded || view.pod.node == "" then (w, Success(Allow))
    else
      var (w1, derr) := ReadSpec(w);
      if derr.Some? then (w1, Failure(derr.value))
      else if view.dep.None? || !view.dep.value.templateOptedIn then (w1, Success(Allow))
      else
        var (w2, nerr) := ReadSpec(w1);
        if nerr.Some? then (w2, Failure(nerr.value))
        else if !view.nodeExists then (w2, Success(Allow))
        else OwnedSpec(w2, view, view.dep.value)
  }

  method TakeTurns(c: Cluster, view: View, win: Window) returns (r: Result<Verdict>)
    requires Named(view.pods)
    modifies c
    ensures (c.W(), r) == TakeTurnsSpec(old(c.W()), view, win)
  {
    var nodes := if win.spec.nodes == [] then [view.pod.node] else win.spec.nodes;
    var err := c.Read();
    if err.Some? { return Failure(err.value); }
    var next := NextAtRiskPod(view.pods, nodes);
    if next == "" { return Success(Allow); }
    if view.pod.name != next { return Success(Deny); }
    r := Success(Allow);
  }

  method Evaluate(c: Cluster, view: View) returns (r: Result<Verdict>)
    requires Named(view.pods) && Ownership.UniqueNames(view.policies)
    modifies c
    ensures (c.W(), r) == EvaluateSpec(old(c.W()), view)
  {
    if !view.pod.guarded { return Success(Allow); }
    if view.pod.node == "" { return Success(Allow); }
    var err := c.Read();
    if err.Some? { return Failure(err.value); }
    if view.dep.None? || !view.dep.value.templateOptedIn { return Success(Allow); }
    err := c.Read();
    if err.Some? { return Failure(err.value); }
    if !view.nodeExists { return Success(Allow); }
    err := c.Read();
    if err.Some? { return Failure(err.value); }
    err := c.Read();
    if err.Some? { return Failure(err.value); }
    var owner := Ownership.Resolve(view.dep.value.pin, view.policies);
    if owner.None? { return Success(Allow); }
    if (owner.value.name, view.pod.node) !in view.vulnerable { return Success(Allow); }
    var found := c.GetWin(WindowOf(view.dep.value, owner.value.name));
    if found.Failure? && found.error != NotFound { return Failure(found.error); }
    var win := ActiveWindow(found);
    if win.Some? && win.value.status.forcedCool { return Success(Allow); }
    if win.Some? && win.value.status.phase == Closed { return Success(Allow); }
    if win.None? || !win.value.status.spareReady { return Success(Deny); }
    r := TakeTurns(c, view, win.value);
  }

  /* ---- what the gate guarantees ---- */

  /** The pod is one the gate watches: opted in, scheduled, its Deployment opted in, its
      node there and vulnerable under the owning policy. */
  predicate Watched(view: View) {
    && view.pod.guarded && view.pod.node != "" && view.dep.Some? && view.dep.value.templateOptedIn && view.nodeExists
    && var owner := Ownership.ResolveOwner(view.dep.value.pin, view.policies);
       owner.Some? && (owner.value.name, view.pod.node) in view.vulnerable
  }

  function KeyOfView(view: View): WKey
    requires Watched(view)
  {
    WindowOf(view.dep.value, Ownership.ResolveOwner(view.dep.value.pin, view.policies).value.name)
  }

  /** The window lets pods go one at a time. */
  predicate OneAtATime(w: World, k: WKey) {
    k in w.wins && IsActive(w.wins[k]) && w.wins[k].status.spareReady && !w.wins[k].status.forcedCool
  }

  function TurnNodes(win: Window, pod: Pod): set<string> {
    ToSet(if win.spec.nodes == [] then [pod.node] else win.spec.nodes)
  }

  /** The window denies: there is none, it is neither forced nor ready, or it is another
      pod's turn. */
  predicate WindowDenies(w: World, k: WKey, view: View) {
    || k !in w.wins
    || (!w.wins[k].status.forcedCool && !OneAtATime(w, k))
    || (OneAtATime(w, k) && NextAtRisk(view.pods, TurnNodes(w.wins[k], view.pod)) !in {"", view.pod.name})
  }

  lemma GuardDenies(w: World, view: View, dep: Dep, owner: string)
    ensures var r := GuardSpec(w, view, dep, owner).1;
            r.Success? ==> (r.value == Deny <==> WindowDenies(w, WindowOf(dep, owner), view))
  {
  }

  /** A verdict on a watched pod comes from its window, and on any other pod it is Allow. */
  lemma WatchedIsGuarded(w: World, view: View)
    requires EvaluateSpec(w, view).1.Success?
    ensures if Watched(view) then
              EvaluateSpec(w, view).1
                == GuardSpec(Rest(Rest(Rest(Rest(w)))), view, view.dep.value,
                             Ownership.ResolveOwner(view.dep.value.pin, view.policies).value.name).1
            else EvaluateSpec(w, view).1 == Success(Allow)
  {
  }

  /** Exactly when a verdict is Deny: a watched pod without a window, with a window that is
      closed or not SpareReady but not forced, or whose turn it is not. */
  lemma DeniedExactly(w: World, view: View)
    ensures var r := EvaluateSpec(w, view).1;
            r.Success? ==> (r.value == Deny <==> Watched(view) && WindowDenies(w, KeyOfView(view), view))
  {
    if EvaluateSpec(w, view).1.Success? {
      WatchedIsGuarded(w, view);
      if Watched(view) {
        GuardDenies(Rest(Rest(Rest(Rest(w)))), view, view.dep.value,
                    Ownership.ResolveOwner(view.dep.value.pin, view.policies).value.name);
      }
    }
  }

  /** Exclusion and progress: under a ready window with recorded nodes and a pod at risk, a
      watched pod may go exactly when its name is the least of the names at risk; and a pod
      of that name may go whether it is watched or not. */
  lemma ExactlyTheLeastMayGo(w: World, view: View, k: WKey)
    requires EvaluateSpec(w, view).1.Success? && Named(view.pods)
    requires OneAtATime(w, k) && w.wins[k].spec.nodes != []
    requires exists p :: p in view.pods && AtRisk(p, ToSet(w.wins[k].spec.nodes))
    requires Watched(view) ==> KeyOfView(view) == k
    ensures var names := Collected(view.pods, ToSet(w.wins[k].spec.nodes));
            && (Watched(view) ==> (EvaluateSpec(w, view).1.value == Allow <==> LeastName(names, view.pod.name)))
            && (LeastName(names, view.pod.name) ==> EvaluateSpec(w, view).1.value == Allow)
  {
    var nodes := ToSet(w.wins[k].spec.nodes);
    var names := Collected(view.pods, nodes);
    var p :| p in view.pods && AtRisk(p, nodes);
    CollectedMembers(view.pods, nodes, p.name);
    Ownership.SortHead(names);
    var next := NextAtRisk(view.pods, nodes);
    CollectedMembers(view.pods, nodes, next);
    if LeastName(names, view.pod.name) { LeastNameIsNext(view.pods, nodes, view.pod.name); }
    DeniedExactly(w, view);
  }

  /** After ForcedCool the gate never denies a pod of the workload. */
  lemma ForcedNeverDenies(w: World, view: View)
    requires Watched(view) ==> KeyOfView(view) in w.wins && w.wins[KeyOfView(view)].status.forcedCool
    ensures EvaluateSpec(w, view).1 != Success(Deny)
  {
    DeniedExactly(w, view);
  }
}
