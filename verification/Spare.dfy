/** internal/controller/spare.go: counting Ready, safe and at-risk pods of one workload. */
module Spare {
  /** A pod of the workload's namespace that its selector matches. `node` is "" while it is
      unscheduled; `guarded` is the protected label. */
  datatype Pod = Pod(name: string, node: string, terminating: bool, readyCondition: bool, guarded: bool)

  predicate PodReady(p: Pod) { !p.terminating && p.readyCondition }

  function Count<T>(pods: seq<T>, p: T -> bool): nat {
    if pods == [] then 0 else Count(pods[..|pods| - 1], p) + if p(pods[|pods| - 1]) then 1 else 0
  }

  lemma {:induction false} CountPositive<T>(pods: seq<T>, p: T -> bool)
    ensures Count(pods, p) > 0 <==> exists x :: x in pods && p(x)
  {
    if pods != [] {
      CountPositive(pods[..|pods| - 1], p);
      assert pods == pods[..|pods| - 1] + [pods[|pods| - 1]];
    }
  }

  lemma {:induction false} CountConcat<T>(a: seq<T>, b: seq<T>, p: T -> bool)
    ensures Count(a + b, p) == Count(a, p) + Count(b, p)
  {
    if b == [] {
      assert a + b == a;
    } else {
      assert (a + b)[..|a + b| - 1] == a + b[..|b| - 1];
      CountConcat(a, b[..|b| - 1], p);
    }
  }

  function SafeFor(nodes: set<string>): Pod -> bool { (p: Pod) => PodReady(p) && p.node !in nodes }

  function ExposedOn(nodes: set<string>): Pod -> bool { (p: Pod) => PodReady(p) && p.node in nodes }

  /** A pod that keeps a window open: live, bound, and on a node that is vulnerable now. */
  function AtRiskOn(vulnerable: set<string>): Pod -> bool {
    (p: Pod) => !p.terminating && p.node != "" && p.node in vulnerable
  }

  function ToSet(s: seq<string>): set<string> { set x | x in s }

  function ReadyCount(pods: seq<Pod>): nat { Count(pods, PodReady) }

  function SafeCount(pods: seq<Pod>, nodes: seq<string>): nat { Count(pods, SafeFor(ToSet(nodes))) }

  function LiveAtRisk(pods: seq<Pod>, vulnerable: set<string>): nat { Count(pods, AtRiskOn(vulnerable)) }

  method SpareCounts(pods: seq<Pod>, nodes: seq<string>) returns (ready: nat, safe: nat)
    ensures ready == ReadyCount(pods) && safe == SafeCount(pods, nodes)
  {
    var vuln: set<string> := {};
    for i := 0 to |nodes|
      invariant vuln == ToSet(nodes[..i])
    {
      assert nodes[..i + 1] == nodes[..i] + [nodes[i]];
      vuln := vuln + {nodes[i]};
    }
    assert nodes[..|nodes|] == nodes;
    ready, safe := 0, 0;
    for i := 0 to |pods|
      invariant ready == ReadyCount(pods[..i]) && safe == Count(pods[..i], SafeFor(vuln))
    {
      assert pods[..i + 1][..i] == pods[..i];
      if !PodReady(pods[i]) { continue; }
      ready := ready + 1;
      if pods[i].node !in vuln { safe := safe + 1; }
    }
    assert pods[..|pods|] == pods;
  }

  /** liveAtRiskPods: the count and the nodes, each node asked about once. */
  method LiveAtRiskPods(pods: seq<Pod>, isVulnerable: string -> bool, vulnerable: set<string>)
    returns (atRisk: nat, dying: set<string>)
    requires forall n :: isVulnerable(n) <==> n in vulnerable
    ensures atRisk == LiveAtRisk(pods, vulnerable)
    ensures dying == set p | p in pods && AtRiskOn(vulnerable)(p) :: p.node
  {
    var cache: map<string, bool> := map[];
    atRisk, dying := 0, {};
    for i := 0 to |pods|
      invariant forall n :: n in cache ==> cache[n] == (n in vulnerable)
      invariant atRisk == LiveAtRisk(pods[..i], vulnerable)
      invariant dying == set p | p in pods[..i] && AtRiskOn(vulnerable)(p) :: p.node
    {
      assert pods[..i + 1][..i] == pods[..i];
      assert pods[..i + 1] == pods[..i] + [pods[i]];
      var p := pods[i];
      if p.terminating || p.node == "" { continue; }
      if p.node !in cache { cache := cache[p.node := isVulnerable(p.node)]; }
      if !cache[p.node] { continue; }
      dying := dying + {p.node};
      atRisk := atRisk + 1;
    }
    assert pods[..|pods|] == pods;
  }
}
