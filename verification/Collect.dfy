/** collectWorkloads: which workloads have pods at risk, found through three caches. */
module Collect {
  import opened Strings
  import opened Types
  import opened Spare

  /** `refs` names the ReplicaSets that control the pod, in owner-reference order. */
  datatype PodRec = PodRec(name: string, ns: string, node: string, terminating: bool, guarded: bool, refs: seq<string>)

  datatype Dep = Dep(ns: string, name: string, guarded: bool)

  /** What the informer caches hold: ReplicaSets by namespace and name with the Deployment
      that controls them, Deployments, namespace labels, and the (Deployment, labels) pairs
      the policy owns. */
  datatype Snapshot = Snapshot(pods: seq<PodRec>, replicaSets: map<(string, string), Option<string>>,
                               deps: map<(string, string), Dep>, labels: map<string, string>, owned: set<(Dep, string)>)

  /** A Deployment is filed under its own namespace and name; namespaces have no slash. */
  ghost predicate WellFiled(s: Snapshot) {
    forall k :: k in s.deps ==> s.deps[k].ns == k.0 && s.deps[k].name == k.1 && '/' !in k.0
  }

  /** Walk the controlling ReplicaSets to a Deployment; a missing one ends the walk. */
  function OwnerVia(s: Snapshot, ns: string, refs: seq<string>): Option<Dep> {
    if refs == [] then None
    else if (ns, refs[0]) !in s.replicaSets then None
    else
      match s.replicaSets[(ns, refs[0])]
      case None => OwnerVia(s, ns, refs[1..])
      case Some(dep) => if (ns, dep) in s.deps then Some(s.deps[(ns, dep)]) else None
  }

  function OwnerOf(s: Snapshot, p: PodRec): Option<Dep> { OwnerVia(s, p.ns, p.refs) }

  lemma {:induction false} OwnerNamespace(s: Snapshot, ns: string, refs: seq<string>)
    requires WellFiled(s)
    ensures OwnerVia(s, ns, refs).Some? ==> OwnerVia(s, ns, refs).value.ns == ns && '/' !in ns
    ensures OwnerVia(s, ns, refs).Some? ==> s.deps.Keys != {} && (ns, OwnerVia(s, ns, refs).value.name) in s.deps
  {
    if refs != [] && (ns, refs[0]) in s.replicaSets && s.replicaSets[(ns, refs[0])].None? {
      OwnerNamespace(s, ns, refs[1..]);
    }
  }

  function LabelsOf(s: Snapshot, ns: string): string { if ns in s.labels then s.labels[ns] else "" }

  function DepKey(d: Dep): string { d.ns + "/" + d.name }

  /* ---- the uncached definition ---- */

  /** The pod counts for the workload filed under `key`. */
  predicate Hits(s: Snapshot, p: PodRec, key: string) {
    && !p.terminating && p.guarded
    && var dep := OwnerOf(s, p);
       dep.Some? && dep.value.guarded && DepKey(dep.value) == key && (dep.value, LabelsOf(s, p.ns)) in s.owned
  }

  function HitsKey(s: Snapshot, key: string): PodRec -> bool { (p: PodRec) => Hits(s, p, key) }

  function HitsOn(s: Snapshot, key: string, nodes: set<string>): PodRec -> bool {
    (p: PodRec) => p.node in nodes && Hits(s, p, key)
  }

  datatype Found = Found(dep: Dep, atRisk: nat, nodes: set<string>)

  /** `out` is what the pods of `seen` add up to. */
  ghost predicate Sums(s: Snapshot, seen: seq<PodRec>, out: map<string, Found>) {
    forall key ::
      && (key in out <==> Count(seen, HitsKey(s, key)) > 0)
      && (key in out ==>
            && out[key].atRisk == Count(seen, HitsKey(s, key))
            && out[key].nodes == (set p | p in seen && Hits(s, p, key) :: p.node)
            && DepKey(out[key].dep) == key && (out[key].dep.ns, out[key].dep.name) in s.deps
            && s.deps[(out[key].dep.ns, out[key].dep.name)] == out[key].dep)
  }

  function PodsOnNode(pods: seq<PodRec>, node: string): seq<PodRec> {
    if pods == [] then []
    else
      var before := PodsOnNode(pods[..|pods| - 1], node);
      var p := pods[|pods| - 1];
      if p.node == node then before + [p] else before
  }

  function PodsOnNodes(pods: seq<PodRec>, nodes: seq<string>): seq<PodRec> {
    if nodes == [] then [] else PodsOnNodes(pods, nodes[..|nodes| - 1]) + PodsOnNode(pods, nodes[|nodes| - 1])
  }

  lemma {:induction false} CountOnNode(s: Snapshot, pods: seq<PodRec>, node: string, key: string)
    ensures Count(PodsOnNode(pods, node), HitsKey(s, key)) == Count(pods, HitsOn(s, key, {node}))
  {
    if pods != [] {
      var before, p := pods[..|pods| - 1], pods[|pods| - 1];
      CountOnNode(s, before, node, key);
      if p.node == node {
        var rest := PodsOnNode(before, node);
        assert (rest + [p])[..|rest|] == rest;
      }
    }
  }

  lemma {:induction false} CountUnion(s: Snapshot, pods: seq<PodRec>, nodes: set<string>, node: string, key: string)
    requires node !in nodes
    ensures Count(pods, HitsOn(s, key, nodes + {node})) == Count(pods, HitsOn(s, key, nodes)) + Count(pods, HitsOn(s, key, {node}))
  {
    if pods != [] { CountUnion(s, pods[..|pods| - 1], nodes, node, key); }
  }

  /** Visiting the pods node by node visits each pod on those nodes once. */
  lemma {:induction false} CountOnNodes(s: Snapshot, nodes: seq<string>, key: string)
    requires Distinct(nodes)
    ensures Count(PodsOnNodes(s.pods, nodes), HitsKey(s, key)) == Count(s.pods, HitsOn(s, key, ToSet(nodes)))
  {
    if nodes == [] {
      assert ToSet(nodes) == {};
      CountNone(s, s.pods, key);
    } else {
      var before, last := nodes[..|nodes| - 1], nodes[|nodes| - 1];
      CountOnNodes(s, before, key);
      CountConcat(PodsOnNodes(s.pods, before), PodsOnNode(s.pods, last), HitsKey(s, key));
      CountOnNode(s, s.pods, last, key);
      CountUnion(s, s.pods, ToSet(before), last, key);
      assert nodes == before + [last];
      assert ToSet(nodes) == ToSet(before) + {last};
    }
  }

  lemma {:induction false} CountNone(s: Snapshot, pods: seq<PodRec>, key: string)
    ensures Count(pods, HitsOn(s, key, {})) == 0
  {
    if pods != [] { CountNone(s, pods[..|pods| - 1], key); }
  }

  lemma {:induction false} OnNodesMembers(pods: seq<PodRec>, nodes: seq<string>, p: PodRec)
    ensures p in PodsOnNodes(pods, nodes) <==> p in pods && p.node in nodes
  {
    if nodes != [] {
      OnNodesMembers(pods, nodes[..|nodes| - 1], p);
      OnNodeMembers(pods, nodes[|nodes| - 1], p);
      assert nodes == nodes[..|nodes| - 1] + [nodes[|nodes| - 1]];
    }
  }

  lemma {:induction false} OnNodeMembers(pods: seq<PodRec>, node: string, p: PodRec)
    ensures p in PodsOnNode(pods, node) <==> p in pods && p.node == node
  {
    if pods != [] {
      OnNodeMembers(pods[..|pods| - 1], node, p);
      assert pods == pods[..|pods| - 1] + [pods[|pods| - 1]];
    }
  }

  /* ---- the caches ---- */

  /** Each pod has at most one controlling ReplicaSet. */
  ghost predicate SingleOwner(s: Snapshot) { forall p :: p in s.pods ==> |p.refs| <= 1 }

  /** Every cached answer is the answer. `byRS` files a Deployment under namespace and
      ReplicaSet, `owns` a decision under the Deployment's key. */
  ghost predicate GoodCaches(s: Snapshot, byRS: map<(string, string), Option<Dep>>, ns: map<string, string>, owns: map<string, bool>) {
    && (forall k :: k in byRS ==> byRS[k] == OwnerVia(s, k.0, [k.1]))
    && (forall n :: n in ns ==> ns[n] == LabelsOf(s, n))
    && forall d :: d in s.deps && DepKey(s.deps[d]) in owns ==> owns[DepKey(s.deps[d])] == ((s.deps[d], LabelsOf(s, d.0)) in s.owned)
  }

  method OwnerCached(s: Snapshot, p: PodRec, byRS: map<(string, string), Option<Dep>>)
    returns (dep: Option<Dep>, cache: map<(string, string), Option<Dep>>)
    requires |p.refs| <= 1 && forall k :: k in byRS ==> byRS[k] == OwnerVia(s, k.0, [k.1])
    ensures dep == OwnerOf(s, p)
    ensures forall k :: k in cache ==> cache[k] == OwnerVia(s, k.0, [k.1])
  {
    cache := byRS;
    if p.refs == [] { return None, cache; }
    assert p.refs == [p.refs[0]];
    var key := (p.ns, p.refs[0]);
    if key in cache { return cache[key], cache; }
    dep := OwnerVia(s, p.ns, p.refs);
    cache := cache[key := dep];
  }

  lemma DepKeyInjective(s: Snapshot, d: (string, string), e: (string, string))
    requires WellFiled(s) && d in s.deps && e in s.deps && DepKey(s.deps[d]) == DepKey(s.deps[e])
    ensures d == e
  {
    CutUnique(d.0, d.1, e.0, e.1);
  }

  /** The cached ownership decision for one Deployment of the snapshot. */
  method OwnsCached(s: Snapshot, d: (string, string), nsIn: map<string, string>, ownsIn: map<string, bool>)
    returns (owns: bool, ns: map<string, string>, decided: map<string, bool>)
    requires WellFiled(s) && d in s.deps && GoodCaches(s, map[], nsIn, ownsIn)
    ensures owns == ((s.deps[d], LabelsOf(s, d.0)) in s.owned)
    ensures GoodCaches(s, map[], ns, decided)
  {
    ns, decided := nsIn, ownsIn;
    var key := DepKey(s.deps[d]);
    if key in decided { return decided[key], ns, decided; }
    if d.0 !in ns { ns := ns[d.0 := LabelsOf(s, d.0)]; }
    owns := (s.deps[d], ns[d.0]) in s.owned;
    decided := decided[key := owns];
    forall e | e in s.deps && DepKey(s.deps[e]) == key ensures e == d { DepKeyInjective(s, d, e); }
  }

  /** One pod more. */
  lemma SumsNext(s: Snapshot, seen: seq<PodRec>, p: PodRec, key: string)
    ensures Count(seen + [p], HitsKey(s, key)) == Count(seen, HitsKey(s, key)) + if Hits(s, p, key) then 1 else 0
    ensures (set q | q in seen + [p] && Hits(s, q, key) :: q.node)
              == (set q | q in seen && Hits(s, q, key) :: q.node) + if Hits(s, p, key) then {p.node} else {}
  {
    assert (seen + [p])[..|seen|] == seen;
  }

  /** Filing the pod, or leaving it out, sums up one pod more. */
  lemma SumsSkip(s: Snapshot, seen: seq<PodRec>, p: PodRec, out: map<string, Found>)
    requires Sums(s, seen, out) && forall key :: !Hits(s, p, key)
    ensures Sums(s, seen + [p], out)
  {
    forall key { SumsNext(s, seen, p, key); }
  }

  function Filed(out: map<string, Found>, dep: Dep, node: string): map<string, Found> {
    var key := DepKey(dep);
    var st := if key in out then out[key] else Found(dep, 0, {});
    out[key := st.(atRisk := st.atRisk + 1, nodes := st.nodes + {node})]
  }

  lemma SumsFile(s: Snapshot, seen: seq<PodRec>, p: PodRec, out: map<string, Found>, dep: Dep)
    requires WellFiled(s) && Sums(s, seen, out) && OwnerOf(s, p) == Some(dep)
    requires forall key :: Hits(s, p, key) <==> key == DepKey(dep)
    ensures Sums(s, seen + [p], Filed(out, dep, p.node))
  {
    var out1 := Filed(out, dep, p.node);
    OwnerNamespace(s, p.ns, p.refs);
    OwnerFiled(s, p.ns, p.refs);
    forall key
      ensures key in out1 <==> Count(seen + [p], HitsKey(s, key)) > 0
      ensures key in out1 ==>
                && out1[key].atRisk == Count(seen + [p], HitsKey(s, key))
                && out1[key].nodes == (set q | q in seen + [p] && Hits(s, q, key) :: q.node)
    {
      SumsNext(s, seen, p, key);
      if key == DepKey(dep) && key !in out {
        CountPositive(seen, HitsKey(s, key));
        assert forall q :: q in seen ==> !HitsKey(s, key)(q);
      }
    }
  }

  lemma {:induction false} OwnerFiled(s: Snapshot, ns: string, refs: seq<string>)
    requires WellFiled(s) && OwnerVia(s, ns, refs).Some?
    ensures var d := OwnerVia(s, ns, refs).value;
            (d.ns, d.name) in s.deps && s.deps[(d.ns, d.name)] == d
  {
    if s.replicaSets[(ns, refs[0])].None? { OwnerFiled(s, ns, refs[1..]); }
  }

  datatype Caches = Caches(byRS: map<(string, string), Option<Dep>>, ns: map<string, string>, owns: map<string, bool>)

  ghost predicate Good(s: Snapshot, c: Caches) { GoodCaches(s, c.byRS, c.ns, c.owns) }

  /** One pod, answered from the caches where they know. */
  method Visit(s: Snapshot, p: PodRec, before: map<string, Found>, known: Caches, ghost seen: seq<PodRec>)
    returns (out: map<string, Found>, c: Caches)
    requires WellFiled(s) && |p.refs| <= 1 && Sums(s, seen, before) && Good(s, known)
    ensures Sums(s, seen + [p], out) && Good(s, c)
  {
    out, c := before, known;
    if p.terminating {
      SumsSkip(s, seen, p, before);
      return;
    }
    var dep, byRS := OwnerCached(s, p, c.byRS);
    c := c.(byRS := byRS);
    if dep.None? || !p.guarded || !dep.value.guarded {
      SumsSkip(s, seen, p, before);
      return;
    }
    OwnerNamespace(s, p.ns, p.refs);
    OwnerFiled(s, p.ns, p.refs);
    var owns, ns, decided := OwnsCached(s, (dep.value.ns, dep.value.name), c.ns, c.owns);
    c := c.(ns := ns, owns := decided);
    if !owns {
      SumsSkip(s, seen, p, before);
      return;
    }
    SumsFile(s, seen, p, before, dep.value);
    out := Filed(before, dep.value, p.node);
  }

  method CollectWorkloads(s: Snapshot, vulnerable: seq<string>) returns (out: map<string, Found>)
    requires WellFiled(s) && SingleOwner(s) && Distinct(vulnerable)
    ensures forall key :: key in out <==> Count(s.pods, HitsOn(s, key, ToSet(vulnerable))) > 0
    ensures forall key :: key in out ==>
              && out[key].atRisk == Count(s.pods, HitsOn(s, key, ToSet(vulnerable)))
              && out[key].nodes == (set p | p in s.pods && HitsOn(s, key, ToSet(vulnerable))(p) :: p.node)
              && DepKey(out[key].dep) == key
  {
    out := map[];
    var c := Caches(map[], map[], map[]);
    for i := 0 to |vulnerable|
      invariant Sums(s, PodsOnNodes(s.pods, vulnerable[..i]), out) && Good(s, c)
    {
      var list := PodsOnNode(s.pods, vulnerable[i]);
      ghost var seen := PodsOnNodes(s.pods, vulnerable[..i]);
      assert seen + list[..0] == seen;
      for j := 0 to |list|
        invariant Sums(s, seen + list[..j], out) && Good(s, c)
      {
        OnNodeMembers(s.pods, vulnerable[i], list[j]);
        assert seen + list[..j + 1] == seen + list[..j] + [list[j]];
        out, c := Visit(s, list[j], out, c, seen + list[..j]);
      }
      assert vulnerable[..i + 1][..i] == vulnerable[..i] && list[..|list|] == list;
    }
    assert vulnerable[..|vulnerable|] == vulnerable;
    SumsOnNodes(s, vulnerable, out);
  }

  lemma SumsOnNodes(s: Snapshot, nodes: seq<string>, out: map<string, Found>)
    requires Distinct(nodes) && Sums(s, PodsOnNodes(s.pods, nodes), out)
    ensures forall key :: key in out <==> Count(s.pods, HitsOn(s, key, ToSet(nodes))) > 0
    ensures forall key :: key in out ==>
              && out[key].atRisk == Count(s.pods, HitsOn(s, key, ToSet(nodes)))
              && out[key].nodes == (set p | p in s.pods && HitsOn(s, key, ToSet(nodes))(p) :: p.node)
  {
    var seen := PodsOnNodes(s.pods, nodes);
    forall p ensures p in seen <==> p in s.pods && p.node in nodes { OnNodesMembers(s.pods, nodes, p); }
    forall key
      ensures Count(seen, HitsKey(s, key)) == Count(s.pods, HitsOn(s, key, ToSet(nodes)))
      ensures (set p | p in seen && Hits(s, p, key) :: p.node)
                == (set p | p in s.pods && HitsOn(s, key, ToSet(nodes))(p) :: p.node)
    {
      CountOnNodes(s, nodes, key);
    }
  }

  /* ---- counted means live ---- */

  /** The selector of the Deployment matches every pod it owns. */
  ghost predicate Selected(s: Snapshot, key: string, pods: seq<Pod>) {
    forall p :: p in s.pods && Hits(s, p, key) ==>
      exists q :: q in pods && q.name == p.name && q.node == p.node && q.terminating == p.terminating
  }

  /** A workload the policy controller counts is one the window controller finds at risk. */
  lemma CountedIsLive(s: Snapshot, vulnerable: seq<string>, key: string, pods: seq<Pod>)
    requires Count(s.pods, HitsOn(s, key, ToSet(vulnerable))) > 0
    requires Selected(s, key, pods) && "" !in vulnerable
    ensures LiveAtRisk(pods, ToSet(vulnerable)) > 0
  {
    CountPositive(s.pods, HitsOn(s, key, ToSet(vulnerable)));
    var p :| p in s.pods && HitsOn(s, key, ToSet(vulnerable))(p);
    var q :| q in pods && q.name == p.name && q.node == p.node && q.terminating == p.terminating;
    assert AtRiskOn(ToSet(vulnerable))(q);
    CountPositive(pods, AtRiskOn(ToSet(vulnerable)));
  }
}
