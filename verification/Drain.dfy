/** A drain through the gate: which pods go, in which order, and what stays safe. */
module Drain {
  import opened Strings
  import opened Types
  import opened Store
  import opened Spare
  import opened Gate
  import WindowController

  function Without(pods: seq<Pod>, name: string): seq<Pod> {
    if pods == [] then []
    else
      var before := Without(pods[..|pods| - 1], name);
      if pods[|pods| - 1].name == name then before else before + [pods[|pods| - 1]]
  }

  ghost function RiskNames(pods: seq<Pod>, nodes: set<string>): set<string> {
    set p | p in pods && AtRisk(p, nodes) :: p.name
  }

  ghost predicate UniquePods(pods: seq<Pod>) {
    forall i, j :: 0 <= i < j < |pods| ==> pods[i].name != pods[j].name
  }

  lemma {:induction false} WithoutMembers(pods: seq<Pod>, name: string, p: Pod)
    ensures p in Without(pods, name) <==> p in pods && p.name != name
  {
    if pods != [] {
      assert pods == pods[..|pods| - 1] + [pods[|pods| - 1]];
      WithoutMembers(pods[..|pods| - 1], name, p);
    }
  }

  lemma {:induction false} WithoutKeepsSafe(pods: seq<Pod>, name: string, nodes: seq<string>)
    requires forall p :: p in pods && p.name == name ==> p.node in ToSet(nodes)
    ensures SafeCount(Without(pods, name), nodes) == SafeCount(pods, nodes)
  {
    if pods != [] {
      var before, last := pods[..|pods| - 1], pods[|pods| - 1];
      assert last in pods && forall p :: p in before ==> p in pods;
      WithoutKeepsSafe(before, name, nodes);
      if last.name != name {
        var rest := Without(before, name);
        assert (rest + [last])[..|rest|] == rest;
      }
    }
  }

  ghost predicate LeastOf(x: string, names: set<string>) { x in names && forall y :: y in names ==> y == x || Less(x, y) }

  /** One eviction the gate allows: a watched pod of the workload under its ready window. */
  datatype Admission = Admission(w: World, view: View)

  ghost predicate Admitted(a: Admission, k: WKey, nodes: seq<string>) {
    && OneAtATime(a.w, k) && a.w.wins[k].spec.nodes == nodes
    && Watched(a.view) && KeyOfView(a.view) == k && a.view.pod in a.view.pods && Named(a.view.pods) && UniquePods(a.view.pods)
    && EvaluateSpec(a.w, a.view).1 == Success(Allow)
  }

  /** The pods after the eviction: the admitted pod is gone, no other pod comes to be at risk,
      and no safe pod is lost otherwise. */
  ghost predicate Evicted(a: Admission, after: seq<Pod>, nodes: seq<string>) {
    var left := Without(a.view.pods, a.view.pod.name);
    && RiskNames(after, ToSet(nodes)) == RiskNames(left, ToSet(nodes))
    && SafeCount(after, nodes) >= SafeCount(left, nodes)
  }

  /** While a pod is at risk, the pod the gate admits is the one of least name at risk. */
  lemma AdmittedIsLeast(a: Admission, k: WKey, nodes: seq<string>)
    requires Admitted(a, k, nodes) && nodes != [] && RiskNames(a.view.pods, ToSet(nodes)) != {}
    ensures LeastOf(a.view.pod.name, RiskNames(a.view.pods, ToSet(nodes)))
  {
    var vuln := ToSet(nodes);
    var x :| x in RiskNames(a.view.pods, vuln);
    ExactlyTheLeastMayGo(a.w, a.view, k);
    forall y ensures y in Collected(a.view.pods, vuln) <==> y in RiskNames(a.view.pods, vuln) {
      CollectedMembers(a.view.pods, vuln, y);
    }
    CollectedMembers(a.view.pods, vuln, x);
    assert Collected(a.view.pods, vuln) != [];
  }

  /** One eviction takes the least name off the at-risk names, and none of the safe pods. */
  lemma EvictionStep(a: Admission, k: WKey, nodes: seq<string>, after: seq<Pod>, names: seq<string>)
    requires Admitted(a, k, nodes) && nodes != [] && Evicted(a, after, nodes)
    requires Ascending(names) && names != [] && forall x :: x in names <==> x in RiskNames(a.view.pods, ToSet(nodes))
    ensures a.view.pod.name == names[0]
    ensures forall x :: x in names[1..] <==> x in RiskNames(after, ToSet(nodes))
    ensures SafeCount(after, nodes) >= SafeCount(a.view.pods, nodes)
  {
    var pods, vuln, next := a.view.pods, ToSet(nodes), a.view.pod.name;
    assert names[0] in RiskNames(pods, vuln);
    AdmittedIsLeast(a, k, nodes);
    AscendingHead(names, next);
    if names[0] != next { LessAsymmetric(names[0], next); }
    RestAtRisk(pods, vuln, next, names);
    var p :| p in pods && AtRisk(p, vuln) && p.name == next;
    forall q | q in pods && q.name == next ensures q.node in vuln { SamePod(pods, p, q); }
    WithoutKeepsSafe(pods, next, nodes);
  }

  lemma SamePod(pods: seq<Pod>, p: Pod, q: Pod)
    requires UniquePods(pods) && p in pods && q in pods && p.name == q.name
    ensures p == q
  {
    var i :| 0 <= i < |pods| && pods[i] == p;
    var j :| 0 <= j < |pods| && pods[j] == q;
    assert i == j;
  }

  lemma RestAtRisk(pods: seq<Pod>, vuln: set<string>, next: string, names: seq<string>)
    requires Ascending(names) && names != [] && names[0] == next
    requires forall x :: x in names <==> x in RiskNames(pods, vuln)
    ensures forall x :: x in names[1..] <==> x in RiskNames(Without(pods, next), vuln)
  {
    AscendingHeadOnce(names);
    forall x ensures x in names[1..] <==> x in RiskNames(Without(pods, next), vuln) {
      assert x in names[1..] <==> x in names && x != next by { assert names == [names[0]] + names[1..]; }
      if x in RiskNames(Without(pods, next), vuln) {
        var q :| q in Without(pods, next) && AtRisk(q, vuln) && q.name == x;
        WithoutMembers(pods, next, q);
      }
      if x in names && x != next {
        var q :| q in pods && AtRisk(q, vuln) && q.name == x;
        WithoutMembers(pods, next, q);
      }
    }
  }

  /** The pods before the i-th eviction; after the last, `last`. */
  function PodsAt(rounds: seq<Admission>, last: seq<Pod>, i: nat): seq<Pod>
    requires i <= |rounds|
  {
    if i < |rounds| then rounds[i].view.pods else last
  }

  ghost predicate DrainedAt(rounds: seq<Admission>, last: seq<Pod>, k: WKey, nodes: seq<string>, i: nat)
    requires i < |rounds|
  {
    && Admitted(rounds[i], k, nodes) && RiskNames(rounds[i].view.pods, ToSet(nodes)) != {}
    && Evicted(rounds[i], PodsAt(rounds, last, i + 1), nodes)
  }

  /** Evictions through the gate, one after the other, each made while a pod is at risk; the
      pods of the next round are those the eviction leaves. */
  ghost predicate Drained(rounds: seq<Admission>, last: seq<Pod>, k: WKey, nodes: seq<string>) {
    forall i :: 0 <= i < |rounds| ==> DrainedAt(rounds, last, k, nodes, i)
  }

  /** The names left at risk before the i-th eviction are those from the i-th on. */
  ghost predicate LeftAt(rounds: seq<Admission>, last: seq<Pod>, nodes: seq<string>, names: seq<string>, i: nat)
    requires i <= |rounds|
  {
    i <= |names| && forall x :: x in names[i..] <==> x in RiskNames(PodsAt(rounds, last, i), ToSet(nodes))
  }

  lemma DrainStep(rounds: seq<Admission>, last: seq<Pod>, k: WKey, nodes: seq<string>, names: seq<string>, i: nat)
    requires Drained(rounds, last, k, nodes) && nodes != [] && Ascending(names)
    requires i < |rounds| && LeftAt(rounds, last, nodes, names, i)
    ensures i < |names| && rounds[i].view.pod.name == names[i] && LeftAt(rounds, last, nodes, names, i + 1)
    ensures SafeCount(PodsAt(rounds, last, i + 1), nodes) >= SafeCount(PodsAt(rounds, last, i), nodes)
  {
    assert DrainedAt(rounds, last, k, nodes, i);
    var x :| x in RiskNames(rounds[i].view.pods, ToSet(nodes));
    assert x in names[i..];
    EvictionStep(rounds[i], k, nodes, PodsAt(rounds, last, i + 1), names[i..]);
    assert names[i..][1..] == names[i + 1..];
  }

  lemma {:induction false} DrainUpTo(rounds: seq<Admission>, last: seq<Pod>, k: WKey, nodes: seq<string>, names: seq<string>, n: nat)
    requires Drained(rounds, last, k, nodes) && nodes != [] && Ascending(names)
    requires n <= |rounds| && LeftAt(rounds, last, nodes, names, 0)
    ensures LeftAt(rounds, last, nodes, names, n) && forall i :: 0 <= i < n ==> rounds[i].view.pod.name == names[i]
    ensures forall i :: 0 <= i <= n ==> SafeCount(PodsAt(rounds, last, i), nodes) >= SafeCount(PodsAt(rounds, last, 0), nodes)
  {
    if n > 0 {
      DrainUpTo(rounds, last, k, nodes, names, n - 1);
      DrainStep(rounds, last, k, nodes, names, n - 1);
    }
  }

  /** A whole drain: whatever pods the gate admits, they are the at-risk pods in strictly
      ascending name order, each once, so there are no more rounds than pods at risk; those not
      yet admitted are what is left at risk, and the safe pods never get fewer. */
  lemma DrainInOrder(rounds: seq<Admission>, last: seq<Pod>, k: WKey, nodes: seq<string>, names: seq<string>)
    requires Drained(rounds, last, k, nodes) && nodes != [] && Ascending(names)
    requires forall x :: x in names <==> x in RiskNames(PodsAt(rounds, last, 0), ToSet(nodes))
    ensures |rounds| <= |names| && forall i :: 0 <= i < |rounds| ==> rounds[i].view.pod.name == names[i]
    ensures forall x :: x in names[|rounds|..] <==> x in RiskNames(last, ToSet(nodes))
    ensures forall i :: 0 <= i <= |rounds| ==> SafeCount(PodsAt(rounds, last, i), nodes) >= SafeCount(PodsAt(rounds, last, 0), nodes)
  {
    assert names[0..] == names;
    DrainUpTo(rounds, last, k, nodes, names, |rounds|);
  }

  /** Drain safety: when the window's SpareReady comes from a status write that counted the
      pods the drain starts with, the safe pods stay at or above its baseline throughout. */
  lemma DrainKeepsBaseline(w: World, k: WKey, win: Window, input: WindowController.WinIn, phase: Phase, msg: Msg,
                           rounds: seq<Admission>, last: seq<Pod>, names: seq<string>)
    requires k in w.wins && w.wins[k] == win && WindowController.SpareAgrees(win.status)
    requires WindowController.WriteStatusSpec(w, k, win, input, phase, msg).1.None?
    requires rounds != [] && rounds[0].view.pods == input.pods && win.spec.nodes != [] && Ascending(names)
    requires k in rounds[0].w.wins && rounds[0].w.wins[k] == WindowController.WriteStatusSpec(w, k, win, input, phase, msg).0.wins[k]
    requires Drained(rounds, last, k, win.spec.nodes)
    requires forall x :: x in names <==> x in RiskNames(input.pods, ToSet(win.spec.nodes))
    ensures forall i :: 0 <= i <= |rounds| ==> SafeCount(PodsAt(rounds, last, i), win.spec.nodes) >= win.spec.baseline
  {
    WindowController.SpareReadyIsCounted(w, k, win, input, phase, msg);
    assert DrainedAt(rounds, last, k, win.spec.nodes, 0);
    DrainInOrder(rounds, last, k, win.spec.nodes, names);
    assert PodsAt(rounds, last, 0) == input.pods;
  }

  /** Drain progress: while a pod is at risk under a ready window, the gate admits the pod of
      least name whenever it answers. */
  lemma LeastIsAdmitted(w: World, view: View, k: WKey)
    requires EvaluateSpec(w, view).1.Success? && Named(view.pods) && OneAtATime(w, k) && w.wins[k].spec.nodes != []
    requires LeastOf(view.pod.name, RiskNames(view.pods, ToSet(w.wins[k].spec.nodes))) && (Watched(view) ==> KeyOfView(view) == k)
    ensures EvaluateSpec(w, view).1.value == Allow
  {
    var vuln := ToSet(w.wins[k].spec.nodes);
    forall y ensures y in Collected(view.pods, vuln) <==> y in RiskNames(view.pods, vuln) {
      CollectedMembers(view.pods, vuln, y);
    }
    assert Collected(view.pods, vuln) != [];
    ExactlyTheLeastMayGo(w, view, k);
  }
}
