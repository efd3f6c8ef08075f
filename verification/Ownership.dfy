/** pkg/policyown: which policy owns a workload. */
module Ownership {
  import opened Strings
  import opened Types

  /** A policy as one workload sees it: `matches` says whether its namespace and workload
      selectors both accept the workload. */
  datatype Policy = Policy(name: string, deleting: bool, matches: bool)

  predicate Candidate(p: Policy) { !p.deleting && p.matches }

  /** Policy names are unique in a cluster. */
  ghost predicate UniqueNames(all: seq<Policy>) {
    forall i, j :: 0 <= i < j < |all| ==> all[i].name != all[j].name
  }

  /** `p` is the candidate with the least name. */
  ghost predicate Least(all: seq<Policy>, p: Policy) {
    p in all && Candidate(p) && forall q :: q in all && Candidate(q) ==> q.name == p.name || Less(p.name, q.name)
  }

  lemma {:induction false} InsertHead(x: string, s: seq<string>)
    ensures Insert(x, s)[0] == (if s == [] || Less(x, s[0]) then x else s[0])
    ensures forall y :: y in Insert(x, s) <==> y == x || y in s
  {
    if s != [] && !Less(x, s[0]) { InsertHead(x, s[1..]); }
  }

  /** The head of a sorted list is its least member. */
  lemma {:induction false} SortHead(s: seq<string>)
    ensures forall y :: y in Sort(s) <==> y in s
    ensures s != [] ==> Sort(s) != [] && Sort(s)[0] in s && forall y :: y in s ==> y == Sort(s)[0] || Less(Sort(s)[0], y)
  {
    if s != [] {
      var t := Sort(s[1..]);
      SortHead(s[1..]);
      InsertHead(s[0], t);
      forall y | y in s ensures y in Sort(s) && (y == Sort(s)[0] || Less(Sort(s)[0], y)) {
        if t != [] {
          LessTotal(s[0], t[0]);
          if Less(s[0], t[0]) && Less(t[0], y) { LessTransitive(s[0], t[0], y); }
        }
      }
    }
  }

  /** One name per candidate, sorted; the first name wins. */
  method FirstByName(all: seq<Policy>) returns (r: Option<Policy>)
    ensures r.Some? ==> Least(all, r.value)
    ensures r.None? ==> forall q :: q in all ==> !Candidate(q)
  {
    var names: seq<string> := [];
    var byName: map<string, Policy> := map[];
    for i := 0 to |all|
      invariant forall n :: n in names <==> n in byName
      invariant forall n :: n in byName ==> byName[n] in all && Candidate(byName[n]) && byName[n].name == n
      invariant forall j :: 0 <= j < i && Candidate(all[j]) ==> all[j].name in byName
    {
      var p := all[i];
      if p.deleting || !p.matches || p.name in byName { continue; }
      byName := byName[p.name := p];
      names := names + [p.name];
    }
    if |names| == 0 { return None; }
    SortHead(names);
    r := Some(byName[Sort(names)[0]]);
  }

  /** FirstByName as a function of the list. */
  function First(all: seq<Policy>): Option<Policy> {
    if all == [] then None
    else
      var rest := First(all[1..]);
      if !Candidate(all[0]) then rest
      else if rest.Some? && Less(rest.value.name, all[0].name) then rest
      else Some(all[0])
  }

  lemma {:induction false} FirstIsLeast(all: seq<Policy>)
    ensures First(all).Some? ==> Least(all, First(all).value)
    ensures First(all).None? ==> forall q :: q in all ==> !Candidate(q)
  {
    if all != [] {
      FirstIsLeast(all[1..]);
      var rest := First(all[1..]);
      if Candidate(all[0]) && rest.Some? {
        LessTotal(rest.value.name, all[0].name);
        forall q | q in all && Candidate(q) && First(all).value == all[0] ensures q.name == all[0].name || Less(all[0].name, q.name) {
          if q != all[0] && Less(all[0].name, rest.value.name) && Less(rest.value.name, q.name) {
            LessTransitive(all[0].name, rest.value.name, q.name);
          }
        }
      }
    }
  }

  /** There is at most one policy with the least name. */
  lemma LeastUnique(all: seq<Policy>, p: Policy, q: Policy)
    requires UniqueNames(all) && Least(all, p) && Least(all, q)
    ensures p == q
  {
    if Less(p.name, q.name) { LessAsymmetric(p.name, q.name); }
  }

  function Pin(annotation: string): string { TrimSpace(annotation) }

  predicate Owns(p: Policy, annotation: string, all: seq<Policy>) {
    var pin := Pin(annotation);
    if p.deleting then false
    else if pin != "" then pin == p.name
    else p.matches && First(all).Some? && First(all).value.name == p.name
  }

  function FindNamed(all: seq<Policy>, name: string): (r: Option<Policy>)
    ensures r.Some? ==> r.value in all && !r.value.deleting && r.value.name == name
    ensures r.None? ==> forall q :: q in all && !q.deleting ==> q.name != name
  {
    if all == [] then None
    else if !all[0].deleting && all[0].name == name then Some(all[0])
    else FindNamed(all[1..], name)
  }

  function ResolveOwner(annotation: string, all: seq<Policy>): Option<Policy> {
    var pin := Pin(annotation);
    if pin != "" then FindNamed(all, pin) else First(all)
  }

  method Resolve(annotation: string, all: seq<Policy>) returns (r: Option<Policy>)
    requires UniqueNames(all)
    ensures r == ResolveOwner(annotation, all)
  {
    var pin := Pin(annotation);
    if pin != "" {
      for i := 0 to |all|
        invariant FindNamed(all, pin) == FindNamed(all[i..], pin)
      {
        assert all[i..][1..] == all[i + 1..];
        if !all[i].deleting && all[i].name == pin { return Some(all[i]); }
      }
      return None;
    }
    r := FirstByName(all);
    FirstIsLeast(all);
    if r.Some? && First(all).Some? { LeastUnique(all, r.value, First(all).value); }
  }

  /** The controller's question and the gate's answer agree: a listed policy owns the
      workload exactly when it is the one the gate resolves. */
  lemma OwnsIffResolved(p: Policy, annotation: string, all: seq<Policy>)
    requires UniqueNames(all) && p in all
    ensures Owns(p, annotation, all) <==> ResolveOwner(annotation, all) == Some(p)
  {
    FirstIsLeast(all);
    var first := First(all);
    if first.Some? && first.value.name == p.name {
      assert first.value == p;
    }
  }

  /** At most one listed policy owns a workload, whatever the pin. */
  lemma OneOwner(p: Policy, q: Policy, annotation: string, all: seq<Policy>)
    requires UniqueNames(all) && p in all && q in all
    requires Owns(p, annotation, all) && Owns(q, annotation, all)
    ensures p == q
  {
    OwnsIffResolved(p, annotation, all);
    OwnsIffResolved(q, annotation, all);
  }

  /** The order of the list is of no account. */
  lemma OwnerIgnoresOrder(annotation: string, all: seq<Policy>, other: seq<Policy>)
    requires UniqueNames(all) && UniqueNames(other) && forall p :: p in all <==> p in other
    ensures ResolveOwner(annotation, all) == ResolveOwner(annotation, other)
  {
    FirstIsLeast(all);
    FirstIsLeast(other);
    if First(all).Some? && First(other).Some? { LeastUnique(all, First(all).value, First(other).value); }
    var pin := Pin(annotation);
    var a, b := FindNamed(all, pin), FindNamed(other, pin);
    if a.Some? && b.Some? {
      assert a.value in other;
      var i :| 0 <= i < |other| && other[i] == a.value;
      var j :| 0 <= j < |other| && other[j] == b.value;
      assert i == j;
    }
  }
}
