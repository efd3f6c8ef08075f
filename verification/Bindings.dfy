/** pkg/backends/bindings.go: from the scale-backend annotation to the steps of a plan. */
module Bindings {
  import opened Strings
  import opened Types
  import opened Plan

  datatype Binding = Binding(key: string, ns: string, name: string)

  datatype Patch = Patch(path: string, annotation: string)

  datatype CatalogEntry = CatalogEntry(apiVersion: string, kind: string, patches: seq<Patch>,
                                       defaultWhenUnset: Option<int32>, skip: bool)

  /* ---- ParseBindings ---- */

  /** key, key=, key=name or key=ns/name; None is the error. */
  function SplitBinding(tok: string, defaultNS: string, defaultName: string): Option<Binding> {
    var eq := IndexOf(tok, '=');
    var key := TrimSpace(tok[..eq]);
    var rest := if eq < |tok| then TrimSpace(tok[eq + 1..]) else "";
    if key == "" then None
    else if rest == "" then Some(Binding(key, defaultNS, defaultName))
    else if '/' in rest then
      var parts := Split(rest, '/');
      if |parts| != 2 || parts[0] == "" || parts[1] == "" then None else Some(Binding(key, parts[0], parts[1]))
    else Some(Binding(key, defaultNS, rest))
  }

  /** One token: nothing when it is blank, a binding, or an error. */
  function ReadToken(tok: string, ns: string, name: string): Result<Option<Binding>> {
    var p := TrimSpace(tok);
    if p == "" then Success(None)
    else
      var b := SplitBinding(p, ns, name);
      if b.None? then Failure(Other) else Success(b)
  }

  type Read = Result<Option<Binding>>

  predicate Binds(r: Read) { r.Success? && r.value.Some? }

  function ReadAll(tokens: seq<string>, ns: string, name: string): (read: seq<Read>)
    ensures |read| == |tokens| && forall i :: 0 <= i < |read| ==> read[i] == ReadToken(tokens[i], ns, name)
  {
    seq(|tokens|, i requires 0 <= i < |tokens| => ReadToken(tokens[i], ns, name))
  }

  /** The keys bound by the first `n` tokens. */
  function KeysBefore(read: seq<Read>, n: nat): set<string>
    requires n <= |read|
  {
    if n == 0 then {}
    else KeysBefore(read, n - 1) + if Binds(read[n - 1]) then {read[n - 1].value.value.key} else {}
  }

  /** Of the first `n` tokens the bindings that come first for their key, in order. */
  function FirstOfEachKey(read: seq<Read>, n: nat): seq<Binding>
    requires n <= |read|
  {
    if n == 0 then []
    else
      var before := FirstOfEachKey(read, n - 1);
      if Binds(read[n - 1]) && read[n - 1].value.value.key !in KeysBefore(read, n - 1)
      then before + [read[n - 1].value.value] else before
  }

  lemma {:induction false} KeysBeforeMembers(read: seq<Read>, n: nat, key: string)
    requires n <= |read|
    ensures key in KeysBefore(read, n) <==> exists i :: 0 <= i < n && Binds(read[i]) && read[i].value.value.key == key
  {
    if n > 0 { KeysBeforeMembers(read, n - 1, key); }
  }

  /** Every key that is bound at all is bound exactly once. */
  lemma {:induction false} OneBindingPerKey(read: seq<Read>, n: nat)
    requires n <= |read|
    ensures var out := FirstOfEachKey(read, n);
            && (forall j, k :: 0 <= j < k < |out| ==> out[j].key != out[k].key)
            && (forall b :: b in out ==> b.key in KeysBefore(read, n))
            && (forall key :: key in KeysBefore(read, n) ==> exists b :: b in out && b.key == key)
  {
    if n > 0 {
      OneBindingPerKey(read, n - 1);
      var before := FirstOfEachKey(read, n - 1);
      var out := FirstOfEachKey(read, n);
      forall key | key in KeysBefore(read, n) ensures exists b :: b in out && b.key == key {
        if key in KeysBefore(read, n - 1) {
          var b :| b in before && b.key == key;
          assert b in out;
        } else {
          assert read[n - 1].value.value in out;
        }
      }
      forall j | 0 <= j < |before| ensures before[j].key in KeysBefore(read, n - 1) {
        assert before[j] in before;
      }
    }
  }

  lemma {:induction false} NothingBound(read: seq<Read>, n: nat)
    requires n <= |read| && forall i :: 0 <= i < n ==> read[i].Success?
    ensures FirstOfEachKey(read, n) == [] <==> forall i :: 0 <= i < n ==> read[i] == Success(None)
    ensures FirstOfEachKey(read, n) == [] ==> KeysBefore(read, n) == {}
  {
    if n > 0 { NothingBound(read, n - 1); }
  }

  /** Later tokens of a key already bound are ignored; one malformed token fails the whole
      list, and so does a list without tokens. */
  method KeepFirst(read: seq<Read>) returns (r: Result<seq<Binding>>)
    ensures r.Failure? <==> (exists i :: 0 <= i < |read| && read[i].Failure?) || forall i :: 0 <= i < |read| ==> read[i] == Success(None)
    ensures r.Success? ==> r.value == FirstOfEachKey(read, |read|)
  {
    var out: seq<Binding> := [];
    var seen: set<string> := {};
    for i := 0 to |read|
      invariant out == FirstOfEachKey(read, i) && seen == KeysBefore(read, i)
      invariant forall j :: 0 <= j < i ==> read[j].Success?
    {
      if read[i].Failure? { return Failure(Other); }
      if read[i].value.None? { continue; }
      var b := read[i].value.value;
      if b.key in seen { continue; }
      seen := seen + {b.key};
      out := out + [b];
    }
    NothingBound(read, |read|);
    if |out| == 0 { return Failure(Other); }
    r := Success(out);
  }

  method ParseBindings(raw: string, defaultNS: string, defaultName: string) returns (r: Result<seq<Binding>>)
    ensures var read := ReadAll(Split(raw, ','), defaultNS, defaultName);
            && (r.Failure? <==> (exists i :: 0 <= i < |read| && read[i].Failure?)
                                || forall i :: 0 <= i < |read| ==> read[i] == Success(None))
            && (r.Success? ==> r.value == FirstOfEachKey(read, |read|))
  {
    r := KeepFirst(ReadAll(Split(raw, ','), defaultNS, defaultName));
  }

  /* ---- splitPatches ---- */

  function PathsOf(patches: seq<Patch>): seq<string> {
    if patches == [] then []
    else
      var before := PathsOf(patches[..|patches| - 1]);
      var p := patches[|patches| - 1].path;
      if p == "" then before else before + [p]
  }

  function AnnsOf(patches: seq<Patch>): seq<string> {
    if patches == [] then []
    else
      var before := AnnsOf(patches[..|patches| - 1]);
      var a := patches[|patches| - 1].annotation;
      if a == "" then before else before + [a]
  }

  predicate BlankPatch(p: Patch) { p.path == "" && p.annotation == "" }

  predicate GoodPatches(patches: seq<Patch>) {
    (forall p :: p in patches ==> !BlankPatch(p)) && Distinct(PathsOf(patches))
  }

  lemma {:induction false} PathsPrefix(patches: seq<Patch>, i: nat)
    requires i <= |patches|
    ensures PathsOf(patches[..i]) <= PathsOf(patches)
  {
    if i < |patches| {
      var before := patches[..|patches| - 1];
      PathsPrefix(before, i);
      assert before[..i] == patches[..i];
    } else {
      assert patches[..i] == patches;
    }
  }

  /** Paths and annotations in order; a patch without either, or a path given twice, fails. */
  method SplitPatches(patches: seq<Patch>) returns (ok: bool, paths: seq<string>, anns: seq<string>)
    ensures ok <==> GoodPatches(patches)
    ensures ok ==> paths == PathsOf(patches) && anns == AnnsOf(patches)
  {
    var seen: set<string> := {};
    ok, paths, anns := true, [], [];
    for i := 0 to |patches|
      invariant ok && paths == PathsOf(patches[..i]) && anns == AnnsOf(patches[..i])
      invariant Distinct(paths) && seen == set p | p in paths
      invariant forall j :: 0 <= j < i ==> !BlankPatch(patches[j])
    {
      var p := patches[i];
      assert patches[..i + 1][..i] == patches[..i];
      PathsPrefix(patches, i + 1);
      if p.path == "" && p.annotation == "" {
        assert BlankPatch(patches[i]);
        return false, [], [];
      }
      if p.path != "" {
        if p.path in seen {
          RepeatedPath(patches, i);
          return false, [], [];
        }
        seen := seen + {p.path};
        paths := paths + [p.path];
      }
      if p.annotation != "" { anns := anns + [p.annotation]; }
    }
    assert patches[..|patches|] == patches;
  }

  lemma RepeatedPath(patches: seq<Patch>, i: nat)
    requires i < |patches| && patches[i].path != "" && patches[i].path in PathsOf(patches[..i])
    ensures !Distinct(PathsOf(patches))
  {
    var before := PathsOf(patches[..i]);
    assert patches[..i + 1][..i] == patches[..i];
    assert PathsOf(patches[..i + 1]) == before + [patches[i].path];
    PathsPrefix(patches, i + 1);
    var j :| 0 <= j < |before| && before[j] == patches[i].path;
    assert PathsOf(patches)[j] == PathsOf(patches)[|before|];
  }

  /* ---- ResolveCatalog ---- */

  predicate GoodBinding(catalog: map<string, CatalogEntry>, b: Binding) {
    b.key in catalog && GoodPatches(catalog[b.key].patches)
  }

  /** One step per integer path; the first step of a binding carries its annotations. */
  function StepsOf(b: Binding, entry: CatalogEntry, n: nat): (steps: seq<ResolvedStep>)
    requires n <= |PathsOf(entry.patches)|
    ensures |steps| == n
    ensures forall i :: 0 <= i < n ==> steps[i] == StepAt(b, entry, i)
  {
    if n == 0 then [] else StepsOf(b, entry, n - 1) + [StepAt(b, entry, n - 1)]
  }

  function StepAt(b: Binding, entry: CatalogEntry, i: nat): ResolvedStep
    requires i < |PathsOf(entry.patches)|
  {
    ResolvedStep(b.key,
                 Target(Obj(entry.apiVersion, entry.kind, b.ns, b.name), PathsOf(entry.patches)[i], entry.defaultWhenUnset),
                 if i == 0 then AnnsOf(entry.patches) else [], entry.skip)
  }

  function Resolved(catalog: map<string, CatalogEntry>, bindings: seq<Binding>): seq<ResolvedStep>
    requires forall b :: b in bindings ==> b.key in catalog
  {
    if bindings == [] then []
    else
      var b := bindings[|bindings| - 1];
      Resolved(catalog, bindings[..|bindings| - 1]) + StepsOf(b, catalog[b.key], |PathsOf(catalog[b.key].patches)|)
  }

  method ResolveCatalog(catalog: map<string, CatalogEntry>, bindings: seq<Binding>) returns (r: Result<seq<ResolvedStep>>)
    ensures r.Failure? <==> catalog == map[] || exists b :: b in bindings && !GoodBinding(catalog, b)
    ensures r.Success? ==> r.value == Resolved(catalog, bindings)
  {
    if catalog == map[] { return Failure(Other); }
    var out: seq<ResolvedStep> := [];
    for i := 0 to |bindings|
      invariant forall j :: 0 <= j < i ==> GoodBinding(catalog, bindings[j])
      invariant out == Resolved(catalog, bindings[..i])
    {
      assert bindings[..i + 1][..i] == bindings[..i];
      var b := bindings[i];
      assert b in bindings;
      if b.key !in catalog { return Failure(Other); }
      var entry := catalog[b.key];
      var ok, paths, anns := SplitPatches(entry.patches);
      if !ok { return Failure(Other); }
      ghost var before := out;
      for j := 0 to |paths|
        invariant out == before + StepsOf(b, entry, j)
      {
        var stepAnns := if j == 0 then anns else [];
        out := out + [ResolvedStep(b.key, Target(Obj(entry.apiVersion, entry.kind, b.ns, b.name), paths[j], entry.defaultWhenUnset),
                                   stepAnns, entry.skip)];
      }
    }
    assert bindings[..|bindings|] == bindings;
    r := Success(out);
  }

  /* ---- action keys ---- */

  lemma KeyTail(s: ResolvedStep)
    requires s.key != ""
    ensures StepKey(s) == s.key + "/" + (s.target.obj.ns + "/" + s.target.obj.name + "/" + s.target.fieldPath)
  {
    var o, p := s.target.obj, s.target.fieldPath;
    assert s.key + "/" + o.ns + "/" + o.name + "/" + p == s.key + "/" + (o.ns + "/" + o.name + "/" + p);
  }

  /** Every resolved step comes from one of the bindings. */
  lemma {:induction false} ResolvedFrom(catalog: map<string, CatalogEntry>, bindings: seq<Binding>, s: ResolvedStep)
    requires (forall b :: b in bindings ==> b.key in catalog) && s in Resolved(catalog, bindings)
    ensures exists b :: b in bindings && b.key == s.key
  {
    var before, last := bindings[..|bindings| - 1], bindings[|bindings| - 1];
    var own := StepsOf(last, catalog[last.key], |PathsOf(catalog[last.key].patches)|);
    if s in own {
      assert last.key == s.key;
    } else {
      ResolvedFrom(catalog, before, s);
    }
  }

  /** Bindings with different slash-free keys resolve to steps with different action keys, so
      a recorded action names one step of the plan. */
  lemma {:induction false} ActionKeysDistinct(catalog: map<string, CatalogEntry>, bindings: seq<Binding>)
    requires forall b :: b in bindings ==> b.key in catalog && GoodBinding(catalog, b) && b.key != "" && '/' !in b.key
    requires forall i, j :: 0 <= i < j < |bindings| ==> bindings[i].key != bindings[j].key
    ensures DistinctKeys(Resolved(catalog, bindings))
  {
    if bindings != [] {
      var before, last := bindings[..|bindings| - 1], bindings[|bindings| - 1];
      var entry := catalog[last.key];
      var own, earlier := StepsOf(last, entry, |PathsOf(entry.patches)|), Resolved(catalog, before);
      ActionKeysDistinct(catalog, before);
      forall i, j | 0 <= i < j < |own| ensures StepKey(own[i]) != StepKey(own[j]) {
        SamePrefixKeys(own[i], own[j]);
      }
      forall i, j | 0 <= i < |earlier| && 0 <= j < |own| ensures StepKey(earlier[i]) != StepKey(own[j]) {
        ResolvedFrom(catalog, before, earlier[i]);
        var b :| b in before && b.key == earlier[i].key;
        KeyTail(earlier[i]);
        KeyTail(own[j]);
        if StepKey(earlier[i]) == StepKey(own[j]) {
          var o, q := earlier[i].target.obj, own[j].target.obj;
          CutUnique(earlier[i].key, o.ns + "/" + o.name + "/" + earlier[i].target.fieldPath,
                    own[j].key, q.ns + "/" + q.name + "/" + own[j].target.fieldPath);
        }
      }
    }
  }

  /** So the plan of a parsed annotation has distinct action keys. */
  lemma ParsedKeysDistinct(read: seq<Read>, catalog: map<string, CatalogEntry>)
    requires forall b :: b in FirstOfEachKey(read, |read|) ==>
               b.key in catalog && GoodBinding(catalog, b) && b.key != "" && '/' !in b.key
    ensures DistinctKeys(Resolved(catalog, FirstOfEachKey(read, |read|)))
  {
    OneBindingPerKey(read, |read|);
    ActionKeysDistinct(catalog, FirstOfEachKey(read, |read|));
  }

  lemma SamePrefixKeys(a: ResolvedStep, b: ResolvedStep)
    requires a.key == b.key != "" && a.target.obj == b.target.obj && a.target.fieldPath != b.target.fieldPath
    ensures StepKey(a) != StepKey(b)
  {
    var prefix := a.key + "/" + a.target.obj.ns + "/" + a.target.obj.name + "/";
    assert StepKey(a) == prefix + a.target.fieldPath && StepKey(b) == prefix + b.target.fieldPath;
    assert (prefix + a.target.fieldPath)[|prefix|..] == a.target.fieldPath;
    assert (prefix + b.target.fieldPath)[|prefix|..] == b.target.fieldPath;
  }

  /** What an action key says, for keys, namespaces and names without slashes: everything
      about the step but the kind of its object. */
  lemma ActionKeyIgnoresOnlyKind(a: ResolvedStep, b: ResolvedStep)
    requires a.key != "" && b.key != "" && '/' !in a.key && '/' !in b.key
    requires '/' !in a.target.obj.ns && '/' !in b.target.obj.ns && '/' !in a.target.obj.name && '/' !in b.target.obj.name
    ensures StepKey(a) == StepKey(b) <==>
              && a.key == b.key && a.target.obj.ns == b.target.obj.ns && a.target.obj.name == b.target.obj.name
              && a.target.fieldPath == b.target.fieldPath
  {
    KeyTail(a);
    KeyTail(b);
    var o, q, r, t := a.target.obj, b.target.obj, a.target.fieldPath, b.target.fieldPath;
    if StepKey(a) == StepKey(b) {
      CutUnique(a.key, o.ns + "/" + o.name + "/" + r, b.key, q.ns + "/" + q.name + "/" + t);
      assert o.ns + "/" + (o.name + "/" + r) == o.ns + "/" + o.name + "/" + r;
      assert q.ns + "/" + (q.name + "/" + t) == q.ns + "/" + q.name + "/" + t;
      CutUnique(o.ns, o.name + "/" + r, q.ns, q.name + "/" + t);
      CutUnique(o.name, r, q.name, t);
    }
  }
}
