/** pkg/backends/crd.go: several integer paths as one JSON merge patch, and what the API
    server makes of it (section 2 of RFC 7396). */
module MergePatch {
  import opened Strings
  import opened Types
  import Store

  /** A JSON value; `Other` stands for strings, booleans, arrays and fractions. */
  datatype Json = Null | Num(n: int) | Other(text: string) | Doc(fields: map<string, Json>)

  type Path = seq<string>

  function Fields(j: Json): map<string, Json> { if j.Doc? then j.fields else map[] }

  /** MergePatch of RFC 7396; an absent target is Null. */
  function Merge(target: Json, patch: Json): Json
    decreases patch
  {
    if !patch.Doc? then patch
    else
      var old_ := Fields(target);
      Doc(map k | k in old_.Keys + patch.fields.Keys && !(k in patch.fields && patch.fields[k].Null?)
            :: if k in patch.fields then Merge(if k in old_ then old_[k] else Null, patch.fields[k]) else old_[k])
  }

  function At(j: Json, p: Path): Option<Json>
    decreases |p|
  {
    if p == [] then Some(j)
    else if j.Doc? && p[0] in j.fields then At(j.fields[p[0]], p[1..])
    else None
  }

  /** NestedInt64: the integer at the path, if there is one. */
  function ReadInt(j: Json, p: Path): Option<int> {
    var v := At(j, p);
    if v.Some? && v.value.Num? then Some(v.value.n) else None
  }

  /** splitFieldPath: the blank path means spec.replicas, one leading dot is dropped. */
  function SplitFieldPath(p: string): (parts: Path)
    ensures parts != []
  {
    var q := if p == "" then "spec.replicas" else p;
    Split(if q != "" && q[0] == '.' then q[1..] else q, '.')
  }

  function SetNested(doc: map<string, Json>, v: int, p: Path): map<string, Json>
    requires p != []
    decreases |p|
  {
    if |p| == 1 then doc[p[0] := Num(v)]
    else
      var next := if p[0] in doc then Fields(doc[p[0]]) else map[];
      doc[p[0] := Doc(SetNested(next, v, p[1..]))]
  }

  /** Neither path leads through the other. */
  predicate Incomparable(p: Path, q: Path) { !(p <= q) && !(q <= p) }

  lemma TailIncomparable(p: Path, q: Path)
    requires Incomparable(p, q)
    ensures p != [] && q != [] && (p[0] == q[0] ==> Incomparable(p[1..], q[1..]))
  {
    if p != [] && q != [] && p[0] == q[0] {
      assert p == [p[0]] + p[1..] && q == [q[0]] + q[1..];
    }
  }

  /* ---- the patch document ---- */

  lemma {:induction false} SetHit(doc: map<string, Json>, v: int, p: Path)
    requires p != []
    decreases |p|
    ensures At(Doc(SetNested(doc, v, p)), p) == Some(Num(v))
  {
    if |p| == 1 {
      assert p[1..] == [];
    } else {
      SetHit(if p[0] in doc then Fields(doc[p[0]]) else map[], v, p[1..]);
    }
  }

  /** The path runs out of the document at a missing key. */
  predicate Misses(j: Json, q: Path)
    decreases |q|
  {
    j.Doc? && q != [] && (q[0] in j.fields ==> Misses(j.fields[q[0]], q[1..]))
  }

  lemma {:induction false} SetElsewhere(doc: map<string, Json>, v: int, p: Path, q: Path)
    requires Incomparable(p, q)
    decreases |p|
    ensures p != [] && At(Doc(SetNested(doc, v, p)), q) == At(Doc(doc), q)
    ensures Misses(Doc(doc), q) ==> Misses(Doc(SetNested(doc, v, p)), q)
  {
    TailIncomparable(p, q);
    if p[0] == q[0] {
      var next := if p[0] in doc then Fields(doc[p[0]]) else map[];
      assert |p| > 1 && q[1..] != [];
      SetElsewhere(next, v, p[1..], q[1..]);
    }
  }

  /* ---- merging ---- */

  lemma {:induction false} MergeHit(t: Json, patch: Json, q: Path, v: int)
    requires At(patch, q) == Some(Num(v))
    decreases |q|
    ensures At(Merge(t, patch), q) == Some(Num(v))
  {
    if q != [] {
      var old_ := Fields(t);
      assert !patch.fields[q[0]].Null? by { if |q| == 1 { assert q[1..] == []; } }
      MergeHit(if q[0] in old_ then old_[q[0]] else Null, patch.fields[q[0]], q[1..], v);
    }
  }

  lemma {:induction false} MergeMiss(t: Json, patch: Json, q: Path)
    requires Misses(patch, q)
    decreases |q|
    ensures At(Merge(t, patch), q) == At(t, q)
  {
    var old_ := Fields(t);
    if q[0] in patch.fields {
      var sub := if q[0] in old_ then old_[q[0]] else Null;
      MergeMiss(sub, patch.fields[q[0]], q[1..]);
      assert q[1..] != [];
    }
  }

  /* ---- PatchIntegers ---- */

  /** The wanted value of a path that PatchIntegers does not skip. */
  predicate Wanted(doc: Json, values: map<string, int32>, p: string) {
    p in values && !(ReadInt(doc, SplitFieldPath(p)).Some? && ToInt32(ReadInt(doc, SplitFieldPath(p)).value) == values[p])
  }

  function PatchDoc(doc: Json, paths: seq<string>, values: map<string, int32>): map<string, Json> {
    if paths == [] then map[]
    else
      var before := PatchDoc(doc, paths[..|paths| - 1], values);
      var p := paths[|paths| - 1];
      if Wanted(doc, values, p) then SetNested(before, values[p], SplitFieldPath(p)) else before
  }

  /** The document the API server stores: the merge, when there is anything to patch. */
  function AfterPatch(doc: Json, paths: seq<string>, values: map<string, int32>): Json {
    if forall p :: p in paths ==> !Wanted(doc, values, p) then doc else Merge(doc, Doc(PatchDoc(doc, paths, values)))
  }

  /** Build one patch document for all the paths. */
  method PatchIntegers(doc: Json, paths: seq<string>, values: map<string, int32>) returns (after: Json)
    ensures after == AfterPatch(doc, paths, values)
  {
    var need := false;
    var patch: map<string, Json> := map[];
    for i := 0 to |paths|
      invariant patch == PatchDoc(doc, paths[..i], values)
      invariant need <==> exists p :: p in paths[..i] && Wanted(doc, values, p)
    {
      assert paths[..i + 1][..i] == paths[..i];
      assert paths[..i + 1] == paths[..i] + [paths[i]];
      var p := paths[i];
      if p !in values { continue; }
      var parts := SplitFieldPath(p);
      var cur := ReadInt(doc, parts);
      if cur.Some? && ToInt32(cur.value) == values[p] { continue; }
      need := true;
      patch := SetNested(patch, values[p], parts);
    }
    assert paths[..|paths|] == paths;
    after := if need then Merge(doc, Doc(patch)) else doc;
  }

  /** No path of the group leads through another. */
  ghost predicate PrefixFree(paths: set<string>) {
    forall p, q :: p in paths && q in paths && p != q ==> Incomparable(SplitFieldPath(p), SplitFieldPath(q))
  }

  lemma {:induction false} PatchDocHit(doc: Json, paths: seq<string>, values: map<string, int32>, p: string)
    requires PrefixFree(set x | x in paths) && p in paths && Wanted(doc, values, p)
    ensures At(Doc(PatchDoc(doc, paths, values)), SplitFieldPath(p)) == Some(Num(values[p]))
  {
    var before, last := paths[..|paths| - 1], paths[|paths| - 1];
    assert paths == before + [last];
    if last == p {
      SetHit(PatchDoc(doc, before, values), values[p], SplitFieldPath(p));
    } else {
      assert last in set x | x in paths;
      assert PrefixFree(set x | x in before);
      PatchDocHit(doc, before, values, p);
      if Wanted(doc, values, last) {
        SetElsewhere(PatchDoc(doc, before, values), values[last], SplitFieldPath(last), SplitFieldPath(p));
      }
    }
  }

  /** The path runs beside everything the patch writes. */
  ghost predicate Beside(doc: Json, paths: seq<string>, values: map<string, int32>, q: Path) {
    forall p :: p in paths && Wanted(doc, values, p) ==> Incomparable(SplitFieldPath(p), q)
  }

  lemma {:induction false} PatchDocMiss(doc: Json, paths: seq<string>, values: map<string, int32>, q: Path)
    requires q != [] && Beside(doc, paths, values, q)
    ensures Misses(Doc(PatchDoc(doc, paths, values)), q)
  {
    if paths != [] {
      var before, last := paths[..|paths| - 1], paths[|paths| - 1];
      assert paths == before + [last];
      PatchDocMiss(doc, before, values, q);
      if Wanted(doc, values, last) {
        SetElsewhere(PatchDoc(doc, before, values), values[last], SplitFieldPath(last), q);
      }
    }
  }

  /** The merged document has the wanted value at every path it writes, and what it had at
      every path that runs beside those. */
  lemma MergeIsExact(doc: Json, paths: seq<string>, values: map<string, int32>, p: string, q: Path)
    requires PrefixFree(set x | x in paths)
    ensures p in paths && Wanted(doc, values, p) ==> At(AfterPatch(doc, paths, values), SplitFieldPath(p)) == Some(Num(values[p]))
    ensures q != [] && Beside(doc, paths, values, q) ==> At(AfterPatch(doc, paths, values), q) == At(doc, q)
  {
    var patch := Doc(PatchDoc(doc, paths, values));
    if p in paths && Wanted(doc, values, p) {
      PatchDocHit(doc, paths, values, p);
      MergeHit(doc, patch, SplitFieldPath(p), values[p]);
    }
    if q != [] && Beside(doc, paths, values, q) {
      PatchDocMiss(doc, paths, values, q);
      MergeMiss(doc, patch, q);
    }
  }

  /** Skipping a path whose stored integer already agrees: the field reads the wanted value
      afterwards exactly when it is not a stored integer outside int32 whose low 32 bits
      happen to agree. */
  lemma SkipHarmlessIff(doc: Json, paths: seq<string>, values: map<string, int32>, p: string)
    requires PrefixFree(set x | x in paths) && p in paths && p in values
    ensures var cur := ReadInt(doc, SplitFieldPath(p));
            var collides := cur.Some? && !InInt32(cur.value) && ToInt32(cur.value) == values[p];
            ReadInt(AfterPatch(doc, paths, values), SplitFieldPath(p)) == Some(values[p] as int) <==> !collides
  {
    assert (set x | x in paths) + {p} == set x | x in paths;
    MergeIsExact(doc, paths, values, p, SplitFieldPath(p));
    var cur := ReadInt(doc, SplitFieldPath(p));
    if cur.Some? && InInt32(cur.value) { ToInt32InRange(cur.value); }
    if !Wanted(doc, values, p) { SkippedIsBeside(doc, paths, values, p); }
  }

  lemma SkippedIsBeside(doc: Json, paths: seq<string>, values: map<string, int32>, p: string)
    requires PrefixFree((set x | x in paths) + {p}) && !(p in paths && Wanted(doc, values, p))
    ensures Beside(doc, paths, values, SplitFieldPath(p))
  {
    var all := (set x | x in paths) + {p};
    forall x | x in paths && Wanted(doc, values, x) ensures Incomparable(SplitFieldPath(x), SplitFieldPath(p)) {
      assert x in all && p in all;
    }
  }

  /** A stored 2^32 + 3 passes for 3, and stays. */
  lemma WideValueIsSkipped()
    ensures var doc := Doc(map["n" := Num(0x1_0000_0003)]);
            AfterPatch(doc, ["n"], map["n" := 3]) == doc && ReadInt(doc, SplitFieldPath("n")) == Some(0x1_0000_0003)
  {
    assert SplitFieldPath("n") == ["n"] by {
      var q := "n";
      assert q[1..] == "" && Split(q[1..], '.') == [""];
      assert Split(q, '.') == [[q[0]] + ""] + [""][1..];
      assert [q[0]] + "" == q && [q] + [""][1..] == [q];
    }
    var doc := Doc(map["n" := Num(0x1_0000_0003)]);
    assert At(doc, ["n"]) == Some(doc.fields["n"]) by { assert ["n"][1..] == []; }
    assert !Wanted(doc, map["n" := 3], "n");
  }

  /* ---- the flat view of an object ---- */

  /** The integers at the bound paths, as the model of the store keeps them. */
  ghost function View(doc: Json, bound: set<string>): map<string, int> {
    map p | p in bound && ReadInt(doc, SplitFieldPath(p)).Some? :: ReadInt(doc, SplitFieldPath(p)).value
  }

  /** Keeping one integer per bound path loses nothing: patching the document and then looking
      at the bound paths is looking first and patching the flat map. */
  lemma FlatViewIsFaithful(doc: Json, bound: set<string>, paths: seq<string>, values: map<string, int32>)
    requires PrefixFree(bound) && forall p :: p in paths ==> p in bound
    ensures View(AfterPatch(doc, paths, values), bound)
              == View(doc, bound) + Store.IntPatch(View(doc, bound), paths, values)
  {
    var flat := View(doc, bound) + Store.IntPatch(View(doc, bound), paths, values);
    forall p | p in bound
      ensures p in View(AfterPatch(doc, paths, values), bound) <==> p in flat
      ensures p in flat ==> View(AfterPatch(doc, paths, values), bound)[p] == flat[p]
    {
      FlatViewAt(doc, bound, paths, values, p);
    }
    assert View(AfterPatch(doc, paths, values), bound).Keys == flat.Keys;
  }

  lemma FlatViewAt(doc: Json, bound: set<string>, paths: seq<string>, values: map<string, int32>, p: string)
    requires PrefixFree(bound) && (forall x :: x in paths ==> x in bound) && p in bound
    ensures ReadInt(AfterPatch(doc, paths, values), SplitFieldPath(p))
              == if p in paths && Wanted(doc, values, p) then Some(values[p] as int) else ReadInt(doc, SplitFieldPath(p))
  {
    assert PrefixFree(set x | x in paths);
    MergeIsExact(doc, paths, values, p, SplitFieldPath(p));
    if !(p in paths && Wanted(doc, values, p)) {
      assert PrefixFree((set x | x in paths) + {p});
      SkippedIsBeside(doc, paths, values, p);
    }
  }
}
