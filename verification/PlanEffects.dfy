/** What the grouped patches of a plan do to the fields: what one group does, what a whole
    walk does, and that both are the one-field-at-a-time walk. */
module PlanEffects {
  import opened Types
  import opened Store
  import opened Plan

  /* ---- the one-field-at-a-time reference ---- */

  function SetField(objs: map<Obj, ObjState>, l: Loc, v: int): map<Obj, ObjState>
    requires l.obj in objs
  {
    objs[l.obj := objs[l.obj].(ints := objs[l.obj].ints[l.path := v])]
  }

  predicate Below(objs: map<Obj, ObjState>, s: Step) {
    var cur := Peek(objs, s.target);
    cur.Success? && cur.value < s.desired
  }

  predicate Above(objs: map<Obj, ObjState>, a: Action) {
    var cur := Peek(objs, ActionTarget(a));
    !a.skip && cur.Success? && cur.value > a.baseline
  }

  /** Raise the fields one after the other, each to its own desired value. */
  function RaiseAll(objs: map<Obj, ObjState>, steps: seq<Step>): map<Obj, ObjState> {
    if steps == [] then objs
    else
      RaiseAll(if Below(objs, steps[0]) then SetField(objs, LocOf(steps[0].target), steps[0].desired) else objs, steps[1..])
  }

  /** Lower the fields one after the other, each to its own baseline. */
  function LowerAll(objs: map<Obj, ObjState>, actions: seq<Action>): map<Obj, ObjState> {
    if actions == [] then objs
    else
      LowerAll(if Above(objs, actions[0]) then SetField(objs, ActionLoc(actions[0]), actions[0].baseline) else objs, actions[1..])
  }

  /* ---- what a walk may and must change at one field ---- */

  ghost predicate NeedsRaise(objs: map<Obj, ObjState>, steps: seq<Step>, l: Loc) {
    exists s :: s in steps && LocOf(s.target) == l && Below(objs, s)
  }

  ghost predicate NeedsLower(objs: map<Obj, ObjState>, actions: seq<Action>, l: Loc) {
    exists a :: a in actions && ActionLoc(a) == l && Above(objs, a)
  }

  /** buildPlan gives every step the same desired value. */
  ghost predicate Shared(steps: seq<Step>, d: int32) {
    forall s :: s in steps ==> s.desired == d
  }

  /** Records of the same field carry the same baseline. */
  ghost predicate Consistent(actions: seq<Action>, base: map<Loc, int32>) {
    forall a :: a in actions && !a.skip ==> ActionLoc(a) in base && base[ActionLoc(a)] == a.baseline
  }

  ghost function RaisedVal(objs: map<Obj, ObjState>, steps: seq<Step>, d: int32, l: Loc): Option<int> {
    if NeedsRaise(objs, steps, l) then Some(d) else Val(objs, l)
  }

  ghost function LoweredVal(objs: map<Obj, ObjState>, actions: seq<Action>, base: map<Loc, int32>, l: Loc): Option<int>
    requires Consistent(actions, base)
  {
    if NeedsLower(objs, actions, l) then Some(base[l]) else Val(objs, l)
  }

  lemma {:induction false} RaiseAllAt(objs: map<Obj, ObjState>, steps: seq<Step>, d: int32, l: Loc)
    requires Shared(steps, d)
    ensures Val(RaiseAll(objs, steps), l) == RaisedVal(objs, steps, d, l)
  {
    if steps != [] {
      var s := steps[0];
      var objs1 := if Below(objs, s) then SetField(objs, LocOf(s.target), d) else objs;
      RaiseAllAt(objs1, steps[1..], d, l);
      RaiseSplit(objs, objs1, [s], steps[1..], d, l);
      assert steps == [s] + steps[1..];
    }
  }

  /** Raising a first part and then the rest is raising the whole. */
  lemma RaiseSplit(objs: map<Obj, ObjState>, objs1: map<Obj, ObjState>, first: seq<Step>, rest: seq<Step>, d: int32, l: Loc)
    requires Shared(first + rest, d) && objs1.Keys == objs.Keys
    requires Val(objs1, l) == RaisedVal(objs, first, d, l)
    ensures RaisedVal(objs1, rest, d, l) == RaisedVal(objs, first + rest, d, l)
  {
    forall s | s in rest && LocOf(s.target) == l
      ensures Below(objs1, s) <==> Below(objs, s) && !NeedsRaise(objs, first, l)
    {
      assert s in first + rest;
    }
    assert forall s :: s in first + rest <==> s in first || s in rest;
    if NeedsRaise(objs, first, l) {
      var s :| s in first && LocOf(s.target) == l && Below(objs, s);
      assert s in first + rest;
    } else if NeedsRaise(objs, rest, l) {
      var s :| s in rest && LocOf(s.target) == l && Below(objs, s);
      assert s in first + rest;
    }
  }

  lemma {:induction false} LowerAllAt(objs: map<Obj, ObjState>, actions: seq<Action>, base: map<Loc, int32>, l: Loc)
    requires Consistent(actions, base)
    ensures Val(LowerAll(objs, actions), l) == LoweredVal(objs, actions, base, l)
  {
    if actions != [] {
      var a := actions[0];
      var objs1 := if Above(objs, a) then SetField(objs, ActionLoc(a), a.baseline) else objs;
      LowerAllAt(objs1, actions[1..], base, l);
      assert actions == [a] + actions[1..];
      LowerSplit(objs, objs1, [a], actions[1..], base, l);
    }
  }

  lemma LowerSplit(objs: map<Obj, ObjState>, objs1: map<Obj, ObjState>, first: seq<Action>, rest: seq<Action>,
                   base: map<Loc, int32>, l: Loc)
    requires Consistent(first + rest, base) && objs1.Keys == objs.Keys
    requires Consistent(first, base) && Consistent(rest, base)
    requires Val(objs1, l) == LoweredVal(objs, first, base, l)
    ensures LoweredVal(objs1, rest, base, l) == LoweredVal(objs, first + rest, base, l)
  {
    forall a | a in rest && ActionLoc(a) == l
      ensures Above(objs1, a) <==> Above(objs, a) && !NeedsLower(objs, first, l)
    {
      assert a in first + rest;
    }
    if NeedsLower(objs, first, l) {
      var a :| a in first && ActionLoc(a) == l && Above(objs, a);
      assert a in first + rest;
    } else if NeedsLower(objs, rest, l) {
      var a :| a in rest && ActionLoc(a) == l && Above(objs, a);
      assert a in first + rest;
    }
  }

  /* ---- one merge patch ---- */

  /** Every changed field of `o` got the value `g` has for it; nothing else changed. */
  ghost predicate OnlyTo(objs: map<Obj, ObjState>, objs': map<Obj, ObjState>, o: Obj, g: map<string, int32>) {
    objs'.Keys == objs.Keys &&
    forall l :: Val(objs', l) == Val(objs, l) || (l.obj == o && l.path in g && Val(objs', l) == Some(g[l.path]))
  }

  function Patched(objs: map<Obj, ObjState>, o: Obj, paths: seq<string>, values: map<string, int32>): map<Obj, ObjState>
    requires o in objs
  {
    objs[o := objs[o].(ints := objs[o].ints + IntPatch(objs[o].ints, paths, values))]
  }

  /** A patch call leaves the store, or merges the whole patch; it reports which unless the
      answer was lost. */
  lemma PatchIntegersCases(w: World, o: Obj, paths: seq<string>, values: map<string, int32>)
    ensures var (w', err) := PatchIntegersSpec(w, o, paths, values);
            && w'.wins == w.wins
            && (w'.objs == w.objs || (o in w.objs && w'.objs == Patched(w.objs, o, paths, values)))
            && (err.None? && paths != [] ==> o in w.objs && w'.objs == Patched(w.objs, o, paths, values))
            && (paths == [] ==> w' == w)
            && (err == Some(NotFound) ==> o !in w.objs && w'.objs == w.objs)
  {
    if o in w.objs {
      var ints := w.objs[o].ints;
      assert ints + map[] == ints && w.objs[o].(ints := ints) == w.objs[o];
      assert IntPatch(ints, paths, values) == map[] ==> Patched(w.objs, o, paths, values) == w.objs;
    }
  }

  lemma PatchedAt(objs: map<Obj, ObjState>, o: Obj, paths: seq<string>, values: map<string, int32>, l: Loc)
    requires o in objs && forall p :: p in values ==> p in paths
    requires forall p :: p in values && Val(objs, Loc(o, p)).Some? ==> InInt32(Val(objs, Loc(o, p)).value)
    ensures Val(Patched(objs, o, paths, values), l)
              == if l.obj == o && l.path in values then Some(values[l.path]) else Val(objs, l)
  {
    var ints := objs[o].ints;
    if l.obj == o && l.path in values && l.path in ints {
      assert Val(objs, Loc(o, l.path)) == Some(ints[l.path]);
      ToInt32InRange(ints[l.path]);
    }
  }

  lemma PatchIntegersResult(w: World, o: Obj, paths: seq<string>, values: map<string, int32>)
    requires forall p :: p in values ==> p in paths
    requires forall p :: p in values && Val(w.objs, Loc(o, p)).Some? ==> InInt32(Val(w.objs, Loc(o, p)).value)
    ensures var (w', err) := PatchIntegersSpec(w, o, paths, values);
            && w'.wins == w.wins && OnlyTo(w.objs, w'.objs, o, values)
            && (err.None? ==> forall l :: Val(w'.objs, l) == if l.obj == o && l.path in values then Some(values[l.path]) else Val(w.objs, l))
            && (err == Some(NotFound) ==> o !in w.objs && w'.objs == w.objs)
  {
    PatchIntegersCases(w, o, paths, values);
    if o in w.objs {
      forall l ensures Val(Patched(w.objs, o, paths, values), l)
                         == if l.obj == o && l.path in values then Some(values[l.path]) else Val(w.objs, l) {
        PatchedAt(w.objs, o, paths, values, l);
      }
    }
  }

  lemma PatchAnnotationsKeepsInts(w: World, o: Obj, want: map<string, string>)
    ensures var (w', err) := PatchAnnotationsSpec(w, o, want);
            && w'.wins == w.wins && w'.objs.Keys == w.objs.Keys
            && (forall l :: Val(w'.objs, l) == Val(w.objs, l))
            && (err == Some(NotFound) ==> o !in w.objs && w'.objs == w.objs)
  {
  }

  /* ---- one group raised ---- */

  ghost predicate OneObject(steps: seq<Step>, o: Obj) {
    forall s :: s in steps ==> s.target.obj == o
  }

  lemma {:induction false} ReadStepsResult(w: World, group: seq<Step>, values: map<string, int32>, stamp: map<string, string>, d: int32)
    decreases |group|
    requires Shared(group, d) && forall p :: p in values ==> values[p] == d
    ensures var r := ReadSteps(w, group, values, stamp);
            && r.w.objs == w.objs && r.w.wins == w.wins
            && (forall p :: p in r.values ==> r.values[p] == d)
            && (r.err.None? ==> forall p :: p in r.values <==>
                  p in values || exists s :: s in group && s.target.fieldPath == p && Below(w.objs, s))
  {
    if group != [] {
      var s := group[0];
      assert group == [s] + group[1..];
      var (w1, cur) := CurrentSpec(w, s.target);
      if cur.Success? {
        var values1 := if cur.value < s.desired then values[s.target.fieldPath := s.desired] else values;
        ReadStepsResult(w1, group[1..], values1, stamp + s.stamp, d);
        var r := ReadSteps(w, group, values, stamp);
        forall p | r.err.None?
          ensures p in r.values <==> p in values || exists t :: t in group && t.target.fieldPath == p && Below(w.objs, t)
        {
          if p in values1 && p !in values {
            assert s in group && s.target.fieldPath == p && Below(w.objs, s);
          }
          if t :| t in group && t.target.fieldPath == p && Below(w.objs, t) {
            assert t == s || t in group[1..];
          }
        }
      }
    }
  }

  lemma RaiseValuesExact(objs: map<Obj, ObjState>, group: seq<Step>, o: Obj, values: map<string, int32>)
    requires OneObject(group, o)
    requires forall p :: p in values <==> exists s :: s in group && s.target.fieldPath == p && Below(objs, s)
    ensures forall p :: p in values ==> p in StepPaths(group)
    ensures forall p :: p in values && Val(objs, Loc(o, p)).Some? ==> InInt32(Val(objs, Loc(o, p)).value)
    ensures forall l :: NeedsRaise(objs, group, l) <==> l.obj == o && l.path in values
  {
    forall p | p in values ensures p in StepPaths(group) {
      var s :| s in group && s.target.fieldPath == p && Below(objs, s);
      var i :| 0 <= i < |group| && group[i] == s;
      assert StepPaths(group)[i] == p;
    }
  }

  /** The one patch of a group raises the fields below the target, or nothing. */
  lemma RaisePatched(w: World, group: seq<Step>, o: Obj, d: int32, values: map<string, int32>)
    requires OneObject(group, o) && forall p :: p in values ==> values[p] == d
    requires forall p :: p in values <==> exists s :: s in group && s.target.fieldPath == p && Below(w.objs, s)
    ensures var (w1, err) := PatchIntegersSpec(w, o, StepPaths(group), values);
            && w1.wins == w.wins && w1.objs.Keys == w.objs.Keys
            && (forall l :: Val(w1.objs, l) == Val(w.objs, l) || (NeedsRaise(w.objs, group, l) && Val(w1.objs, l) == Some(d)))
            && (err.None? ==> forall l :: Val(w1.objs, l) == RaisedVal(w.objs, group, d, l))
            && (values == map[] ==> forall l :: !NeedsRaise(w.objs, group, l))
  {
    RaiseValuesExact(w.objs, group, o, values);
    PatchIntegersResult(w, o, StepPaths(group), values);
  }

  /** A group that fails before its patch changes nothing unless an answer was lost; a group
      that is compensated, or succeeds, is raised exactly. */
  lemma ApplyGroupResult(w: World, group: seq<Step>, o: Obj, d: int32)
    requires group != [] && OneObject(group, o) && Shared(group, d)
    ensures var g := ApplyGroup(w, group);
            && g.w.wins == w.wins && g.w.objs.Keys == w.objs.Keys
            && (forall l :: Val(g.w.objs, l) == Val(w.objs, l) || (NeedsRaise(w.objs, group, l) && Val(g.w.objs, l) == Some(d)))
            && (g.err.None? || g.mutated ==> forall l :: Val(g.w.objs, l) == RaisedVal(w.objs, group, d, l))
  {
    ReadStepsResult(w, group, map[], map[], d);
    var rd := ReadSteps(w, group, map[], map[]);
    if rd.err.None? {
      assert group[0] in group;
      RaisePatched(rd.w, group, o, d, rd.values);
      var (w1, perr) := if rd.values != map[] then PatchIntegersSpec(rd.w, o, StepPaths(group), rd.values) else (rd.w, None);
      PatchAnnotationsKeepsInts(w1, o, rd.stamp);
    }
  }

  /* ---- one group lowered ---- */

  ghost predicate OneObjectActions(actions: seq<Action>, o: Obj) {
    forall a :: a in actions ==> a.obj == o
  }

  /** Every field the restore must read can be read. */
  ghost predicate Readable(objs: map<Obj, ObjState>, actions: seq<Action>) {
    forall a :: a in actions && !a.skip && a.obj in objs ==> Peek(objs, ActionTarget(a)).Success?
  }

  lemma {:induction false} ReadActionsResult(w: World, group: seq<Action>, paths: seq<string>, values: map<string, int32>)
    decreases |group|
    ensures var r := ReadActions(w, group, paths, values);
            && r.w.objs == w.objs && r.w.wins == w.wins
            && (forall p :: p in paths ==> p in r.paths)
            && (forall p :: p in r.values ==>
                  (p in values && r.values[p] == values[p]) ||
                  exists a :: a in group && a.fieldPath == p && Above(w.objs, a) && r.values[p] == a.baseline && p in r.paths)
            && (r.err == Some(NotFound) ==> exists a :: a in group && a.obj !in w.objs)
            && (r.err.None? ==>
                  && (forall p :: p in values ==> p in r.values)
                  && (forall a :: a in group && Above(w.objs, a) ==> a.fieldPath in r.values)
                  && Readable(w.objs, group))
  {
    if group != [] {
      var a := group[0];
      assert group == [a] + group[1..];
      var (w1, cur) := if a.skip then (w, Failure(Other)) else CurrentSpec(w, ActionTarget(a));
      if a.skip {
        ReadActionsResult(w, group[1..], paths, values);
      } else if cur.Success? {
        var values1 := if cur.value > a.baseline then values[a.fieldPath := a.baseline] else values;
        ReadActionsResult(w1, group[1..], paths + [a.fieldPath], values1);
        assert a.fieldPath in paths + [a.fieldPath];
        var r := ReadActions(w, group, paths, values);
        forall p | p in r.values
          ensures (p in values && r.values[p] == values[p]) ||
                  exists b :: b in group && b.fieldPath == p && Above(w.objs, b) && r.values[p] == b.baseline && p in r.paths
        {
          if p in values1 && r.values[p] == values1[p] && !(p in values && r.values[p] == values[p]) {
            assert a in group && a.fieldPath == p && Above(w.objs, a);
          }
        }
      } else {
        assert a in group;
      }
    }
  }

  lemma LowerValuesExact(objs: map<Obj, ObjState>, group: seq<Action>, o: Obj, values: map<string, int32>, base: map<Loc, int32>)
    requires OneObjectActions(group, o) && Consistent(group, base)
    requires forall p :: p in values ==>
               exists a :: a in group && a.fieldPath == p && Above(objs, a) && values[p] == a.baseline
    requires forall a :: a in group && Above(objs, a) ==> a.fieldPath in values
    ensures forall p :: p in values && Val(objs, Loc(o, p)).Some? ==> InInt32(Val(objs, Loc(o, p)).value)
    ensures forall p :: p in values ==> Loc(o, p) in base && values[p] == base[Loc(o, p)]
    ensures forall l :: NeedsLower(objs, group, l) <==> l.obj == o && l.path in values
  {
    forall p | p in values ensures Loc(o, p) in base && values[p] == base[Loc(o, p)] && NeedsLower(objs, group, Loc(o, p)) {
      var a :| a in group && a.fieldPath == p && Above(objs, a) && values[p] == a.baseline;
      assert ActionLoc(a) == Loc(o, p);
    }
    forall l: Loc | l.obj == o && l.path in values ensures NeedsLower(objs, group, l) {
      assert l == Loc(o, l.path);
    }
  }

  ghost predicate Loweredness(w: World, w': World, actions: seq<Action>, base: map<Loc, int32>)
    requires Consistent(actions, base)
  {
    w'.wins == w.wins && w'.objs.Keys == w.objs.Keys &&
    forall l :: Val(w'.objs, l) == Val(w.objs, l) || (NeedsLower(w.objs, actions, l) && Val(w'.objs, l) == Some(base[l]))
  }

  /** Every field that must be read can be, and exactly those above their baseline went to it. */
  ghost predicate Lowered(w: World, w': World, actions: seq<Action>, base: map<Loc, int32>)
    requires Consistent(actions, base)
  {
    Readable(w.objs, actions) && forall l :: Val(w'.objs, l) == LoweredVal(w.objs, actions, base, l)
  }

  lemma LoweredThenSame(w: World, w1: World, w2: World, actions: seq<Action>, base: map<Loc, int32>)
    requires Consistent(actions, base) && Loweredness(w, w1, actions, base)
    requires w2.wins == w1.wins && w2.objs.Keys == w1.objs.Keys && forall l :: Val(w2.objs, l) == Val(w1.objs, l)
    ensures Loweredness(w, w2, actions, base) && (Lowered(w, w1, actions, base) ==> Lowered(w, w2, actions, base))
  {
  }

  /** The one patch of a group lowers the fields above their baselines, or nothing. */
  lemma LowerPatched(w: World, group: seq<Action>, o: Obj, base: map<Loc, int32>, paths: seq<string>, values: map<string, int32>)
    requires OneObjectActions(group, o) && Consistent(group, base) && forall p :: p in values ==> p in paths
    requires forall p :: p in values ==>
               exists a :: a in group && a.fieldPath == p && Above(w.objs, a) && values[p] == a.baseline
    requires forall a :: a in group && Above(w.objs, a) ==> a.fieldPath in values
    ensures var (w1, err) := PatchIntegersSpec(w, o, paths, values);
            && Loweredness(w, w1, group, base)
            && (err.None? && Readable(w.objs, group) ==> Lowered(w, w1, group, base))
            && (err == Some(NotFound) ==> o !in w.objs && w1.objs == w.objs)
  {
    LowerValuesExact(w.objs, group, o, values, base);
    PatchIntegersResult(w, o, paths, values);
  }

  lemma RestoreGroupedResult(w: World, group: seq<Action>, o: Obj, base: map<Loc, int32>)
    requires group != [] && OneObjectActions(group, o) && Consistent(group, base)
    ensures var (w', err) := RestoreGrouped(w, group);
            && Loweredness(w, w', group, base)
            && (err.None? ==> Lowered(w, w', group, base))
            && (err == Some(NotFound) ==> o !in w.objs && w'.objs == w.objs)
  {
    ReadActionsResult(w, group, [], map[]);
    var rd := ReadActions(w, group, [], map[]);
    assert group[0] in group;
    if rd.err.None? {
      LowerPatched(rd.w, group, o, base, rd.paths, rd.values);
      var (w1, perr) := if rd.values != map[] then PatchIntegersSpec(rd.w, o, rd.paths, rd.values) else (rd.w, None);
      if rd.values == map[] { assert forall l :: !NeedsLower(w.objs, group, l); }
      var want := StampDeletes(UniqueStrings(AllStampKeys(group)));
      PatchAnnotationsKeepsInts(w1, o, want);
      LoweredThenSame(w, w1, PatchAnnotationsSpec(w1, o, want).0, group, base);
    }
  }

  lemma LowerOneResult(w: World, a: Action, base: map<Loc, int32>)
    requires Consistent([a], base)
    ensures var (w', err) := LowerOne(w, a);
            && Loweredness(w, w', [a], base)
            && (err.None? ==> Lowered(w, w', [a], base))
            && (err == Some(NotFound) || (err.None? && a.obj !in w.objs) ==> a.obj !in w.objs && w'.objs == w.objs)
  {
    assert a in [a];
    var (w1, cur) := if a.skip then (w, Success(a.baseline)) else CurrentSpec(w, ActionTarget(a));
    if cur.Success? && cur.value > a.baseline {
      assert Above(w.objs, a);
      LowerPatched(w1, [a], a.obj, base, [a.fieldPath], map[a.fieldPath := a.baseline]);
    } else {
      assert cur.Success? ==> forall l :: !NeedsLower(w.objs, [a], l);
    }
  }

  lemma RestoreOneResult(w: World, a: Action, base: map<Loc, int32>)
    requires Consistent([a], base)
    ensures var (w', err) := RestoreOne(w, a);
            && Loweredness(w, w', [a], base)
            && (err.None? ==> Lowered(w, w', [a], base))
            && (err == Some(NotFound) ==> a.obj !in w.objs && w'.objs == w.objs)
  {
    LowerOneResult(w, a, base);
    var (w1, err) := LowerOne(w, a);
    PatchAnnotationsKeepsInts(w1, a.obj, StampDeletes(a.stampKeys));
    LoweredThenSame(w, w1, PatchAnnotationsSpec(w1, a.obj, StampDeletes(a.stampKeys)).0, [a], base);
  }

  /** A restored group: every field either kept or lowered to its baseline, exactly the
      fields above their baseline when no error is reported; NotFound means no object. */
  lemma RestoreGroupResult(w: World, group: seq<Action>, o: Obj, base: map<Loc, int32>)
    requires group != [] && OneObjectActions(group, o) && Consistent(group, base)
    ensures var (w', err) := RestoreGroup(w, group);
            && Loweredness(w, w', group, base)
            && (err.None? ==> Lowered(w, w', group, base))
            && (err == Some(NotFound) ==> o !in w.objs && w'.objs == w.objs)
  {
    if |group| == 1 {
      assert group == [group[0]] && group[0] in group;
      RestoreOneResult(w, group[0], base);
    } else {
      RestoreGroupedResult(w, group, o, base);
    }
  }
}
