/** Laws of apply, compensation and restore over whole fan-outs. */
module PlanTheorems {
  import opened Types
  import opened Store
  import opened Plan
  import opened PlanEffects

  function Flat(groups: seq<seq<Step>>): seq<Step> {
    if groups == [] then [] else groups[0] + Flat(groups[1..])
  }

  /* ---- the walk that raises ---- */

  lemma NeedsRaiseBack(objs: map<Obj, ObjState>, objs1: map<Obj, ObjState>, first: seq<Step>, rest: seq<Step>, d: int32, l: Loc)
    requires Shared(first + rest, d) && objs1.Keys == objs.Keys
    requires Val(objs1, l) == Val(objs, l) || Val(objs1, l) == Some(d)
    ensures NeedsRaise(objs1, rest, l) ==> NeedsRaise(objs, first + rest, l) && Val(objs1, l) == Val(objs, l)
  {
    if s :| s in rest && LocOf(s.target) == l && Below(objs1, s) {
      assert s in first + rest;
    }
  }

  /** Every field either keeps its value or goes to the shared target; without an error the
      fields below the target are all raised, and no other. */
  lemma {:induction false} ForwardResult(w: World, steps: seq<Step>, d: int32)
    decreases |steps|
    requires Shared(steps, d)
    ensures var f := ForwardSpec(w, steps);
            && f.w.wins == w.wins && f.w.objs.Keys == w.objs.Keys
            && (forall l :: Val(f.w.objs, l) == Val(w.objs, l) || (NeedsRaise(w.objs, steps, l) && Val(f.w.objs, l) == Some(d)))
            && (f.err.None? ==> forall l :: Val(f.w.objs, l) == RaisedVal(w.objs, steps, d, l))
  {
    if steps != [] {
      var n := RunLen(steps[0].target.obj, steps);
      var group, rest := steps[..n], steps[n..];
      assert steps == group + rest;
      ApplyGroupResult(w, group, steps[0].target.obj, d);
      var g := ApplyGroup(w, group);
      forall l ensures NeedsRaise(w.objs, group, l) ==> NeedsRaise(w.objs, steps, l)
               ensures NeedsRaise(g.w.objs, rest, l) ==> NeedsRaise(w.objs, steps, l) && Val(g.w.objs, l) == Val(w.objs, l) {
        if s :| s in group && LocOf(s.target) == l && Below(w.objs, s) { assert s in steps; }
        NeedsRaiseBack(w.objs, g.w.objs, group, rest, d, l);
      }
      if g.err.None? {
        ForwardResult(g.w, rest, d);
        forall l ensures RaisedVal(g.w.objs, rest, d, l) == RaisedVal(w.objs, steps, d, l) {
          RaiseSplit(w.objs, g.w.objs, group, rest, d, l);
        }
      }
    }
  }

  /** Grouping refines the one-field-at-a-time walk: a successful apply leaves every field
      of every object as raising the steps one by one, in order, would. */
  lemma GroupedApplyIsOneByOne(w: World, steps: seq<Step>, d: int32)
    requires Shared(steps, d) && ApplySpec(w, steps).err.None?
    ensures forall l :: Val(ApplySpec(w, steps).w.objs, l) == Val(RaiseAll(w.objs, steps), l)
  {
    ForwardResult(w, steps, d);
    forall l ensures Val(RaiseAll(w.objs, steps), l) == RaisedVal(w.objs, steps, d, l) {
      RaiseAllAt(w.objs, steps, d, l);
    }
  }

  /* ---- the walk that lowers ---- */

  lemma NeedsLowerBack(objs: map<Obj, ObjState>, objs1: map<Obj, ObjState>, first: seq<Action>, rest: seq<Action>,
                       base: map<Loc, int32>, l: Loc)
    requires Consistent(first + rest, base) && objs1.Keys == objs.Keys
    requires Val(objs1, l) == Val(objs, l) || (NeedsLower(objs, first, l) && Val(objs1, l) == Some(base[l]))
    ensures NeedsLower(objs1, rest, l) ==> NeedsLower(objs, first + rest, l) && Val(objs1, l) == Val(objs, l)
    ensures NeedsLower(objs, first, l) ==> NeedsLower(objs, first + rest, l)
  {
    if a :| a in rest && ActionLoc(a) == l && Above(objs1, a) {
      assert a in first + rest;
      assert forall b :: b in first ==> b in first + rest;
    }
    if a :| a in first && ActionLoc(a) == l && Above(objs, a) { assert a in first + rest; }
  }

  lemma ConsistentParts(first: seq<Action>, rest: seq<Action>, base: map<Loc, int32>)
    requires Consistent(first + rest, base)
    ensures Consistent(first, base) && Consistent(rest, base)
  {
    forall a | a in first ensures a in first + rest {}
    forall a | a in rest ensures a in first + rest {}
  }

  /** Two walks, one after the other, lower what both together would. */
  lemma LowerChain(w: World, w1: World, w2: World, first: seq<Action>, rest: seq<Action>, base: map<Loc, int32>)
    requires Consistent(first, base) && Consistent(rest, base) && Consistent(first + rest, base)
    requires Loweredness(w, w1, first, base) && Loweredness(w1, w2, rest, base)
    ensures Loweredness(w, w2, first + rest, base)
    ensures Lowered(w, w1, first, base) && Lowered(w1, w2, rest, base) ==> Lowered(w, w2, first + rest, base)
  {
    forall l ensures Val(w2.objs, l) == Val(w.objs, l) || (NeedsLower(w.objs, first + rest, l) && Val(w2.objs, l) == Some(base[l])) {
      NeedsLowerBack(w.objs, w1.objs, first, rest, base, l);
    }
    if Lowered(w, w1, first, base) && Lowered(w1, w2, rest, base) {
      forall l ensures Val(w2.objs, l) == LoweredVal(w.objs, first + rest, base, l) {
        LowerSplit(w.objs, w1.objs, first, rest, base, l);
      }
      ReadableParts(w, w1, first, rest, base);
    }
  }

  /** A restore walk only lowers, only to baselines; when it reports no error it has lowered
      every field that stood above its baseline. */
  lemma {:induction false} RestoreResult(w: World, actions: seq<Action>, base: map<Loc, int32>)
    decreases |actions|
    requires Consistent(actions, base)
    ensures var (w', err) := RestoreFrom(w, actions);
            && Loweredness(w, w', actions, base)
            && (err.None? ==> Lowered(w, w', actions, base))
            && err != Some(NotFound)
  {
    if actions != [] {
      var o := actions[0].obj;
      var n := ActionRunLen(o, actions);
      var group, rest := actions[..n], actions[n..];
      assert actions == group + rest;
      ConsistentParts(group, rest, base);
      RestoreGroupResult(w, group, o, base);
      var (w1, err) := RestoreGroup(w, group);
      if err.None? || err.value == NotFound {
        RestoreResult(w1, rest, base);
        if err.Some? { MissingLowered(w, w1, group, o, base); }
        LowerChain(w, w1, RestoreFrom(w1, rest).0, group, rest, base);
      } else {
        LowerChain(w, w1, w1, group, rest, base);
      }
    }
  }

  /** With its object gone a group has nothing to lower, and nothing it must read. */
  lemma MissingLowered(w: World, w1: World, group: seq<Action>, o: Obj, base: map<Loc, int32>)
    requires Consistent(group, base) && OneObjectActions(group, o) && o !in w.objs && w1.objs == w.objs
    ensures Lowered(w, w1, group, base)
  {
  }

  lemma ReadableParts(w: World, w1: World, group: seq<Action>, rest: seq<Action>, base: map<Loc, int32>)
    requires Consistent(group, base) && Loweredness(w, w1, group, base) && Readable(w1.objs, rest)
    requires Readable(w.objs, group)
    ensures Readable(w.objs, group + rest)
  {
    forall a | a in rest && !a.skip && a.obj in w.objs ensures Peek(w.objs, ActionTarget(a)).Success? {
      var l := ActionLoc(a);
      assert Val(w1.objs, l) == Val(w.objs, l) || NeedsLower(w.objs, group, l);
    }
  }

  /** Grouped restore is the one-by-one restore, each non-skip field of an existing object at
      the lower of its value and its baseline. */
  lemma GroupedRestoreIsOneByOne(w: World, actions: seq<Action>, base: map<Loc, int32>)
    requires Consistent(actions, base) && RestoreFrom(w, actions).1.None?
    ensures forall l :: Val(RestoreFrom(w, actions).0.objs, l) == Val(LowerAll(w.objs, actions), l)
    ensures forall a :: a in actions && !a.skip && a.obj in w.objs ==>
              var cur := Peek(w.objs, ActionTarget(a));
              cur.Success? && Peek(RestoreFrom(w, actions).0.objs, ActionTarget(a))
                                == Success(if cur.value < a.baseline then cur.value else a.baseline)
  {
    RestoreResult(w, actions, base);
    forall l ensures Val(LowerAll(w.objs, actions), l) == LoweredVal(w.objs, actions, base, l) {
      LowerAllAt(w.objs, actions, base, l);
    }
    var objs' := RestoreFrom(w, actions).0.objs;
    forall a | a in actions && !a.skip && a.obj in w.objs
      ensures var cur := Peek(w.objs, ActionTarget(a));
              cur.Success? && Peek(objs', ActionTarget(a)) == Success(if cur.value < a.baseline then cur.value else a.baseline)
    {
      RestoredPeek(w.objs, objs', actions, base, a);
    }
  }

  lemma RestoredPeek(objs: map<Obj, ObjState>, objs1: map<Obj, ObjState>, actions: seq<Action>, base: map<Loc, int32>, a: Action)
    requires Consistent(actions, base) && a in actions && !a.skip && Peek(objs, ActionTarget(a)).Success?
    requires objs1.Keys == objs.Keys && Val(objs1, ActionLoc(a)) == LoweredVal(objs, actions, base, ActionLoc(a))
    ensures var cur := Peek(objs, ActionTarget(a)).value;
            Peek(objs1, ActionTarget(a)) == Success(if cur < a.baseline then cur else a.baseline)
  {
    LoweredOnce(objs, actions, base, a);
  }

  lemma NothingLeftToLower(objs: map<Obj, ObjState>, objs1: map<Obj, ObjState>, actions: seq<Action>, base: map<Loc, int32>)
    requires Consistent(actions, base) && objs1.Keys == objs.Keys
    requires forall l :: Val(objs1, l) == LoweredVal(objs, actions, base, l)
    ensures forall l :: !NeedsLower(objs1, actions, l)
  {
    forall a | a in actions ensures !Above(objs1, a) {
      var l := ActionLoc(a);
      assert Val(objs1, l) == LoweredVal(objs, actions, base, l);
      assert Above(objs, a) ==> NeedsLower(objs, actions, l);
    }
  }

  /** Restoring twice is restoring once: after a restore that reported no error, a further
      restore, however it ends, changes no field. */
  lemma RestoreIdempotent(w: World, actions: seq<Action>, base: map<Loc, int32>, tape: seq<Outcome>)
    requires Consistent(actions, base) && RestoreFrom(w, actions).1.None?
    ensures var once := RestoreFrom(w, actions).0;
            forall l :: Val(RestoreFrom(once.(tape := tape), actions).0.objs, l) == Val(once.objs, l)
  {
    RestoreResult(w, actions, base);
    var once := RestoreFrom(w, actions).0;
    NothingLeftToLower(w.objs, once.objs, actions, base);
    RestoreChangesNothing(once.(tape := tape), actions, base);
  }

  lemma RestoreChangesNothing(w: World, actions: seq<Action>, base: map<Loc, int32>)
    requires Consistent(actions, base) && forall l :: !NeedsLower(w.objs, actions, l)
    ensures forall l :: Val(RestoreFrom(w, actions).0.objs, l) == Val(w.objs, l)
  {
    RestoreResult(w, actions, base);
  }

  /* ---- a failing apply ---- */

  /** The group's patch took effect, but its answer was lost. */
  predicate PatchLost(w: World, group: seq<Step>)
    requires group != []
  {
    var rd := ReadSteps(w, group, map[], map[]);
    rd.err.None? && rd.values != map[] &&
    var (w1, err) := PatchIntegersSpec(rd.w, group[0].target.obj, StepPaths(group), rd.values);
    err.Some? && w1.objs != rd.w.objs
  }

  /** A merge patch that reports an error either did nothing, or was merged and its answer lost. */
  lemma LostPatch(w: World, o: Obj, paths: seq<string>, values: map<string, int32>)
    requires forall p :: p in values ==> p in paths
    requires forall p :: p in values && Val(w.objs, Loc(o, p)).Some? ==> InInt32(Val(w.objs, Loc(o, p)).value)
    ensures var (w1, err) := PatchIntegersSpec(w, o, paths, values);
            && w1.objs.Keys == w.objs.Keys
            && (w1.objs != w.objs ==>
                  forall l :: Val(w1.objs, l) == if l.obj == o && l.path in values then Some(values[l.path]) else Val(w.objs, l))
  {
    PatchIntegersCases(w, o, paths, values);
    if o in w.objs {
      forall l ensures Val(Patched(w.objs, o, paths, values), l)
                         == if l.obj == o && l.path in values then Some(values[l.path]) else Val(w.objs, l) {
        PatchedAt(w.objs, o, paths, values, l);
      }
    }
  }

  /** A group that is not compensated is untouched, unless its answer was lost: then it is
      raised all the same. */
  lemma ApplyGroupExact(w: World, group: seq<Step>, o: Obj, d: int32)
    requires group != [] && OneObject(group, o) && Shared(group, d)
    ensures var g := ApplyGroup(w, group);
            && (PatchLost(w, group) ==> g.err.Some? && !g.mutated)
            && (!g.mutated ==> forall l :: Val(g.w.objs, l) == if PatchLost(w, group) then RaisedVal(w.objs, group, d, l) else Val(w.objs, l))
  {
    ReadStepsResult(w, group, map[], map[], d);
    var rd := ReadSteps(w, group, map[], map[]);
    if rd.err.None? {
      RaiseValuesExact(w.objs, group, o, rd.values);
      assert group[0] in group;
      LostPatch(rd.w, o, StepPaths(group), rd.values);
      var w1 := if rd.values != map[] then PatchIntegersSpec(rd.w, o, StepPaths(group), rd.values).0 else rd.w;
      PatchAnnotationsKeepsInts(w1, o, rd.stamp);
    }
  }

  /** The steps of the failing group, when its patch took effect and the answer was lost. */
  function Stranded(w: World, steps: seq<Step>): seq<Step>
    decreases |steps|
  {
    if steps == [] then []
    else
      var n := RunLen(steps[0].target.obj, steps);
      var g := ApplyGroup(w, steps[..n]);
      if g.err.None? then Stranded(g.w, steps[n..]) else if PatchLost(w, steps[..n]) then steps[..n] else []
  }

  /** The steps whose groups were raised: those to compensate, and the stranded ones. */
  function Touched(w: World, steps: seq<Step>): seq<Step> { Flat(ForwardSpec(w, steps).applied) + Stranded(w, steps) }

  ghost predicate ProperGroups(groups: seq<seq<Step>>, steps: seq<Step>) {
    forall g: seq<Step> :: g in groups ==> g != [] && OneObject(g, g[0].target.obj) && forall s :: s in g ==> s in steps
  }

  /** The applied groups are runs of steps on one object, whatever the answers were. */
  lemma {:induction false} ForwardGroups(w: World, steps: seq<Step>)
    decreases |steps|
    ensures ProperGroups(ForwardSpec(w, steps).applied, steps)
  {
    if steps != [] {
      var n := RunLen(steps[0].target.obj, steps);
      var g := ApplyGroup(w, steps[..n]);
      assert forall s :: s in steps[..n] ==> s in steps;
      assert forall s :: s in steps[n..] ==> s in steps;
      if g.err.None? {
        ForwardGroups(g.w, steps[n..]);
      }
    }
  }

  lemma {:induction false} FlatMembers(groups: seq<seq<Step>>, s: Step)
    ensures s in Flat(groups) <==> exists g :: g in groups && s in g
  {
    if groups != [] {
      FlatMembers(groups[1..], s);
      assert groups == [groups[0]] + groups[1..];
      assert Flat(groups) == groups[0] + Flat(groups[1..]);
    }
  }

  lemma {:induction false} StrandedMembers(w: World, steps: seq<Step>)
    decreases |steps|
    ensures forall s :: s in Stranded(w, steps) ==> s in steps
  {
    if steps != [] {
      var n := RunLen(steps[0].target.obj, steps);
      var g := ApplyGroup(w, steps[..n]);
      if g.err.None? { StrandedMembers(g.w, steps[n..]); }
    }
  }

  lemma TouchedMembers(w: World, steps: seq<Step>)
    ensures forall s :: s in Touched(w, steps) ==> s in steps
  {
    ForwardGroups(w, steps);
    StrandedMembers(w, steps);
    var applied := ForwardSpec(w, steps).applied;
    forall s | s in Flat(applied) ensures s in steps { FlatMembers(applied, s); }
  }

  /** Up to the first failure exactly the touched groups have been raised. */
  lemma {:induction false} ForwardTouched(w: World, steps: seq<Step>, d: int32)
    decreases |steps|
    requires Shared(steps, d)
    ensures forall l :: Val(ForwardSpec(w, steps).w.objs, l) == RaisedVal(w.objs, Touched(w, steps), d, l)
  {
    if steps != [] {
      var n := RunLen(steps[0].target.obj, steps);
      var group, rest := steps[..n], steps[n..];
      assert steps == group + rest;
      ApplyGroupResult(w, group, steps[0].target.obj, d);
      ApplyGroupExact(w, group, steps[0].target.obj, d);
      var g := ApplyGroup(w, group);
      TouchedUnfolds(w, steps);
      if g.err.None? {
        ForwardTouched(g.w, rest, d);
        TouchedMembers(g.w, rest);
        ForwardStep(w, g.w, group, if g.mutated then group else [], Touched(g.w, rest), rest, d);
      }
    }
  }

  lemma FlatOne(group: seq<Step>)
    ensures Flat([group]) == group
  {
    assert [group][1..] == [] && Flat([]) == [];
  }

  lemma Regroup(a: seq<Step>, b: seq<Step>, c: seq<Step>)
    ensures (a + b) + c == a + (b + c)
  {
  }

  lemma TouchedUnfolds(w: World, steps: seq<Step>)
    requires steps != []
    ensures var n := RunLen(steps[0].target.obj, steps);
            var g := ApplyGroup(w, steps[..n]);
            var now := if g.mutated then steps[..n] else [];
            Touched(w, steps) == now + if g.err.None? then Touched(g.w, steps[n..])
                                       else if PatchLost(w, steps[..n]) then steps[..n] else []
  {
    var n := RunLen(steps[0].target.obj, steps);
    var group := steps[..n];
    var g := ApplyGroup(w, group);
    var now := if g.mutated then group else [];
    var own := ThisGroup(g, group);
    FlatOne(group);
    assert Flat(own) == now;
    if g.err.None? {
      var f := ForwardSpec(g.w, steps[n..]);
      assert ForwardSpec(w, steps).applied == own + f.applied && Stranded(w, steps) == Stranded(g.w, steps[n..]);
      FlatSplit(own, f.applied);
      Regroup(now, Flat(f.applied), Stranded(g.w, steps[n..]));
    } else {
      assert own + [] == own;
      assert ForwardSpec(w, steps).applied == own;
    }
  }

  lemma {:induction false} FlatSplit(a: seq<seq<Step>>, b: seq<seq<Step>>)
    ensures Flat(a + b) == Flat(a) + Flat(b)
  {
    if a == [] {
      assert a + b == b;
    } else {
      assert (a + b)[1..] == a[1..] + b;
      FlatSplit(a[1..], b);
    }
  }

  lemma ForwardStep(w: World, w1: World, group: seq<Step>, now: seq<Step>, later: seq<Step>, rest: seq<Step>, d: int32)
    requires Shared(group + rest, d) && (forall s :: s in later ==> s in rest) && w1.objs.Keys == w.objs.Keys
    requires now == group || now == []
    requires now == group ==> forall l :: Val(w1.objs, l) == RaisedVal(w.objs, group, d, l)
    requires now != group ==> forall l :: Val(w1.objs, l) == Val(w.objs, l)
    ensures forall l :: RaisedVal(w1.objs, later, d, l) == RaisedVal(w.objs, now + later, d, l)
  {
    assert forall s :: s in rest ==> s in group + rest;
    assert forall s :: s in group ==> s in group + rest;
    if now == group {
      forall l ensures RaisedVal(w1.objs, later, d, l) == RaisedVal(w.objs, group + later, d, l) {
        RaiseSplit(w.objs, w1.objs, group, later, d, l);
      }
    } else {
      assert now + later == later;
      forall l ensures NeedsRaise(w1.objs, later, l) == NeedsRaise(w.objs, later, l) {
        SameBelow(w.objs, w1.objs, later, l);
      }
    }
  }

  lemma SameBelow(objs: map<Obj, ObjState>, objs1: map<Obj, ObjState>, steps: seq<Step>, l: Loc)
    requires objs1.Keys == objs.Keys && Val(objs1, l) == Val(objs, l)
    ensures NeedsRaise(objs1, steps, l) == NeedsRaise(objs, steps, l)
  {
    forall s: Step | LocOf(s.target) == l ensures Below(objs1, s) == Below(objs, s) {}
  }

  /** The order of the records does not matter. */
  lemma LoweredReordered(w: World, w1: World, some: seq<Action>, others: seq<Action>, base: map<Loc, int32>)
    requires Consistent(some, base) && Consistent(others, base) && forall a :: a in some <==> a in others
    requires Loweredness(w, w1, some, base)
    ensures Loweredness(w, w1, others, base) && (Lowered(w, w1, some, base) ==> Lowered(w, w1, others, base))
  {
    forall l ensures NeedsLower(w.objs, some, l) <==> NeedsLower(w.objs, others, l) {}
  }

  lemma FlatLast(groups: seq<seq<Step>>)
    requires groups != []
    ensures var last, before := groups[|groups| - 1], groups[..|groups| - 1];
            ToActions(Flat(groups)) == ToActions(Flat(before)) + ToActions(last)
  {
    var last, before := groups[|groups| - 1], groups[..|groups| - 1];
    assert groups == before + [last];
    FlatSplit(before, [last]);
    assert Flat([last]) == last;
    assert Flat(groups) == Flat(before) + last;
  }

  lemma ConsistentSwapped(first: seq<Action>, rest: seq<Action>, base: map<Loc, int32>)
    requires Consistent(rest + first, base)
    ensures Consistent(first, base) && Consistent(rest, base) && Consistent(first + rest, base)
    ensures forall a :: a in first + rest <==> a in rest + first
  {
    ConsistentParts(rest, first, base);
    assert forall a :: a in first + rest <==> a in rest + first;
  }

  lemma LastGroup(groups: seq<seq<Step>>, steps: seq<Step>)
    requires groups != [] && ProperGroups(groups, steps)
    ensures var last := groups[|groups| - 1];
            last != [] && OneObjectActions(ToActions(last), last[0].target.obj) && ProperGroups(groups[..|groups| - 1], steps)
  {
    var last, before := groups[|groups| - 1], groups[..|groups| - 1];
    assert last in groups && forall g :: g in before ==> g in groups;
    var first := ToActions(last);
    forall a | a in first ensures a.obj == last[0].target.obj {
      var i :| 0 <= i < |first| && first[i] == a;
      assert last[i] in last;
    }
  }

  /** Compensation is the restore of the applied groups, whatever its order. */
  lemma {:induction false} CompensateResult(w: World, groups: seq<seq<Step>>, steps: seq<Step>, base: map<Loc, int32>)
    decreases |groups|
    requires ProperGroups(groups, steps) && Consistent(ToActions(Flat(groups)), base)
    ensures var (w', err) := CompensateSpec(w, groups);
            && Loweredness(w, w', ToActions(Flat(groups)), base)
            && (err.None? ==> Lowered(w, w', ToActions(Flat(groups)), base))
  {
    if groups != [] {
      var last, before := groups[|groups| - 1], groups[..|groups| - 1];
      var first, rest := ToActions(last), ToActions(Flat(before));
      FlatLast(groups);
      ConsistentSwapped(first, rest, base);
      LastGroup(groups, steps);
      RestoreGroupResult(w, first, last[0].target.obj, base);
      var w1 := RestoreGroup(w, first).0;
      CompensateResult(w1, before, steps, base);
      var w2 := CompensateSpec(w1, before).0;
      LowerChain(w, w1, w2, first, rest, base);
      LoweredReordered(w, w2, first + rest, ToActions(Flat(groups)), base);
    }
  }

  /** A failing apply, whose compensation reports no error, is: raise the touched groups one
      by one, then lower the applied ones one by one. Every other field keeps its value. */
  lemma FailedApplyIsRaiseThenLower(w: World, steps: seq<Step>, d: int32, base: map<Loc, int32>)
    requires Shared(steps, d) && Consistent(ToActions(steps), base)
    requires var f := ForwardSpec(w, steps);
             f.err.Some? && CompensateSpec(f.w, f.applied).1.None?
    ensures var applied := Flat(ForwardSpec(w, steps).applied);
            && (forall s :: s in Touched(w, steps) ==> s in steps)
            && forall l :: Val(ApplySpec(w, steps).w.objs, l)
                             == Val(LowerAll(RaiseAll(w.objs, Touched(w, steps)), ToActions(applied)), l)
  {
    var f := ForwardSpec(w, steps);
    FailedApplyVals(w, steps, d, base);
    var raised := RaiseAll(w.objs, Touched(w, steps));
    RaiseAllKeys(w.objs, Touched(w, steps));
    ForwardResult(w, steps, d);
    forall l ensures Val(raised, l) == Val(f.w.objs, l) {
      RaiseAllAt(w.objs, Touched(w, steps), d, l);
    }
    LowerAllSame(raised, f.w.objs, ToActions(Flat(f.applied)), base);
  }

  lemma FailedApplyVals(w: World, steps: seq<Step>, d: int32, base: map<Loc, int32>)
    requires Shared(steps, d) && Consistent(ToActions(steps), base)
    requires var f := ForwardSpec(w, steps);
             f.err.Some? && CompensateSpec(f.w, f.applied).1.None?
    ensures var f := ForwardSpec(w, steps);
            var applied := Flat(f.applied);
            && Shared(Touched(w, steps), d) && (forall s :: s in Touched(w, steps) ==> s in steps)
            && Consistent(ToActions(applied), base) && Readable(f.w.objs, ToActions(applied))
            && (forall l :: Val(f.w.objs, l) == RaisedVal(w.objs, Touched(w, steps), d, l))
            && (forall l :: Val(ApplySpec(w, steps).w.objs, l) == LoweredVal(f.w.objs, ToActions(applied), base, l))
            && ApplySpec(w, steps).w.objs.Keys == f.w.objs.Keys == w.objs.Keys
  {
    var f := ForwardSpec(w, steps);
    ForwardTouched(w, steps, d);
    ForwardResult(w, steps, d);
    ForwardGroups(w, steps);
    TouchedMembers(w, steps);
    forall s | s in Flat(f.applied) ensures s in steps { assert s in Touched(w, steps); }
    ActionsOfMembers(Flat(f.applied), steps, base);
    CompensateResult(f.w, f.applied, steps, base);
  }

  /** A lost answer leaves its raise in place: a field the failing group raised without an
      answer, and that no compensated step names, ends at the target. */
  lemma StrandedStaysRaised(w: World, steps: seq<Step>, d: int32, base: map<Loc, int32>, l: Loc)
    requires Shared(steps, d) && Consistent(ToActions(steps), base)
    requires var f := ForwardSpec(w, steps);
             && f.err.Some? && CompensateSpec(f.w, f.applied).1.None?
             && forall s :: s in Flat(f.applied) ==> LocOf(s.target) != l
    ensures Val(ApplySpec(w, steps).w.objs, l) == if NeedsRaise(w.objs, Stranded(w, steps), l) then Some(d) else Val(w.objs, l)
  {
    FailedApplyVals(w, steps, d, base);
    var f := ForwardSpec(w, steps);
    var acts := ToActions(Flat(f.applied));
    forall a | a in acts ensures ActionLoc(a) != l {
      var i :| 0 <= i < |acts| && acts[i] == a;
      assert Flat(f.applied)[i] in Flat(f.applied);
    }
    assert forall s :: s in Touched(w, steps) <==> s in Flat(f.applied) || s in Stranded(w, steps);
    assert NeedsRaise(w.objs, Touched(w, steps), l) <==> NeedsRaise(w.objs, Stranded(w, steps), l);
  }

  lemma LowerAllSame(objs: map<Obj, ObjState>, objs1: map<Obj, ObjState>, actions: seq<Action>, base: map<Loc, int32>)
    requires objs.Keys == objs1.Keys && Consistent(actions, base)
    requires forall l :: Val(objs, l) == Val(objs1, l)
    ensures forall l :: Val(LowerAll(objs, actions), l) == LoweredVal(objs1, actions, base, l)
  {
    forall l ensures Val(LowerAll(objs, actions), l) == LoweredVal(objs1, actions, base, l) {
      LowerAllAt(objs, actions, base, l);
      assert Val(objs, l) == Val(objs1, l);
      forall a: Action | ActionLoc(a) == l ensures Above(objs, a) == Above(objs1, a) {}
    }
  }

  lemma {:induction false} RaiseAllKeys(objs: map<Obj, ObjState>, steps: seq<Step>)
    ensures RaiseAll(objs, steps).Keys == objs.Keys
  {
    if steps != [] {
      RaiseAllKeys(if Below(objs, steps[0]) then SetField(objs, LocOf(steps[0].target), steps[0].desired) else objs, steps[1..]);
    }
  }

  lemma ActionsOfMembers(some: seq<Step>, steps: seq<Step>, base: map<Loc, int32>)
    requires Consistent(ToActions(steps), base) && forall s :: s in some ==> s in steps
    ensures Consistent(ToActions(some), base)
  {
    forall a | a in ToActions(some) ensures a in ToActions(steps) {
      var i :| 0 <= i < |some| && ToActions(some)[i] == a;
      assert some[i] in some;
      var j :| 0 <= j < |steps| && steps[j] == some[i];
      assert ToActions(steps)[j] == a;
    }
  }

  /** The restore reads an unset field as the plan did. */
  predicate RestoreReads(objs: map<Obj, ObjState>, s: Step) {
    Val(objs, LocOf(s.target)).Some? || DefaultOf(s.target) == DefaultOf(ActionTarget(ToAction(s)))
  }

  /** What compensation reads at the field: after a raise or a set value, what the plan read;
      for a field left unset, the default of its kind, not that of its binding. */
  function ReadBack(objs: map<Obj, ObjState>, s: Step, d: int32): Option<int>
    requires Peek(objs, s.target).Success?
  {
    var old_ := Peek(objs, s.target).value;
    if Val(objs, LocOf(s.target)).Some? || old_ < d then Some(Max(old_, d))
    else
      match DefaultOf(ActionTarget(ToAction(s)))
      case Some(v) => Some(v)
      case None => None
  }

  /** Where a failing apply leaves a field: a field of a compensated group goes to its recorded
      baseline when compensation reads it above that, and else stays raised. When the restore
      reads it as the plan did it so ends at the lower of its raised value and its baseline,
      and is back at its old value exactly when that was the baseline, or lay between the
      target and the baseline. */
  lemma FailedApplyValue(w: World, steps: seq<Step>, d: int32, base: map<Loc, int32>, s: Step)
    requires Shared(steps, d) && Consistent(ToActions(steps), base)
    requires var f := ForwardSpec(w, steps);
             f.err.Some? && CompensateSpec(f.w, f.applied).1.None? && s in Flat(f.applied)
    requires !s.skip && Peek(w.objs, s.target).Success?
    requires forall t :: t in steps && LocOf(t.target) == LocOf(s.target) ==> t.target == s.target
    ensures var old_, back := Peek(w.objs, s.target).value, ReadBack(w.objs, s, d);
            var new_ := Peek(ApplySpec(w, steps).w.objs, s.target);
            && back.Some? && new_ == Success(if back.value > s.baseline then s.baseline else Max(old_, d))
            && (RestoreReads(w.objs, s) ==>
                  && new_ == Success(Min(Max(old_, d), s.baseline))
                  && (new_ == Success(old_) <==> s.baseline == old_ || d <= old_ <= s.baseline))
  {
    var f := ForwardSpec(w, steps);
    FailedApplyAt(w, steps, d, base, LocOf(s.target));
    ActionOf(Flat(f.applied), s);
    UndoneValue(w.objs, f.w.objs, ApplySpec(w, steps).w.objs, Touched(w, steps), ToActions(Flat(f.applied)), d, base, s);
  }

  lemma ActionOf(steps: seq<Step>, s: Step)
    requires s in steps
    ensures ToAction(s) in ToActions(steps)
  {
    var i :| 0 <= i < |steps| && steps[i] == s;
    assert ToActions(steps)[i] == ToAction(s);
  }

  /** The two halves of a failing apply, at one field. */
  lemma FailedApplyAt(w: World, steps: seq<Step>, d: int32, base: map<Loc, int32>, l: Loc)
    requires Shared(steps, d) && Consistent(ToActions(steps), base)
    requires var f := ForwardSpec(w, steps);
             f.err.Some? && CompensateSpec(f.w, f.applied).1.None?
    ensures var f, objs2 := ForwardSpec(w, steps), ApplySpec(w, steps).w.objs;
            var acts := ToActions(Flat(f.applied));
            && Shared(Touched(w, steps), d) && (forall s :: s in Touched(w, steps) ==> s in steps)
            && Consistent(acts, base) && Readable(f.w.objs, acts) && objs2.Keys == f.w.objs.Keys == w.objs.Keys
            && Val(f.w.objs, l) == RaisedVal(w.objs, Touched(w, steps), d, l)
            && Val(objs2, l) == LoweredVal(f.w.objs, acts, base, l)
  {
    FailedApplyVals(w, steps, d, base);
  }

  /** Raised along `steps`, then lowered along `actions`. */
  lemma UndoneValue(objs: map<Obj, ObjState>, objs1: map<Obj, ObjState>, objs2: map<Obj, ObjState>, steps: seq<Step>,
                    actions: seq<Action>, d: int32, base: map<Loc, int32>, s: Step)
    requires Shared(steps, d) && s in steps && !s.skip && Peek(objs, s.target).Success?
    requires forall t :: t in steps && LocOf(t.target) == LocOf(s.target) ==> t.target == s.target
    requires Consistent(actions, base) && ToAction(s) in actions && Readable(objs1, actions)
    requires objs2.Keys == objs1.Keys == objs.Keys
    requires Val(objs1, LocOf(s.target)) == RaisedVal(objs, steps, d, LocOf(s.target))
    requires Val(objs2, LocOf(s.target)) == LoweredVal(objs1, actions, base, LocOf(s.target))
    ensures var old_, back, new_ := Peek(objs, s.target).value, ReadBack(objs, s, d), Peek(objs2, s.target);
            && back.Some? && new_ == Success(if back.value > s.baseline then s.baseline else Max(old_, d))
            && (RestoreReads(objs, s) ==>
                  && new_ == Success(Min(Max(old_, d), s.baseline))
                  && (new_ == Success(old_) <==> s.baseline == old_ || d <= old_ <= s.baseline))
  {
    RaisedPeek(objs, objs1, steps, d, s);
    LoweredPeek(objs1, objs2, actions, base, s);
  }

  /** After the raise the field reads the higher of its value and the target to the plan, and
      ReadBack to the restore. */
  lemma RaisedPeek(objs: map<Obj, ObjState>, objs1: map<Obj, ObjState>, steps: seq<Step>, d: int32, s: Step)
    requires Shared(steps, d) && s in steps && Peek(objs, s.target).Success?
    requires forall t :: t in steps && LocOf(t.target) == LocOf(s.target) ==> t.target == s.target
    requires objs1.Keys == objs.Keys && Val(objs1, LocOf(s.target)) == RaisedVal(objs, steps, d, LocOf(s.target))
    ensures Peek(objs1, s.target) == Success(Max(Peek(objs, s.target).value, d))
    ensures var a := Peek(objs1, ActionTarget(ToAction(s)));
            if a.Success? then ReadBack(objs, s, d) == Some(a.value as int) else ReadBack(objs, s, d) == None
  {
    RaisedOnce(objs, steps, d, s);
    assert ActionLoc(ToAction(s)) == LocOf(s.target);
  }

  /** The restore takes it to the baseline exactly when it reads it above. */
  lemma LoweredPeek(objs: map<Obj, ObjState>, objs1: map<Obj, ObjState>, actions: seq<Action>, base: map<Loc, int32>, s: Step)
    requires Consistent(actions, base) && ToAction(s) in actions && !s.skip && Readable(objs, actions)
    requires Peek(objs, s.target).Success? && objs1.Keys == objs.Keys
    requires Val(objs1, LocOf(s.target)) == LoweredVal(objs, actions, base, LocOf(s.target))
    ensures var back := Peek(objs, ActionTarget(ToAction(s)));
            back.Success? && Peek(objs1, s.target) == if back.value > s.baseline then Success(s.baseline) else Peek(objs, s.target)
  {
    LoweredOnce(objs, actions, base, ToAction(s));
    assert ActionLoc(ToAction(s)) == LocOf(s.target);
  }

  /** A field is raised exactly when its value was below the target. */
  lemma RaisedOnce(objs: map<Obj, ObjState>, steps: seq<Step>, d: int32, s: Step)
    requires Shared(steps, d) && s in steps && Peek(objs, s.target).Success?
    requires forall t :: t in steps && LocOf(t.target) == LocOf(s.target) ==> t.target == s.target
    ensures NeedsRaise(objs, steps, LocOf(s.target)) <==> Peek(objs, s.target).value < d
  {
  }

  lemma LoweredOnce(objs: map<Obj, ObjState>, actions: seq<Action>, base: map<Loc, int32>, a: Action)
    requires Consistent(actions, base) && a in actions
    ensures NeedsLower(objs, actions, ActionLoc(a)) && !a.skip ==> Above(objs, a)
    ensures Above(objs, a) ==> NeedsLower(objs, actions, ActionLoc(a))
  {
    if b :| b in actions && ActionLoc(b) == ActionLoc(a) && Above(objs, b) {
      assert !a.skip ==> a.baseline == b.baseline;
    }
  }
}
