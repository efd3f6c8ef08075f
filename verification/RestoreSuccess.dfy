/** When a restore succeeds: given answers, exactly when it can read what it has to read. */
module RestoreSuccess {
  import opened Types
  import opened Store
  import opened Plan
  import opened PlanEffects
  import opened PlanTheorems
  import opened Ledger

  /** The next `n` calls are answered. */
  ghost predicate Answers(w: World, n: nat) {
    n <= |w.tape| && forall i :: 0 <= i < n ==> w.tape[i] == Applied
  }

  lemma AnswersRest(w: World, n: nat)
    requires Answers(w, n) && n > 0
    ensures Next(w) == Applied && Answers(Rest(w), n - 1)
  {
  }

  /** No error, or NotFound for an object that is not there. */
  predicate FineFor(w: World, o: Obj, err: Option<Error>) { err.None? || (err == Some(NotFound) && o !in w.objs) }

  /** A merge patch makes at most two calls. */
  lemma PatchIntegersAnswered(w: World, o: Obj, paths: seq<string>, values: map<string, int32>, n: nat)
    requires Answers(w, n + 2)
    ensures var (w1, err) := PatchIntegersSpec(w, o, paths, values);
            Answers(w1, n) && FineFor(w, o, err) && w1.objs.Keys == w.objs.Keys
  {
    AnswersRest(w, n + 2);
    AnswersRest(Rest(w), n + 1);
  }

  lemma PatchAnnotationsAnswered(w: World, o: Obj, want: map<string, string>, n: nat)
    requires Answers(w, n + 2)
    ensures var (w1, err) := PatchAnnotationsSpec(w, o, want);
            Answers(w1, n) && FineFor(w, o, err) && w1.objs.Keys == w.objs.Keys
  {
    AnswersRest(w, n + 2);
    AnswersRest(Rest(w), n + 1);
  }

  lemma {:induction false} ReadActionsAnswered(w: World, group: seq<Action>, paths: seq<string>, values: map<string, int32>, o: Obj, n: nat)
    requires Answers(w, |group| + n) && OneObjectActions(group, o) && Readable(w.objs, group)
    decreases |group|
    ensures var r := ReadActions(w, group, paths, values);
            Answers(r.w, n) && FineFor(w, o, r.err) && r.w.objs == w.objs
  {
    if group != [] {
      var a := group[0];
      assert a in group && forall b :: b in group[1..] ==> b in group;
      AnswersRest(w, |group| + n);
      if a.skip {
        ReadActionsAnswered(w, group[1..], paths, values, o, n);
      } else {
        var (w1, cur) := CurrentSpec(w, ActionTarget(a));
        if cur.Success? {
          ReadActionsAnswered(w1, group[1..], paths + [a.fieldPath],
                              if cur.value > a.baseline then values[a.fieldPath := a.baseline] else values, o, n);
        }
      }
    }
  }

  lemma LowerOneAnswered(w: World, a: Action, n: nat)
    requires Answers(w, n + 3) && Readable(w.objs, [a])
    ensures var (w1, err) := LowerOne(w, a);
            Answers(w1, n) && FineFor(w, a.obj, err) && w1.objs.Keys == w.objs.Keys
  {
    assert a in [a];
    AnswersRest(w, n + 3);
    var w1 := if a.skip then w else Rest(w);
    PatchIntegersAnswered(w1, a.obj, [a.fieldPath], map[a.fieldPath := a.baseline], n);
  }

  lemma RestoreOneAnswered(w: World, a: Action, n: nat)
    requires Answers(w, n + 5) && Readable(w.objs, [a])
    ensures var (w1, err) := RestoreOne(w, a);
            Answers(w1, n) && FineFor(w, a.obj, err)
  {
    LowerOneAnswered(w, a, n + 2);
    var (w1, err) := LowerOne(w, a);
    if err.None? { PatchAnnotationsAnswered(w1, a.obj, StampDeletes(a.stampKeys), n); }
  }

  lemma RestoreGroupedAnswered(w: World, group: seq<Action>, o: Obj, n: nat)
    requires group != [] && OneObjectActions(group, o) && Answers(w, n + |group| + 4) && Readable(w.objs, group)
    ensures var (w1, err) := RestoreGrouped(w, group);
            Answers(w1, n) && FineFor(w, o, err)
  {
    assert group[0] in group;
    ReadActionsAnswered(w, group, [], map[], o, n + 4);
    var rd := ReadActions(w, group, [], map[]);
    if rd.err.None? {
      PatchIntegersAnswered(rd.w, o, rd.paths, rd.values, n + 2);
      var (w1, err) := if rd.values != map[] then PatchIntegersSpec(rd.w, o, rd.paths, rd.values) else (rd.w, None);
      assert Answers(w1, n + 2) && w1.objs.Keys == w.objs.Keys;
      if err.None? { PatchAnnotationsAnswered(w1, o, StampDeletes(UniqueStrings(AllStampKeys(group))), n); }
    }
  }

  lemma RestoreGroupAnswered(w: World, group: seq<Action>, o: Obj, n: nat)
    requires group != [] && OneObjectActions(group, o) && Answers(w, n + 5 * |group|) && Readable(w.objs, group)
    ensures var (w1, err) := RestoreGroup(w, group);
            Answers(w1, n) && FineFor(w, o, err)
  {
    if |group| == 1 {
      assert group == [group[0]] && group[0] in group;
      RestoreOneAnswered(w, group[0], n);
    } else {
      assert Answers(w, (n + 4 * |group| - 4) + |group| + 4);
      RestoreGroupedAnswered(w, group, o, n + 4 * |group| - 4);
    }
  }

  /** Lowered fields are still readable. */
  lemma StillReadable(w: World, w1: World, group: seq<Action>, rest: seq<Action>, base: map<Loc, int32>)
    requires Consistent(group, base) && Loweredness(w, w1, group, base) && Readable(w.objs, rest)
    ensures Readable(w1.objs, rest)
  {
    forall a | a in rest && !a.skip && a.obj in w1.objs ensures Peek(w1.objs, ActionTarget(a)).Success? {
      assert Val(w1.objs, ActionLoc(a)) == Val(w.objs, ActionLoc(a)) || Val(w1.objs, ActionLoc(a)) == Some(base[ActionLoc(a)]);
    }
  }

  lemma {:induction false} RestoreAnswered(w: World, actions: seq<Action>, base: map<Loc, int32>)
    requires Consistent(actions, base) && Answers(w, 5 * |actions|) && Readable(w.objs, actions)
    decreases |actions|
    ensures RestoreFrom(w, actions).1.None?
  {
    if actions != [] {
      var o := actions[0].obj;
      var n := ActionRunLen(o, actions);
      var group, rest := actions[..n], actions[n..];
      assert actions == group + rest && |actions| == |group| + |rest|;
      assert forall a :: a in group ==> a in actions;
      assert forall a :: a in rest ==> a in actions;
      ConsistentParts(group, rest, base);
      RestoreGroupAnswered(w, group, o, 5 * |rest|);
      RestoreGroupResult(w, group, o, base);
      var w1 := RestoreGroup(w, group).0;
      StillReadable(w, w1, group, rest, base);
      RestoreAnswered(w1, rest, base);
    }
  }

  /** With its calls answered, a restore reports no error exactly when every field it has to
      read, on an object that exists, holds an int32 or has a default the record knows. */
  lemma RestoreSucceedsIff(w: World, actions: seq<Action>, base: map<Loc, int32>)
    requires Consistent(actions, base) && Answers(w, 5 * |actions|)
    ensures RestoreFrom(w, actions).1.None? <==> Readable(w.objs, actions)
  {
    RestoreResult(w, actions, base);
    if Readable(w.objs, actions) { RestoreAnswered(w, actions, base); }
  }

  /** The same for the stored record of a window. */
  lemma RecordRestoresIff(w: World, g: Ground, k: WKey)
    requires Inv(w.objs, w.wins, g) && k in w.wins && Answers(w, 5 * |w.wins[k].spec.actions|)
    ensures RestoreSpec(w, w.wins[k].spec.actions, k.ns).1.None? <==> Readable(w.objs, w.wins[k].spec.actions)
  {
    ConsistentWindow(g, k, w.wins[k]);
    RestoreSucceedsIff(w, w.wins[k].spec.actions, Base(g));
  }

  /** A field can be read when it holds an int32, or is unset and of a kind whose default the
      operator knows; the default of the binding is not on record. */
  lemma ReadableIff(objs: map<Obj, ObjState>, a: Action)
    requires a.obj in objs
    ensures Peek(objs, ActionTarget(a)).Success? <==>
              match Val(objs, ActionLoc(a))
              case Some(v) => InInt32(v)
              case None => KnownDefaultOne(a.obj.apiVersion, a.obj.kind)
  {
  }
}
