/** The annotations the operator leaves on scaled objects: what a cooldown stamp writes and
    what a restore removes. */
module Stamps {
  import opened Types
  import opened Store
  import opened Plan
  import opened PlanEffects
  import opened WindowController

  /** The annotation reads as wanted: deleted when the wanted text is blank. */
  predicate Stamped(objs: map<Obj, ObjState>, o: Obj, key: string, text: string) {
    o in objs && if text == "" then key !in objs[o].anns else key in objs[o].anns && objs[o].anns[key] == text
  }

  /** Annotations only disappear. */
  ghost predicate Fewer(objs: map<Obj, ObjState>, objs1: map<Obj, ObjState>) {
    objs1.Keys == objs.Keys && forall o :: o in objs ==> objs1[o].anns.Keys <= objs[o].anns.Keys
  }

  lemma PatchAnnotationsResult(w: World, o: Obj, want: map<string, string>)
    requires PatchAnnotationsSpec(w, o, want).1.None?
    ensures var objs1 := PatchAnnotationsSpec(w, o, want).0.objs;
            && objs1.Keys == w.objs.Keys
            && (forall k :: k in want ==> Stamped(objs1, o, k, want[k]))
            && (forall p, k, t :: p in w.objs && k !in want && Stamped(w.objs, p, k, t) ==> Stamped(objs1, p, k, t))
            && (forall p :: p in w.objs && p != o ==> objs1[p] == w.objs[p])
  {
    if want != map[] && o in w.objs {
      AnnotationPatchSuffices(w.objs[o].anns, want);
      var patch := AnnotationPatch(w.objs[o].anns, want);
      assert patch == map[] ==> PatchAnns(w.objs[o].anns, patch) == w.objs[o].anns;
    }
  }

  /** A cooldown stamp that reports no error leaves the text on the object of every action. */
  lemma {:induction false} CooldownIsStamped(w: World, key: string, actions: seq<Action>, ns: string, text: string, done: set<Obj>)
    requires StampCooldownSpec(w, Some(key), actions, ns, text).1.None?
    requires forall o :: o in done ==> Stamped(w.objs, o, key, text)
    decreases |actions|
    ensures var objs1 := StampCooldownSpec(w, Some(key), actions, ns, text).0.objs;
            && (forall o :: o in done ==> Stamped(objs1, o, key, text))
            && (forall a :: a in actions ==> Stamped(objs1, WithNs(a, ns).obj, key, text))
  {
    if actions != [] {
      var o := WithNs(actions[0], ns).obj;
      PatchAnnotationsResult(w, o, map[key := text]);
      var w1 := PatchAnnotationsSpec(w, o, map[key := text]).0;
      assert key in map[key := text];
      forall p | p in done ensures Stamped(w1.objs, p, key, text) {
        if p != o { assert w1.objs[p] == w.objs[p]; }
      }
      CooldownIsStamped(w1, key, actions[1..], ns, text, done + {o});
      assert actions == [actions[0]] + actions[1..];
    }
  }

  /* ---- restoring removes stamps ---- */

  lemma PatchIntegersKeepsAnns(w: World, o: Obj, paths: seq<string>, values: map<string, int32>)
    ensures Fewer(w.objs, PatchIntegersSpec(w, o, paths, values).0.objs)
  {
    PatchIntegersCases(w, o, paths, values);
  }

  lemma DeletesFewer(w: World, o: Obj, keys: seq<string>)
    ensures var (w1, err) := PatchAnnotationsSpec(w, o, StampDeletes(keys));
            && Fewer(w.objs, w1.objs)
            && (err.None? && o in w.objs ==> forall k :: k in keys ==> k !in w1.objs[o].anns)
  {
    if PatchAnnotationsSpec(w, o, StampDeletes(keys)).1.None? {
      PatchAnnotationsResult(w, o, StampDeletes(keys));
      forall k | k in keys && o in w.objs ensures k !in PatchAnnotationsSpec(w, o, StampDeletes(keys)).0.objs[o].anns {
        assert k in StampDeletes(keys);
        assert Stamped(PatchAnnotationsSpec(w, o, StampDeletes(keys)).0.objs, o, k, "");
      }
    }
  }

  lemma {:induction false} AllKeysMembers(group: seq<Action>, a: Action, k: string)
    requires a in group && k in a.stampKeys
    ensures k in AllStampKeys(group)
  {
    var before, last := group[..|group| - 1], group[|group| - 1];
    assert group == before + [last];
    if a in before { AllKeysMembers(before, a, k); }
  }

  lemma {:induction false} UniqueMembers(s: seq<string>, k: string)
    requires k in s && k != ""
    ensures k in UniqueStrings(s)
  {
    var before, last := s[..|s| - 1], s[|s| - 1];
    assert s == before + [last];
    if k in before { UniqueMembers(before, k); }
  }

  ghost predicate Unstamped(objs: map<Obj, ObjState>, a: Action) {
    a.obj in objs ==> forall k :: k in a.stampKeys && k != "" ==> k !in objs[a.obj].anns
  }

  lemma LowerOneAnns(w: World, a: Action)
    ensures var (w1, err) := LowerOne(w, a);
            Fewer(w.objs, w1.objs) && (err == Some(NotFound) ==> a.obj !in w.objs)
  {
    var w1 := if a.skip then w else CurrentSpec(w, ActionTarget(a)).0;
    var values := map[a.fieldPath := a.baseline];
    PatchIntegersKeepsAnns(w1, a.obj, [a.fieldPath], values);
    PatchIntegersCases(w1, a.obj, [a.fieldPath], values);
  }

  lemma RestoreOneUnstamps(w: World, a: Action)
    ensures var (w1, err) := RestoreOne(w, a);
            Fewer(w.objs, w1.objs) && (err.None? ==> Unstamped(w1.objs, a)) && (err == Some(NotFound) ==> a.obj !in w.objs)
  {
    LowerOneAnns(w, a);
    var (w1, err) := LowerOne(w, a);
    DeletesFewer(w1, a.obj, a.stampKeys);
    PatchAnnotationsKeepsInts(w1, a.obj, StampDeletes(a.stampKeys));
  }

  lemma RestoreGroupedUnstamps(w: World, group: seq<Action>)
    requires group != [] && OneObjectActions(group, group[0].obj)
    ensures var (w1, err) := RestoreGrouped(w, group);
            && Fewer(w.objs, w1.objs) && (err.None? ==> forall a :: a in group ==> Unstamped(w1.objs, a))
            && (err == Some(NotFound) ==> group[0].obj !in w.objs)
  {
    var o := group[0].obj;
    var rd := ReadActions(w, group, [], map[]);
    ReadActionsResult(w, group, [], map[]);
    if rd.err.None? {
      var keys := UniqueStrings(AllStampKeys(group));
      var w1 := if rd.values != map[] then PatchIntegersSpec(rd.w, o, rd.paths, rd.values).0 else rd.w;
      PatchIntegersKeepsAnns(rd.w, o, rd.paths, rd.values);
      PatchIntegersCases(rd.w, o, rd.paths, rd.values);
      DeletesFewer(w1, o, keys);
      PatchAnnotationsKeepsInts(w1, o, StampDeletes(keys));
      var (w2, err) := RestoreGrouped(w, group);
      forall a, k | err.None? && a in group && a.obj in w2.objs && k in a.stampKeys && k != "" ensures k !in w2.objs[a.obj].anns {
        AllKeysMembers(group, a, k);
        UniqueMembers(AllStampKeys(group), k);
      }
    }
  }

  lemma RestoreGroupUnstamps(w: World, group: seq<Action>)
    requires group != [] && OneObjectActions(group, group[0].obj)
    ensures var (w1, err) := RestoreGroup(w, group);
            && Fewer(w.objs, w1.objs) && (err.None? ==> forall a :: a in group ==> Unstamped(w1.objs, a))
            && (err == Some(NotFound) ==> group[0].obj !in w.objs)
  {
    assert group[0] in group;
    if |group| == 1 {
      RestoreOneUnstamps(w, group[0]);
    } else {
      RestoreGroupedUnstamps(w, group);
    }
  }

  /** A restore adds no annotation, and one that reports no error has deleted every recorded
      stamp key from every object that exists. */
  lemma {:induction false} RestoreUnstamps(w: World, actions: seq<Action>)
    decreases |actions|
    ensures var (w1, err) := RestoreFrom(w, actions);
            Fewer(w.objs, w1.objs) && (err.None? ==> forall a :: a in actions ==> Unstamped(w1.objs, a))
  {
    if actions != [] {
      var n := ActionRunLen(actions[0].obj, actions);
      var group, rest := actions[..n], actions[n..];
      RestoreGroupUnstamps(w, group);
      var (w1, err) := RestoreGroup(w, group);
      if err.None? || err.value == NotFound {
        RestoreUnstamps(w1, rest);
        var objs2 := RestoreFrom(w, actions).0.objs;
        forall a | a in group && RestoreFrom(w, actions).1.None? ensures Unstamped(objs2, a) {
          assert a.obj == group[0].obj;
          assert err.None? ==> Unstamped(w1.objs, a);
        }
      }
      assert actions == group + rest;
    }
  }
}
