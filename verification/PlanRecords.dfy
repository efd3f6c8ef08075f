/** Planning, applying and restoring never touch the window records. */
module PlanRecords {
  import opened Types
  import opened Store
  import opened Plan
  import opened PlanEffects

  /* ---- restoring leaves the records alone ---- */

  lemma {:induction false} ReadActionsWins(w: World, group: seq<Action>, paths: seq<string>, values: map<string, int32>)
    decreases |group|
    ensures ReadActions(w, group, paths, values).w.wins == w.wins
  {
    if group != [] {
      var a := group[0];
      if a.skip {
        ReadActionsWins(w, group[1..], paths, values);
      } else {
        var (w1, cur) := CurrentSpec(w, ActionTarget(a));
        if cur.Success? {
          ReadActionsWins(w1, group[1..], paths + [a.fieldPath],
                          if cur.value > a.baseline then values[a.fieldPath := a.baseline] else values);
        }
      }
    }
  }

  lemma RestoreOneWins(w: World, a: Action)
    ensures RestoreOne(w, a).0.wins == w.wins
  {
    var w1 := if a.skip then w else CurrentSpec(w, ActionTarget(a)).0;
    var values := map[a.fieldPath := a.baseline];
    PatchIntegersCases(w1, a.obj, [a.fieldPath], values);
    PatchAnnotationsKeepsInts(w1, a.obj, StampDeletes(a.stampKeys));
    PatchAnnotationsKeepsInts(PatchIntegersSpec(w1, a.obj, [a.fieldPath], values).0, a.obj, StampDeletes(a.stampKeys));
  }

  lemma RestoreGroupedWins(w: World, group: seq<Action>)
    requires group != []
    ensures RestoreGrouped(w, group).0.wins == w.wins
  {
    ReadActionsWins(w, group, [], map[]);
    var rd := ReadActions(w, group, [], map[]);
    if rd.err.None? {
      var del := StampDeletes(UniqueStrings(AllStampKeys(group)));
      PatchIntegersCases(rd.w, group[0].obj, rd.paths, rd.values);
      var w1 := if rd.values != map[] then PatchIntegersSpec(rd.w, group[0].obj, rd.paths, rd.values).0 else rd.w;
      PatchAnnotationsKeepsInts(w1, group[0].obj, del);
    }
  }

  lemma RestoreGroupWins(w: World, group: seq<Action>)
    ensures RestoreGroup(w, group).0.wins == w.wins
  {
    if |group| == 1 {
      RestoreOneWins(w, group[0]);
    } else if group != [] {
      RestoreGroupedWins(w, group);
    }
  }

  lemma {:induction false} RestoreWins(w: World, actions: seq<Action>)
    decreases |actions|
    ensures RestoreFrom(w, actions).0.wins == w.wins
  {
    if actions != [] {
      var n := ActionRunLen(actions[0].obj, actions);
      var (w1, err) := RestoreGroup(w, actions[..n]);
      RestoreGroupWins(w, actions[..n]);
      if err.None? || err.value == NotFound { RestoreWins(w1, actions[n..]); }
    }
  }

  /* ---- raising leaves the records alone ---- */

  lemma {:induction false} ReadStepsWins(w: World, group: seq<Step>, values: map<string, int32>, stamp: map<string, string>)
    decreases |group|
    ensures ReadSteps(w, group, values, stamp).w.wins == w.wins
  {
    if group != [] {
      var s := group[0];
      var (w1, cur) := CurrentSpec(w, s.target);
      if cur.Success? {
        ReadStepsWins(w1, group[1..], if cur.value < s.desired then values[s.target.fieldPath := s.desired] else values,
                      stamp + s.stamp);
      }
    }
  }

  lemma ApplyGroupWins(w: World, group: seq<Step>)
    requires group != []
    ensures ApplyGroup(w, group).w.wins == w.wins
  {
    ReadStepsWins(w, group, map[], map[]);
    var rd := ReadSteps(w, group, map[], map[]);
    if rd.err.None? {
      PatchIntegersCases(rd.w, group[0].target.obj, StepPaths(group), rd.values);
      var w1 := if rd.values != map[] then PatchIntegersSpec(rd.w, group[0].target.obj, StepPaths(group), rd.values).0 else rd.w;
      PatchAnnotationsKeepsInts(w1, group[0].target.obj, rd.stamp);
    }
  }

  lemma {:induction false} ForwardWins(w: World, steps: seq<Step>)
    decreases |steps|
    ensures ForwardSpec(w, steps).w.wins == w.wins
  {
    if steps != [] {
      var n := RunLen(steps[0].target.obj, steps);
      ApplyGroupWins(w, steps[..n]);
      var g := ApplyGroup(w, steps[..n]);
      if g.err.None? { ForwardWins(g.w, steps[n..]); }
    }
  }

  lemma {:induction false} CompensateWins(w: World, groups: seq<seq<Step>>)
    decreases |groups|
    ensures CompensateSpec(w, groups).0.wins == w.wins
  {
    if groups != [] {
      var last := ToActions(groups[|groups| - 1]);
      RestoreGroupWins(w, last);
      CompensateWins(RestoreGroup(w, last).0, groups[..|groups| - 1]);
    }
  }

  lemma ApplyWins(w: World, steps: seq<Step>)
    ensures ApplySpec(w, steps).w.wins == w.wins
  {
    ForwardWins(w, steps);
    var f := ForwardSpec(w, steps);
    CompensateWins(f.w, f.applied);
  }

  lemma {:induction false} BuildWins(w: World, input: PlanIn, existing: seq<Action>, todo: seq<ResolvedStep>, plan: ScalePlan)
    decreases |todo|
    ensures BuildFrom(w, input, existing, todo, plan).0.wins == w.wins
  {
    if todo != [] {
      var (w1, base) := BaselineSpec(w, todo[0], existing);
      if base.Success? {
        var p := if plan.steps == [] then ScalePlan([], base.value, Desired(input, base.value)) else plan;
        BuildWins(w1, input, existing, todo[1..], p.(steps := p.steps + [MakeStep(input, todo[0], base.value, p.desired)]));
      }
    }
  }
}
