/** internal/controller/plan.go and scale_actions.go: the fan-out of one disruption. */
module Plan {
  import opened Strings
  import opened Types
  import opened Store
  import Capacity

  datatype Step = Step(key: string, target: Target, baseline: int32, desired: int32,
                       stamp: map<string, string>, stampKeys: seq<string>, skip: bool)

  datatype ScalePlan = ScalePlan(steps: seq<Step>, primaryBaseline: int32, desired: int32)

  /** One catalog binding resolved to one integer path. */
  datatype ResolvedStep = ResolvedStep(key: string, target: Target, annotations: seq<string>, skip: bool)

  function StepKey(s: ResolvedStep): string { ActionKey(s.key, s.target.obj, s.target.fieldPath) }

  ghost predicate DistinctKeys(steps: seq<ResolvedStep>) {
    forall i, j :: 0 <= i < j < |steps| ==> StepKey(steps[i]) != StepKey(steps[j])
  }

  datatype Stamp = Stamp(enabled: bool, scaledTo: string, baseline: string, active: string, windowUntil: string)

  /** What a policy pass knows about a workload when it plans; `resolved` is None when the
      scale-backend annotation or the catalog does not resolve. */
  datatype PlanIn = PlanIn(resolved: Option<seq<ResolvedStep>>, replicas: int32, atRisk: int32,
                           spare: int32, maxBuffer: int32, stamp: Stamp)

  /* ---- stamps ---- */

  function StampValues(st: Stamp, baseline: int32, desired: int32): map<string, string> {
    if !st.enabled then map[]
    else map[st.scaledTo := Itoa(desired), st.baseline := Itoa(baseline), st.active := "true", st.windowUntil := ""]
  }

  function StampKeys(st: Stamp): seq<string> {
    if st.enabled then [st.scaledTo, st.baseline, st.active, st.windowUntil] else []
  }

  /** uniqueStrings: first occurrences, in order, without the empty string. */
  function UniqueStrings(s: seq<string>): seq<string> {
    if s == [] then []
    else
      var before := UniqueStrings(s[..|s| - 1]);
      var last := s[|s| - 1];
      if last == "" || last in before then before else before + [last]
  }

  /* ---- the action record ---- */

  function ToAction(s: Step): Action {
    Action(s.key, s.target.obj, s.target.fieldPath, s.baseline, s.desired, s.skip, s.stampKeys)
  }

  function ToActions(steps: seq<Step>): (r: seq<Action>)
    ensures |r| == |steps| && forall i :: 0 <= i < |r| ==> r[i] == ToAction(steps[i])
  {
    seq(|steps|, i requires 0 <= i < |steps| => ToAction(steps[i]))
  }

  function FindAction(actions: seq<Action>, key: string, t: Target): (r: Option<Action>)
    ensures r.Some? ==> r.value in actions && KeyOf(r.value) == ActionKey(key, t.obj, t.fieldPath)
    ensures r.None? ==> forall a :: a in actions ==> KeyOf(a) != ActionKey(key, t.obj, t.fieldPath)
  {
    if actions == [] then None
    else if KeyOf(actions[0]) == ActionKey(key, t.obj, t.fieldPath) then Some(actions[0])
    else FindAction(actions[1..], key, t)
  }

  function Keys(actions: seq<Action>): set<string> { set a | a in actions :: KeyOf(a) }

  function Without(actions: seq<Action>, keys: set<string>): seq<Action> {
    if actions == [] then []
    else
      var before := Without(actions[..|actions| - 1], keys);
      var a := actions[|actions| - 1];
      if KeyOf(a) in keys then before else before + [a]
  }

  /** mergeActions: the new records, then the old ones whose key is not among them. */
  function Merged(existing: seq<Action>, next: seq<Action>): seq<Action> {
    next + Without(existing, Keys(next))
  }

  method MergeActions(existing: seq<Action>, next: seq<Action>) returns (out: seq<Action>)
    ensures out == Merged(existing, next)
  {
    var seen: set<string> := {};
    out := [];
    for i := 0 to |next|
      invariant out == next[..i] && seen == Keys(next[..i])
    {
      assert next[..i + 1] == next[..i] + [next[i]];
      out := out + [next[i]];
      seen := seen + {KeyOf(next[i])};
    }
    assert next[..|next|] == next;
    for i := 0 to |existing|
      invariant out == next + Without(existing[..i], seen)
    {
      assert existing[..i + 1][..i] == existing[..i];
      if KeyOf(existing[i]) !in seen { out := out + [existing[i]]; }
    }
    assert existing[..|existing|] == existing;
  }

  /** plan.actions: an external-only plan keeps no record of an older catalog. */
  function PlanActions(p: ScalePlan, existing: seq<Action>): seq<Action> {
    if p.steps == [] then [] else Merged(existing, ToActions(p.steps))
  }

  /* ---- buildPlan ---- */

  function MakeStep(input: PlanIn, s: ResolvedStep, baseline: int32, desired: int32): Step {
    Step(s.key, s.target, baseline, desired,
         StampValues(input.stamp, baseline, desired) + (map a | a in s.annotations :: "true"),
         UniqueStrings(StampKeys(input.stamp) + s.annotations), s.skip)
  }

  function Desired(input: PlanIn, baseline: int32): int32 {
    Capacity.TargetReplicas(baseline, input.atRisk, input.spare, input.maxBuffer)
  }

  function BaselineSpec(w: World, s: ResolvedStep, existing: seq<Action>): (World, Result<int32>) {
    var known := FindAction(existing, s.key, s.target);
    if known.Some? then (w, Success(known.value.baseline)) else CurrentSpec(w, s.target)
  }

  function BuildFrom(w: World, input: PlanIn, existing: seq<Action>, todo: seq<ResolvedStep>, plan: ScalePlan)
    : (World, Result<ScalePlan>)
    decreases |todo|
  {
    if todo == [] then (w, Success(plan))
    else
      var (w1, base) := BaselineSpec(w, todo[0], existing);
      if base.Failure? then (w1, Failure(base.error))
      else
        var p := if plan.steps == [] then ScalePlan([], base.value, Desired(input, base.value)) else plan;
        BuildFrom(w1, input, existing, todo[1..],
                  p.(steps := p.steps + [MakeStep(input, todo[0], base.value, p.desired)]))
  }

  function BuildPlanSpec(w: World, input: PlanIn, existing: seq<Action>, sticky: int32): (World, Result<ScalePlan>) {
    if input.resolved.None? then (w, Failure(Other))
    else if input.resolved.value == [] then
      var baseline := if sticky > 0 then sticky else input.replicas;
      (w, Success(ScalePlan([], baseline, Desired(input, baseline))))
    else BuildFrom(w, input, existing, input.resolved.value, ScalePlan([], 0, 0))
  }

  method BuildPlan(c: Cluster, input: PlanIn, existing: seq<Action>, sticky: int32) returns (r: Result<ScalePlan>)
    modifies c
    ensures (c.W(), r) == BuildPlanSpec(old(c.W()), input, existing, sticky)
  {
    if input.resolved.None? { return Failure(Other); }
    var resolved := input.resolved.value;
    if resolved == [] {
      var baseline := if sticky > 0 then sticky else input.replicas;
      return Success(ScalePlan([], baseline, Desired(input, baseline)));
    }
    var plan := ScalePlan([], 0, 0);
    for i := 0 to |resolved|
      invariant i == 0 <==> plan.steps == []
      invariant BuildFrom(c.W(), input, existing, resolved[i..], plan) == BuildPlanSpec(old(c.W()), input, existing, sticky)
    {
      var step := resolved[i];
      assert resolved[i..][1..] == resolved[i + 1..];
      var baseline: int32;
      var known := FindAction(existing, step.key, step.target);
      if known.Some? {
        baseline := known.value.baseline;
      } else {
        var current := c.Current(step.target);
        if current.Failure? { return Failure(current.error); }
        baseline := current.value;
      }
      if i == 0 {
        plan := plan.(primaryBaseline := baseline, desired := Desired(input, baseline));
      }
      plan := plan.(steps := plan.steps + [MakeStep(input, step, baseline, plan.desired)]);
    }
    r := Success(plan);
  }

  /* ---- apply ---- */

  /** How many leading steps stay on object `o`. */
  function RunLen(o: Obj, steps: seq<Step>): (n: nat)
    ensures n <= |steps|
    ensures forall k :: 0 <= k < n ==> steps[k].target.obj == o
    ensures n < |steps| ==> steps[n].target.obj != o
  {
    if steps == [] || steps[0].target.obj != o then 0 else 1 + RunLen(o, steps[1..])
  }

  lemma RunLenUnique(o: Obj, steps: seq<Step>, n: nat)
    requires n <= |steps|
    requires forall k :: 0 <= k < n ==> steps[k].target.obj == o
    requires n < |steps| ==> steps[n].target.obj != o
    ensures n == RunLen(o, steps)
  {
    if n > 0 { RunLenUnique(o, steps[1..], n - 1); }
  }

  function StepPaths(steps: seq<Step>): (r: seq<string>)
    ensures |r| == |steps| && forall i :: 0 <= i < |r| ==> r[i] == steps[i].target.fieldPath
  {
    seq(|steps|, i requires 0 <= i < |steps| => steps[i].target.fieldPath)
  }

  datatype GroupReads = GroupReads(w: World, err: Option<Error>, values: map<string, int32>, stamp: map<string, string>)

  function ReadSteps(w: World, group: seq<Step>, values: map<string, int32>, stamp: map<string, string>): GroupReads
    decreases |group|
  {
    if group == [] then GroupReads(w, None, values, stamp)
    else
      var s := group[0];
      var (w1, cur) := CurrentSpec(w, s.target);
      if cur.Failure? then GroupReads(w1, Some(cur.error), values, stamp)
      else
        ReadSteps(w1, group[1..],
                  if cur.value < s.desired then values[s.target.fieldPath := s.desired] else values,
                  stamp + s.stamp)
  }

  /** `mutated`: the group is one that a later failure compensates. */
  datatype GroupOut = GroupOut(w: World, err: Option<Error>, mutated: bool, raised: bool)

  function ApplyGroup(w: World, group: seq<Step>): GroupOut
    requires group != []
  {
    var rd := ReadSteps(w, group, map[], map[]);
    if rd.err.Some? then GroupOut(rd.w, rd.err, false, false)
    else
      var raised := rd.values != map[];
      var (w1, perr) := if raised then PatchIntegersSpec(rd.w, group[0].target.obj, StepPaths(group), rd.values)
                        else (rd.w, None);
      if perr.Some? then GroupOut(w1, perr, false, false)
      else if rd.stamp == map[] then GroupOut(w1, None, raised, raised)
      else
        var (w2, aerr) := PatchAnnotationsSpec(w1, group[0].target.obj, rd.stamp);
        GroupOut(w2, aerr, aerr.None? || raised, raised)
  }

  datatype Forward = Forward(w: World, applied: seq<seq<Step>>, scaled: bool, err: Option<Error>)

  /** What was applied before a walk, put in front of the walk. */
  function After(applied: seq<seq<Step>>, scaled: bool, f: Forward): Forward {
    Forward(f.w, applied + f.applied, scaled || f.scaled, f.err)
  }

  function ThisGroup(g: GroupOut, group: seq<Step>): seq<seq<Step>> { if g.mutated then [group] else [] }

  /** The walk over the groups up to the first failure. */
  function ForwardSpec(w: World, steps: seq<Step>): Forward
    decreases |steps|
  {
    if steps == [] then Forward(w, [], false, None)
    else
      var n := RunLen(steps[0].target.obj, steps);
      var g := ApplyGroup(w, steps[..n]);
      After(ThisGroup(g, steps[..n]), g.raised,
            if g.err.Some? then Forward(g.w, [], false, g.err) else ForwardSpec(g.w, steps[n..]))
  }

  /** restoreStepGroup for each group, last first; the first error is only reported. */
  function CompensateSpec(w: World, groups: seq<seq<Step>>): (World, Option<Error>)
    decreases |groups|
  {
    if groups == [] then (w, None)
    else
      var (w1, err) := RestoreGroup(w, ToActions(groups[|groups| - 1]));
      var (w2, rest) := CompensateSpec(w1, groups[..|groups| - 1]);
      (w2, if err.Some? then err else rest)
  }

  lemma CompensateUnfold(w: World, groups: seq<seq<Step>>, i: nat, w1: World, err: Option<Error>)
    requires 0 < i <= |groups|
    requires (w1, err) == RestoreGroup(w, ToActions(groups[i - 1]))
    ensures CompensateSpec(w, groups[..i])
              == (CompensateSpec(w1, groups[..i - 1]).0, if err.Some? then err else CompensateSpec(w1, groups[..i - 1]).1)
  {
    assert groups[..i][..i - 1] == groups[..i - 1];
  }

  datatype ApplyOut = ApplyOut(w: World, scaled: bool, err: Option<Error>)

  function ApplySpec(w: World, steps: seq<Step>): ApplyOut {
    var f := ForwardSpec(w, steps);
    ApplyOut(if f.err.Some? then CompensateSpec(f.w, f.applied).0 else f.w, f.scaled, f.err)
  }

  /** The first error wins. */
  function Then(first: Option<Error>, r: (World, Option<Error>)): (World, Option<Error>) {
    (r.0, if first.Some? then first else r.1)
  }

  method CompensateApply(c: Cluster, groups: seq<seq<Step>>) returns (first: Option<Error>)
    modifies c
    ensures (c.W(), first) == CompensateSpec(old(c.W()), groups)
  {
    first := None;
    assert groups[..|groups|] == groups;
    for i := |groups| downto 0
      invariant CompensateSpec(old(c.W()), groups) == Then(first, CompensateSpec(c.W(), groups[..i]))
    {
      ghost var before := c.W();
      var err := RestoreStepGroup(c, groups[i]);
      CompensateUnfold(before, groups, i + 1, c.W(), err);
      if err.Some? && first.None? { first := err; }
    }
  }

  method RestoreStepGroup(c: Cluster, group: seq<Step>) returns (err: Option<Error>)
    modifies c
    ensures (c.W(), err) == RestoreGroup(old(c.W()), ToActions(group))
  {
    err := RestoreRun(c, ToActions(group));
  }

  /** Where the run of steps on one object that starts at `i` ends. */
  method RunEnd(steps: seq<Step>, i: nat) returns (j: nat)
    requires i < |steps|
    ensures i < j <= |steps| && j - i == RunLen(steps[i].target.obj, steps[i..])
  {
    j := i + 1;
    while j < |steps| && steps[i].target.obj == steps[j].target.obj
      invariant i < j <= |steps|
      invariant forall k :: i <= k < j ==> steps[k].target.obj == steps[i].target.obj
    {
      j := j + 1;
    }
    RunLenUnique(steps[i].target.obj, steps[i..], j - i);
  }

  /** Read one group, raise what is below its target in one merge patch, then stamp. */
  method ApplyOneGroup(c: Cluster, group: seq<Step>) returns (err: Option<Error>, mutated: bool, raised: bool)
    requires group != []
    modifies c
    ensures GroupOut(c.W(), err, mutated, raised) == ApplyGroup(old(c.W()), group)
  {
    var paths: seq<string> := [];
    var values: map<string, int32> := map[];
    var stamp: map<string, string> := map[];
    err, mutated, raised := None, false, false;
    for r := 0 to |group|
      invariant paths == StepPaths(group)[..r]
      invariant ReadSteps(c.W(), group[r..], values, stamp) == ReadSteps(old(c.W()), group, map[], map[])
    {
      var s := group[r];
      assert group[r..][1..] == group[r + 1..];
      var current := c.Current(s.target);
      if current.Failure? { return Some(current.error), false, false; }
      paths := paths + [s.target.fieldPath];
      if current.value < s.desired { values := values[s.target.fieldPath := s.desired]; }
      stamp := stamp + s.stamp;
    }
    assert paths == StepPaths(group);
    if values != map[] {
      err := c.PatchIntegers(group[0].target.obj, paths, values);
      if err.Some? { return; }
      mutated, raised := true, true;
    }
    if stamp != map[] {
      err := c.PatchAnnotations(group[0].target.obj, stamp);
      if err.Some? { return; }
      mutated := true;
    }
  }

  function Onward(g: GroupOut, rest: seq<Step>): Forward {
    if g.err.Some? then Forward(g.w, [], false, g.err) else ForwardSpec(g.w, rest)
  }

  lemma ForwardHead(w: World, steps: seq<Step>, i: nat, j: nat)
    requires i < j <= |steps| && j - i == RunLen(steps[i].target.obj, steps[i..])
    ensures var g := ApplyGroup(w, steps[i..j]);
            ForwardSpec(w, steps[i..]) == After(ThisGroup(g, steps[i..j]), g.raised, Onward(g, steps[j..]))
  {
    assert steps[i..][..j - i] == steps[i..j] && steps[i..][j - i..] == steps[j..];
  }

  lemma AfterAfter(applied: seq<seq<Step>>, scaled: bool, g: GroupOut, group: seq<Step>, f: Forward)
    ensures After(applied, scaled, After(ThisGroup(g, group), g.raised, f))
              == After(if g.mutated then applied + [group] else applied, scaled || g.raised, f)
  {
    assert applied + ([group] + f.applied) == applied + [group] + f.applied;
    assert [] + f.applied == f.applied;
  }

  /** One turn of the walk: the run of steps that starts at `i`. */
  method WalkRun(c: Cluster, steps: seq<Step>, i: nat, before: seq<seq<Step>>, raisedBefore: bool)
    returns (j: nat, applied: seq<seq<Step>>, scaled: bool, err: Option<Error>)
    requires i < |steps|
    modifies c
    ensures i < j <= |steps|
    ensures After(before, raisedBefore, ForwardSpec(old(c.W()), steps[i..]))
              == if err.Some? then Forward(c.W(), applied, scaled, err)
                 else After(applied, scaled, ForwardSpec(c.W(), steps[j..]))
  {
    j := RunEnd(steps, i);
    var mutated, raised;
    err, mutated, raised := ApplyOneGroup(c, steps[i..j]);
    ForwardHead(old(c.W()), steps, i, j);
    ghost var g := GroupOut(c.W(), err, mutated, raised);
    AfterAfter(before, raisedBefore, g, steps[i..j], Onward(g, steps[j..]));
    applied := if mutated then before + [steps[i..j]] else before;
    scaled := raisedBefore || raised;
    assert applied + [] == applied;
  }

  /** Walk the steps top to bottom, one merge patch per run of paths on one object. */
  method Walk(c: Cluster, steps: seq<Step>) returns (applied: seq<seq<Step>>, scaled: bool, err: Option<Error>)
    modifies c
    ensures Forward(c.W(), applied, scaled, err) == ForwardSpec(old(c.W()), steps)
  {
    applied, scaled, err := [], false, None;
    var i := 0;
    while i < |steps|
      invariant 0 <= i <= |steps|
      invariant ForwardSpec(old(c.W()), steps) == After(applied, scaled, ForwardSpec(c.W(), steps[i..]))
      decreases |steps| - i
    {
      i, applied, scaled, err := WalkRun(c, steps, i, applied, scaled);
      if err.Some? { return; }
    }
    err := None;
  }

  method Apply(c: Cluster, steps: seq<Step>) returns (scaled: bool, err: Option<Error>)
    modifies c
    ensures ApplyOut(c.W(), scaled, err) == ApplySpec(old(c.W()), steps)
  {
    var applied;
    applied, scaled, err := Walk(c, steps);
    if err.Some? {
      var _ := CompensateApply(c, applied);
    }
  }

  /* ---- restore ---- */

  function WithNs(a: Action, ns: string): Action {
    if a.obj.ns == "" then a.(obj := a.obj.(ns := ns)) else a
  }

  /** Lower one field to its baseline when it stands above. */
  function LowerOne(w: World, a: Action): (World, Option<Error>) {
    var (w1, cur) := if a.skip then (w, Success(a.baseline)) else CurrentSpec(w, ActionTarget(a));
    if cur.Failure? then (w1, Some(cur.error))
    else if cur.value > a.baseline then PatchIntegersSpec(w1, a.obj, [a.fieldPath], map[a.fieldPath := a.baseline])
    else (w1, None)
  }

  function RestoreOne(w: World, a: Action): (World, Option<Error>) {
    var (w1, err) := LowerOne(w, a);
    if err.Some? then (w1, err) else PatchAnnotationsSpec(w1, a.obj, StampDeletes(a.stampKeys))
  }

  datatype LowerReads = LowerReads(w: World, err: Option<Error>, paths: seq<string>, values: map<string, int32>)

  function ReadActions(w: World, group: seq<Action>, paths: seq<string>, values: map<string, int32>): LowerReads
    decreases |group|
  {
    if group == [] then LowerReads(w, None, paths, values)
    else
      var a := group[0];
      if a.skip then ReadActions(w, group[1..], paths, values)
      else
        var (w1, cur) := CurrentSpec(w, ActionTarget(a));
        if cur.Failure? then LowerReads(w1, Some(cur.error), paths, values)
        else
          ReadActions(w1, group[1..], paths + [a.fieldPath],
                      if cur.value > a.baseline then values[a.fieldPath := a.baseline] else values)
  }

  function AllStampKeys(group: seq<Action>): seq<string> {
    if group == [] then [] else AllStampKeys(group[..|group| - 1]) + group[|group| - 1].stampKeys
  }

  function RestoreGrouped(w: World, group: seq<Action>): (World, Option<Error>)
    requires group != []
  {
    var rd := ReadActions(w, group, [], map[]);
    if rd.err.Some? then (rd.w, rd.err)
    else
      var (w1, perr) := if rd.values != map[] then PatchIntegersSpec(rd.w, group[0].obj, rd.paths, rd.values)
                        else (rd.w, None);
      if perr.Some? then (w1, perr)
      else PatchAnnotationsSpec(w1, group[0].obj, StampDeletes(UniqueStrings(AllStampKeys(group))))
  }

  /** One group: a single action on its own, several as one merge patch. */
  function RestoreGroup(w: World, group: seq<Action>): (World, Option<Error>) {
    if group == [] then (w, None)
    else if |group| == 1 then RestoreOne(w, group[0])
    else RestoreGrouped(w, group)
  }

  function ActionRunLen(o: Obj, actions: seq<Action>): (n: nat)
    ensures n <= |actions|
    ensures forall k :: 0 <= k < n ==> actions[k].obj == o
    ensures n < |actions| ==> actions[n].obj != o
  {
    if actions == [] || actions[0].obj != o then 0 else 1 + ActionRunLen(o, actions[1..])
  }

  lemma ActionRunLenUnique(o: Obj, actions: seq<Action>, n: nat)
    requires n <= |actions|
    requires forall k :: 0 <= k < n ==> actions[k].obj == o
    requires n < |actions| ==> actions[n].obj != o
    ensures n == ActionRunLen(o, actions)
  {
    if n > 0 { ActionRunLenUnique(o, actions[1..], n - 1); }
  }

  /** The walk of restoreActions, over actions whose namespace is filled in. */
  function RestoreFrom(w: World, actions: seq<Action>): (World, Option<Error>)
    decreases |actions|
  {
    if actions == [] then (w, None)
    else
      var n := ActionRunLen(actions[0].obj, actions);
      var (w1, err) := RestoreGroup(w, actions[..n]);
      if err.Some? && err.value != NotFound then (w1, err) else RestoreFrom(w1, actions[n..])
  }

  lemma RestoreUnfold(w: World, actions: seq<Action>, i: nat, j: nat, w1: World, err: Option<Error>)
    requires i < j <= |actions| && j - i == ActionRunLen(actions[i].obj, actions[i..])
    requires (w1, err) == RestoreGroup(w, actions[i..j])
    ensures RestoreFrom(w, actions[i..])
              == if err.Some? && err.value != NotFound then (w1, err) else RestoreFrom(w1, actions[j..])
  {
    assert actions[i..][..j - i] == actions[i..j] && actions[i..][j - i..] == actions[j..];
  }

  function FillNs(actions: seq<Action>, ns: string): (r: seq<Action>)
    ensures |r| == |actions| && forall i :: 0 <= i < |r| ==> r[i] == WithNs(actions[i], ns)
  {
    seq(|actions|, i requires 0 <= i < |actions| => WithNs(actions[i], ns))
  }

  function RestoreSpec(w: World, actions: seq<Action>, ns: string): (World, Option<Error>) {
    RestoreFrom(w, FillNs(actions, ns))
  }

  method RestoreOneAction(c: Cluster, a: Action) returns (err: Option<Error>)
    modifies c
    ensures (c.W(), err) == RestoreOne(old(c.W()), a)
  {
    var t := ActionTarget(a);
    if !a.skip {
      var current := c.Current(t);
      if current.Failure? { return Some(current.error); }
      if current.value > a.baseline {
        err := c.PatchIntegers(t.obj, [t.fieldPath], map[t.fieldPath := a.baseline]);
        if err.Some? { return; }
      }
    }
    err := c.PatchAnnotations(t.obj, StampDeletes(a.stampKeys));
  }

  method RestoreGroupedActions(c: Cluster, group: seq<Action>) returns (err: Option<Error>)
    requires group != []
    modifies c
    ensures (c.W(), err) == RestoreGrouped(old(c.W()), group)
  {
    var paths: seq<string> := [];
    var values: map<string, int32> := map[];
    var stampKeys: seq<string> := [];
    for r := 0 to |group|
      invariant stampKeys == AllStampKeys(group[..r])
      invariant ReadActions(c.W(), group[r..], paths, values) == ReadActions(old(c.W()), group, [], map[])
    {
      var a := group[r];
      assert group[..r + 1][..r] == group[..r] && group[r..][1..] == group[r + 1..];
      stampKeys := stampKeys + a.stampKeys;
      if a.skip { continue; }
      var current := c.Current(ActionTarget(a));
      if current.Failure? { return Some(current.error); }
      paths := paths + [a.fieldPath];
      if current.value > a.baseline { values := values[a.fieldPath := a.baseline]; }
    }
    assert group[..|group|] == group;
    if values != map[] {
      err := c.PatchIntegers(group[0].obj, paths, values);
      if err.Some? { return; }
    }
    err := c.PatchAnnotations(group[0].obj, StampDeletes(UniqueStrings(stampKeys)));
  }

  /** One run of actions on one object. */
  method RestoreRun(c: Cluster, group: seq<Action>) returns (err: Option<Error>)
    modifies c
    ensures (c.W(), err) == RestoreGroup(old(c.W()), group)
  {
    if |group| == 0 { return None; }
    if |group| == 1 {
      err := RestoreOneAction(c, group[0]);
    } else {
      err := RestoreGroupedActions(c, group);
    }
  }

  /** Where the run of actions on one object that starts at `i` ends. */
  method ActionRunEnd(actions: seq<Action>, i: nat) returns (j: nat)
    requires i < |actions|
    ensures i < j <= |actions| && j - i == ActionRunLen(actions[i].obj, actions[i..])
  {
    j := i + 1;
    while j < |actions| && actions[i].obj == actions[j].obj
      invariant i < j <= |actions|
      invariant forall k :: i <= k < j ==> actions[k].obj == actions[i].obj
    {
      j := j + 1;
    }
    ActionRunLenUnique(actions[i].obj, actions[i..], j - i);
  }

  method RestoreActions(c: Cluster, recorded: seq<Action>, ns: string) returns (err: Option<Error>)
    modifies c
    ensures (c.W(), err) == RestoreSpec(old(c.W()), recorded, ns)
  {
    var actions := FillNs(recorded, ns);
    var i := 0;
    while i < |actions|
      invariant 0 <= i <= |actions|
      invariant RestoreFrom(c.W(), actions[i..]) == RestoreFrom(old(c.W()), actions)
      decreases |actions| - i
    {
      var j := ActionRunEnd(actions, i);
      ghost var before := c.W();
      err := RestoreRun(c, actions[i..j]);
      RestoreUnfold(before, actions, i, j, c.W(), err);
      if err.Some? && err.value != NotFound { return; }
      i := j;
    }
    err := None;
  }
}
