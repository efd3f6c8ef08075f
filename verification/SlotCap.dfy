/** The slots of a policy: how many windows hold one, and who gets them. */
module SlotCap {
  import opened Strings
  import opened Types
  import opened Store
  import opened Plan
  import opened Clock
  import opened PolicyController
  import opened PlanRecords

  /* ---- one turn ---- */

  predicate Holds(wins: map<WKey, Window>, k: WKey) { k in wins && TakesSlot(wins[k]) }

  /** Nothing but the record of `k` differs. */
  predicate Only(wins: map<WKey, Window>, wins1: map<WKey, Window>, k: WKey) { wins1 - {k} == wins - {k} }

  lemma OnlyOthers(wins: map<WKey, Window>, wins1: map<WKey, Window>, k: WKey, j: WKey)
    requires Only(wins, wins1, k) && j != k
    ensures (j in wins1 <==> j in wins) && (j in wins ==> wins1[j] == wins[j])
  {
    assert j in wins1 <==> j in wins1 - {k};
    assert j in wins <==> j in wins - {k};
  }

  lemma HoldersBound(wins: map<WKey, Window>, wins1: map<WKey, Window>, policy: string, k: WKey)
    requires Only(wins, wins1, k)
    ensures |SlotHolders(wins1, policy)| <= |SlotHolders(wins, policy)| + if Holds(wins1, k) && !Holds(wins, k) then 1 else 0
  {
    var a, b := SlotHolders(wins, policy), SlotHolders(wins1, policy);
    forall j | j in b && j != k ensures j in a { OnlyOthers(wins, wins1, k, j); }
    if Holds(wins1, k) && !Holds(wins, k) {
      Subset(b, a + {k});
      assert k !in a && |a + {k}| == |a| + 1;
    } else {
      assert b <= a;
      Subset(b, a);
    }
  }

  lemma Subset<T>(a: set<T>, b: set<T>)
    requires a <= b
    ensures |a| <= |b|
  {
    assert b == a + (b - a);
  }

  lemma SetStatusOnly(w: World, k: WKey, before: Status, after: Status)
    ensures var w1 := SetStatusSpec(w, k, before, after).0;
            Only(w.wins, w1.wins, k)
            && (k in w1.wins <==> k in w.wins)
            && (k in w.wins ==> w1.wins[k].meta == w.wins[k].meta)
            && (SetStatusSpec(w, k, before, after).1.None? && k in w.wins && w.wins[k].status == before ==> w1.wins[k].status == after)
  {
  }

  predicate KeptAt(wins: map<WKey, Window>, k: WKey) {
    k in wins ==> HeldByFinalizer(wins[k])
  }

  ghost predicate Kept(wins: map<WKey, Window>) { forall k :: KeptAt(wins, k) }

  lemma OpenWindowOnly(w: World, k: WKey, found: Result<Window>, wl: Workload, p: ScalePlan, now: int)
    requires found.Success? ==> k in w.wins && w.wins[k] == found.value
    requires KeptAt(w.wins, k)
    ensures var (w1, err) := OpenWindowSpec(w, k, found, wl, p, now);
            Only(w.wins, w1.wins, k) && KeptAt(w1.wins, k) && (err.None? ==> Holds(w1.wins, k))
  {
    var existing := if found.Success? then found.value.spec.actions else [];
    var status := if found.Success? then found.value.status else FRESH_STATUS;
    var (w1, rerr) := RecordSpec(w, k, found, OpenSpec(p, wl, existing), now);
    if rerr.None? {
      assert k in w1.wins && w1.wins[k].status == status && !w1.wins[k].meta.deferred;
      ApplyWins(w1, p.steps);
      var a := ApplySpec(w1, p.steps);
      SetStatusOnly(a.w, k, status, OpenedStatus(status, now, OpenMsg(p, a.err), a.err));
    }
  }

  lemma EnsureWindowOnly(w: World, k: WKey, wl: Workload, maxWindow: int, now: int)
    requires KeptAt(w.wins, k)
    ensures var (w1, err) := EnsureWindowSpec(w, k, wl, maxWindow, now);
            && Only(w.wins, w1.wins, k) && KeptAt(w1.wins, k)
            && (err.None? && !(k in w.wins && HoldMaxWindow(maxWindow, w.wins[k], now)) ==> Holds(w1.wins, k))
            && (k in w.wins && HoldMaxWindow(maxWindow, w.wins[k], now) ==> w1.wins == w.wins)
  {
    var (w1, found) := GetWinSpec(w, k);
    if (found.Success? && !HoldMaxWindow(maxWindow, found.value, now)) || found == Failure(NotFound) {
      var existing := if found.Success? then found.value.spec.actions else [];
      var sticky := if found.Success? then found.value.spec.baseline else 0;
      if wl.plan.resolved.Some? { BuildWins(w1, wl.plan, existing, wl.plan.resolved.value, ScalePlan([], 0, 0)); }
      var (w2, plan) := BuildPlanSpec(w1, wl.plan, existing, sticky);
      if plan.Success? { OpenWindowOnly(w2, k, found, wl, plan.value, now); }
    }
  }

  lemma EnsureDeferredOnly(w: World, k: WKey, wl: Workload, maxWindow: int, now: int)
    requires KeptAt(w.wins, k) && (k in w.wins ==> !IsActive(w.wins[k]) || w.wins[k].meta.deferred)
    ensures var w1 := EnsureDeferredSpec(w, k, wl, maxWindow, now).0;
            Only(w.wins, w1.wins, k) && KeptAt(w1.wins, k) && !Holds(w1.wins, k)
  {
    var (w1, found) := GetWinSpec(w, k);
    if (found.Success? && !HoldMaxWindow(maxWindow, found.value, now)) || found == Failure(NotFound) {
      var status := if found.Success? then found.value.status else FRESH_STATUS;
      var (w2, err) := PlaceholderSpec(w1, k, found, DeferredSpec(found, wl), now);
      assert k in w2.wins ==> w2.wins[k].meta.deferred;
      SetStatusOnly(w2, k, status, OpenedStatus(status, now, WaitingForSlot, None));
    }
  }

  /** The workload waits for a slot: its window is absent, closed or deferred. */
  predicate Waits(wins: map<WKey, Window>, k: WKey) { !Holds(wins, k) }

  /** The opening failed after Create or promotion: an error, and yet a slot newly held. */
  predicate Late(w: World, t: LoopOut, k: WKey) { t.errors > 0 && Waits(w.wins, k) && Holds(t.w.wins, k) }

  /** The turn gave its waiting workload a slot: it was not turned away and did not fail. */
  predicate Granted(wins: map<WKey, Window>, t: LoopOut, k: WKey) {
    Waits(wins, k) && t.deferred == 0 && t.errors == 0
  }

  /** What one turn makes of its own window. */
  lemma TurnServes(w: World, input: PolicyIn, wl: Workload, active: int)
    requires KeptAt(w.wins, WindowKey(input.policy, wl))
    ensures var t := TurnSpec(w, input, wl, active);
            var k := WindowKey(input.policy, wl);
            var deferring := MustDefer(Waits(w.wins, k), input.cap, active);
            && Only(w.wins, t.w.wins, k) && KeptAt(t.w.wins, k)
            && (Holds(t.w.wins, k) && Waits(w.wins, k) ==> t.active == active + 1 || Late(w, t, k))
            && active <= t.active <= active + 1 && (t.active > active ==> !(input.cap > 0 && active >= input.cap))
            && (t.stop.None? ==>
                  && t.deferred == One(deferring)
                  && t.active == active + One(Granted(w.wins, t, k))
                  && (deferring ==> !Holds(t.w.wins, k))
                  && (Granted(w.wins, t, k) ==>
                        Holds(t.w.wins, k) || (k in w.wins && HoldMaxWindow(input.maxWindow, w.wins[k], input.now))))
  {
    var k := WindowKey(input.policy, wl);
    TurnCases(w, input, wl, active);
    if MustDefer(Waits(w.wins, k), input.cap, active) {
      EnsureDeferredOnly(Rest(w), k, wl, input.maxWindow, input.now);
    } else {
      EnsureWindowOnly(Rest(w), k, wl, input.maxWindow, input.now);
    }
  }

  /** One turn: the slots it takes are the ones it counts, and a late failure. */
  lemma TurnSlots(w: World, input: PolicyIn, wl: Workload, active: int)
    requires Kept(w.wins)
    ensures var t := TurnSpec(w, input, wl, active);
            var k := WindowKey(input.policy, wl);
            && Only(w.wins, t.w.wins, k) && Kept(t.w.wins)
            && |SlotHolders(t.w.wins, input.policy)| <= |SlotHolders(w.wins, input.policy)| + (t.active - active) + One(Late(w, t, k))
            && active <= t.active <= active + 1 && (t.active > active ==> !(input.cap > 0 && active >= input.cap))
            && (t.stop.None? ==>
                  var deferring := MustDefer(Waits(w.wins, k), input.cap, active);
                  && t.deferred == One(deferring)
                  && t.active == active + One(Granted(w.wins, t, k))
                  && (deferring ==> !Holds(t.w.wins, k))
                  && (Granted(w.wins, t, k) ==>
                        Holds(t.w.wins, k) || (k in w.wins && HoldMaxWindow(input.maxWindow, w.wins[k], input.now))))
  {
    var k, t := WindowKey(input.policy, wl), TurnSpec(w, input, wl, active);
    assert KeptAt(w.wins, k);
    TurnServes(w, input, wl, active);
    HoldersBound(w.wins, t.w.wins, input.policy, k);
    KeptOthers(w.wins, t.w.wins, k);
  }

  lemma KeptOthers(wins: map<WKey, Window>, wins1: map<WKey, Window>, k: WKey)
    requires Kept(wins) && Only(wins, wins1, k) && KeptAt(wins1, k)
    ensures Kept(wins1)
  {
    forall j ensures KeptAt(wins1, j) {
      if j != k { OnlyOthers(wins, wins1, k, j); assert KeptAt(wins, j); }
    }
  }

  /* ---- the loop ---- */

  /** The turns of the loop, as far as it gets. */
  function Turns(w: World, input: PolicyIn, keys: seq<string>, active: int): seq<LoopOut>
    requires forall key :: key in keys ==> key in input.work
    decreases |keys|
  {
    if keys == [] then []
    else
      var t := TurnSpec(w, input, input.work[keys[0]], active);
      [t] + if t.stop.Some? then [] else Turns(t.w, input, keys[1..], t.active)
  }

  /** How many openings of the loop failed after Create or promotion. */
  function LateFailures(w: World, input: PolicyIn, keys: seq<string>, active: int): nat
    requires forall key :: key in keys ==> key in input.work
    decreases |keys|
  {
    if keys == [] then 0
    else
      var t := TurnSpec(w, input, input.work[keys[0]], active);
      One(Late(w, t, KeyAt(input, keys[0]))) + if t.stop.Some? then 0 else LateFailures(t.w, input, keys[1..], t.active)
  }

  /** The cap holds: after the loop the slot holders number at most the cap, or what they
      were before, plus the openings that failed after Create or promotion. */
  lemma {:induction false} LoopSlots(w: World, input: PolicyIn, keys: seq<string>, active: int)
    requires Kept(w.wins) && input.cap > 0 && forall key :: key in keys ==> key in input.work
    decreases |keys|
    ensures var o := SlotLoopSpec(w, input, keys, active);
            && active <= o.active && (o.active <= input.cap || o.active == active)
            && |SlotHolders(o.w.wins, input.policy)| - |SlotHolders(w.wins, input.policy)|
                 <= o.active - active + LateFailures(w, input, keys, active)
  {
    if keys != [] {
      var wl := input.work[keys[0]];
      TurnSlots(w, input, wl, active);
      var t := TurnSpec(w, input, wl, active);
      if t.stop.None? { LoopSlots(t.w, input, keys[1..], t.active); }
    }
  }

  lemma {:induction false} SyncHolders(w: World, input: PolicyIn, listing: seq<WKey>)
    requires Kept(w.wins)
    decreases |listing|
    ensures SlotHolders(SyncSpec(w, input, listing).0.wins, input.policy) == SlotHolders(w.wins, input.policy)
  {
    if listing != [] {
      if listing[0].policy != input.policy || WorkKey(listing[0]) in input.work {
        SyncHolders(w, input, listing[1..]);
      } else {
        assert KeptAt(w.wins, listing[0]);
        var (w1, err) := SyncOneSpec(w, listing[0], input.vulnerable);
        assert Kept(w1.wins) by { forall j ensures KeptAt(w1.wins, j) { assert KeptAt(w.wins, j); } }
        assert SlotHolders(w1.wins, input.policy) == SlotHolders(w.wins, input.policy);
        if err.None? { SyncHolders(w1, input, listing[1..]); }
      }
    }
  }

  /** The openings of a pass that failed after Create or promotion. */
  ghost function PassLateFailures(w: World, input: PolicyIn): nat
    requires GoodOrder(input)
  {
    SortKeeps(input);
    LateFailures(w, input, Sort(input.order), |SlotHolders(w.wins, input.policy)|)
  }

  /** A whole policy pass respects the cap, up to the openings that failed half-way. */
  lemma PassRespectsCap(w: World, input: PolicyIn)
    requires Kept(w.wins) && input.cap > 0 && GoodOrder(input)
    ensures |SlotHolders(PolicyPassSpec(w, input).w.wins, input.policy)|
              <= Max(input.cap, |SlotHolders(w.wins, input.policy)|) + PassLateFailures(Rest(w), input)
  {
    SortKeeps(input);
    var w1 := Rest(w);
    var o := PassLoop(w1, input);
    LoopSlots(w1, input, Sort(input.order), |SlotHolders(w1.wins, input.policy)|);
    if o.stop.None? {
      LoopKept(w1, input, Sort(input.order), |SlotHolders(w1.wins, input.policy)|);
      SyncHolders(o.w, input, input.listing);
    }
  }

  lemma {:induction false} LoopKept(w: World, input: PolicyIn, keys: seq<string>, active: int)
    requires Kept(w.wins) && forall key :: key in keys ==> key in input.work
    decreases |keys|
    ensures Kept(SlotLoopSpec(w, input, keys, active).w.wins)
  {
    if keys != [] {
      TurnSlots(w, input, input.work[keys[0]], active);
      var t := TurnSpec(w, input, input.work[keys[0]], active);
      if t.stop.None? { LoopKept(t.w, input, keys[1..], t.active); }
    }
  }

  /* ---- who gets a slot ---- */

  /** Different workloads have different windows. */
  ghost predicate Apart(input: PolicyIn, keys: seq<string>)
    requires forall key :: key in keys ==> key in input.work
  {
    forall i, j :: 0 <= i < j < |keys| ==> KeyAt(input, keys[i]) != KeyAt(input, keys[j])
  }

  /** How many of the first `n` turns gave a waiting workload a slot. */
  function GrantedBefore(wins: map<WKey, Window>, input: PolicyIn, keys: seq<string>, turns: seq<LoopOut>, n: nat): nat
    requires n <= |turns| && n <= |keys| && forall key :: key in keys ==> key in input.work
  {
    if n == 0 then 0
    else GrantedBefore(wins, input, keys, turns, n - 1) + One(Granted(wins, turns[n - 1], KeyAt(input, keys[n - 1])))
  }

  lemma {:induction false} GrantedTail(wins: map<WKey, Window>, wins1: map<WKey, Window>, input: PolicyIn,
                                       keys: seq<string>, turns: seq<LoopOut>, n: nat)
    requires 0 < n <= |keys| && n <= |turns| && (forall key :: key in keys ==> key in input.work) && Apart(input, keys)
    requires Only(wins, wins1, KeyAt(input, keys[0]))
    ensures GrantedBefore(wins, input, keys, turns, n)
              == One(Granted(wins, turns[0], KeyAt(input, keys[0]))) + GrantedBefore(wins1, input, keys[1..], turns[1..], n - 1)
  {
    if n > 1 {
      GrantedTail(wins, wins1, input, keys, turns, n - 1);
      OnlyOthers(wins, wins1, KeyAt(input, keys[0]), KeyAt(input, keys[n - 1]));
      assert keys[1..][n - 2] == keys[n - 1] && turns[1..][n - 2] == turns[n - 1];
    } else {
      assert GrantedBefore(wins, input, keys, turns, 0) == 0;
    }
  }

  /** Slots go out in key order. The waiting workload at position `i` is turned away exactly
      when the slots are all taken by then, counting those handed to workloads before it; then
      it holds none afterwards. Otherwise it holds one, unless its window is past opening or
      its own opening fails; a failed opening holds none when no failure came late. */
  ghost predicate InOrder(wins: map<WKey, Window>, wins1: map<WKey, Window>, input: PolicyIn, keys: seq<string>,
                          turns: seq<LoopOut>, active: int, late: nat)
    requires forall key :: key in keys ==> key in input.work
  {
    |turns| == |keys| &&
    forall i :: 0 <= i < |keys| && Waits(wins, KeyAt(input, keys[i])) ==> ServedAt(wins, wins1, input, keys, turns, active, late, i)
  }

  ghost predicate ServedAt(wins: map<WKey, Window>, wins1: map<WKey, Window>, input: PolicyIn, keys: seq<string>,
                           turns: seq<LoopOut>, active: int, late: nat, i: nat)
    requires (forall key :: key in keys ==> key in input.work) && |turns| == |keys| && i < |keys|
  {
    var k := KeyAt(input, keys[i]);
    var full := active + GrantedBefore(wins, input, keys, turns, i) >= input.cap;
    && turns[i].deferred == One(full)
    && if full then !Holds(wins1, k)
       else if turns[i].errors > 0 then late == 0 ==> !Holds(wins1, k)
       else Holds(wins1, k) || (k in wins && HoldMaxWindow(input.maxWindow, wins[k], input.now))
  }

  lemma {:induction false} LoopOnly(w: World, input: PolicyIn, keys: seq<string>, active: int, k: WKey)
    requires Kept(w.wins) && (forall key :: key in keys ==> key in input.work)
    requires forall i :: 0 <= i < |keys| ==> KeyAt(input, keys[i]) != k
    decreases |keys|
    ensures var w1 := SlotLoopSpec(w, input, keys, active).w;
            (k in w1.wins <==> k in w.wins) && (k in w.wins ==> w1.wins[k] == w.wins[k])
  {
    if keys != [] {
      var wl := input.work[keys[0]];
      assert KeyAt(input, keys[0]) != k;
      TurnSlots(w, input, wl, active);
      var t := TurnSpec(w, input, wl, active);
      OnlyOthers(w.wins, t.w.wins, KeyAt(input, keys[0]), k);
      if t.stop.None? { LoopOnly(t.w, input, keys[1..], t.active, k); }
    }
  }

  lemma {:induction false} SlotsInOrder(w: World, input: PolicyIn, keys: seq<string>, active: int)
    requires Kept(w.wins) && input.cap > 0 && (forall key :: key in keys ==> key in input.work) && Apart(input, keys)
    requires SlotLoopSpec(w, input, keys, active).stop.None?
    decreases |keys|
    ensures InOrder(w.wins, SlotLoopSpec(w, input, keys, active).w.wins, input, keys, Turns(w, input, keys, active), active,
                    LateFailures(w, input, keys, active))
  {
    if keys != [] {
      var wl := input.work[keys[0]];
      TurnSlots(w, input, wl, active);
      var t := TurnSpec(w, input, wl, active);
      var rest := keys[1..];
      assert Apart(input, rest);
      SlotsInOrder(t.w, input, rest, t.active);
      var turns := Turns(w, input, keys, active);
      assert turns[1..] == Turns(t.w, input, rest, t.active);
      var wins1 := SlotLoopSpec(w, input, keys, active).w.wins;
      var late := LateFailures(w, input, keys, active);
      forall i | 0 <= i < |keys| && Waits(w.wins, KeyAt(input, keys[i]))
        ensures ServedAt(w.wins, wins1, input, keys, turns, active, late, i)
      {
        if i == 0 {
          LoopOnly(t.w, input, rest, t.active, KeyAt(input, keys[0]));
        } else {
          LaterServed(w, t, wins1, input, keys, turns, active, late, i);
        }
      }
    }
  }

  lemma LaterServed(w: World, t: LoopOut, wins1: map<WKey, Window>, input: PolicyIn, keys: seq<string>,
                    turns: seq<LoopOut>, active: int, late: nat, i: nat)
    requires (forall key :: key in keys ==> key in input.work) && Apart(input, keys) && 0 < i < |keys| == |turns|
    requires t == turns[0] && Only(w.wins, t.w.wins, KeyAt(input, keys[0]))
    requires t.active == active + One(Granted(w.wins, t, KeyAt(input, keys[0]))) && Waits(w.wins, KeyAt(input, keys[i]))
    requires exists rest: nat :: rest <= late && InOrder(t.w.wins, wins1, input, keys[1..], turns[1..], t.active, rest)
    ensures ServedAt(w.wins, wins1, input, keys, turns, active, late, i)
  {
    var rest: nat :| rest <= late && InOrder(t.w.wins, wins1, input, keys[1..], turns[1..], t.active, rest);
    GrantedTail(w.wins, t.w.wins, input, keys, turns, i);
    OnlyOthers(w.wins, t.w.wins, KeyAt(input, keys[0]), KeyAt(input, keys[i]));
    assert keys[1..][i - 1] == keys[i] && turns[1..][i - 1] == turns[i];
    assert ServedAt(t.w.wins, wins1, input, keys[1..], turns[1..], t.active, rest, i - 1);
  }

  /** Every workload is filed under its own namespace and name. */
  predicate Filed(input: PolicyIn) {
    forall key :: key in input.work ==> key == WorkKey(KeyAt(input, key))
  }

  /** The turns of a policy pass. */
  ghost function PassTurns(w: World, input: PolicyIn): seq<LoopOut>
    requires GoodOrder(input)
  {
    SortKeeps(input);
    Turns(w, input, Sort(input.order), |SlotHolders(w.wins, input.policy)|)
  }

  /** A policy pass that is not cut short hands the free slots to the waiting workloads in
      sorted key order, whatever openings fail. */
  lemma PassServesInOrder(w: World, input: PolicyIn)
    requires Kept(w.wins) && input.cap > 0 && GoodOrder(input) && Filed(input)
    requires Next(w) == Applied && PassLoop(Rest(w), input).stop.None?
    ensures (forall key :: key in Sort(input.order) <==> key in input.work) && Ascending(Sort(input.order))
    ensures InOrder(w.wins, PolicyPassSpec(w, input).w.wins, input, Sort(input.order), PassTurns(Rest(w), input),
                    |SlotHolders(w.wins, input.policy)|, PassLateFailures(Rest(w), input))
  {
    SortKeeps(input);
    var keys := Sort(input.order);
    var n := |SlotHolders(w.wins, input.policy)|;
    forall i, j | 0 <= i < j < |keys| ensures KeyAt(input, keys[i]) != KeyAt(input, keys[j]) {
      LessAsymmetric(keys[i], keys[j]);
    }
    SlotsInOrder(Rest(w), input, keys, n);
    LoopKept(Rest(w), input, keys, n);
    var o := SlotLoopSpec(Rest(w), input, keys, n);
    SyncHolders(o.w, input, input.listing);
    var wins1 := SyncSpec(o.w, input, input.listing).0.wins;
    var turns, late := PassTurns(Rest(w), input), PassLateFailures(Rest(w), input);
    forall i | 0 <= i < |keys| && Waits(w.wins, KeyAt(input, keys[i]))
      ensures ServedAt(w.wins, wins1, input, keys, turns, n, late, i)
    {
      assert KeyAt(input, keys[i]) in SlotHolders(wins1, input.policy) <==> Holds(wins1, KeyAt(input, keys[i]));
      assert ServedAt(w.wins, o.w.wins, input, keys, turns, n, late, i);
    }
  }
}
