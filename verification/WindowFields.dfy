/** What a window pass may do to the fields: lower its own workload's to their originals. */
module WindowFields {
  import opened Strings
  import opened Types
  import opened Store
  import opened Plan
  import opened PlanEffects
  import opened PlanTheorems
  import opened Clock
  import opened WindowController
  import opened Ledger
  import opened WindowLedger

  ghost predicate SameFields(w: World, w1: World) {
    w1.objs.Keys == w.objs.Keys && forall l :: Val(w1.objs, l) == Val(w.objs, l)
  }

  /** A field keeps its value, or is a restorable field of `k` put back to its original. */
  ghost predicate Lowers(w: World, w1: World, g: Ground, k: WKey)
    requires GoodGround(g)
  {
    w1.objs.Keys == w.objs.Keys &&
    forall l :: Val(w1.objs, l) == Val(w.objs, l)
                || (l in g.cat && g.cat[l].owner == k && !g.cat[l].skip && Val(w1.objs, l) == Some(g.orig[l]))
  }

  lemma LowersThenSame(w: World, w1: World, w2: World, g: Ground, k: WKey)
    requires GoodGround(g) && Lowers(w, w1, g, k) && SameFields(w1, w2)
    ensures Lowers(w, w2, g, k)
  {
    forall l ensures Val(w2.objs, l) == Val(w.objs, l)
                     || (l in g.cat && g.cat[l].owner == k && !g.cat[l].skip && Val(w2.objs, l) == Some(g.orig[l])) {
      assert Val(w2.objs, l) == Val(w1.objs, l);
    }
  }

  lemma RestoreLowers(w: World, g: Ground, k: WKey, win: Window)
    requires GoodGround(g) && GoodWindow(g, k, win)
    ensures Lowers(w, RestoreSpec(w, win.spec.actions, k.ns).0, g, k)
  {
    ConsistentWindow(g, k, win);
    var acts := win.spec.actions;
    RestoreResult(w, acts, Base(g));
    forall l | NeedsLower(w.objs, acts, l)
      ensures l in g.cat && g.cat[l].owner == k && !g.cat[l].skip && Base(g)[l] == g.orig[l]
    {
      var a :| a in acts && ActionLoc(a) == l && Above(w.objs, a);
      assert Fits(g, k, a);
    }
  }

  lemma WriteStatusObjs(w: World, k: WKey, win: Window, input: WinIn, phase: Phase, msg: Msg)
    ensures WriteStatusSpec(w, k, win, input, phase, msg).0.objs == w.objs
  {
  }

  lemma StayOpenFields(w: World, k: WKey, win: Window, input: WinIn, dec: Decision)
    ensures SameFields(w, StayOpenSpec(w, k, win, input, dec).w)
  {
    var patched := PatchWinSpec(w, k, win.(spec := win.spec.(until := None))).0;
    StampCooldownKeepsInts(patched, input.stampUntil, win.spec.actions, k.ns, "");
    var w1 := if dec.abort then AbortCooldownSpec(w, k, win, input).0 else w;
    var win1 := if dec.abort then win.(spec := win.spec.(until := None)) else win;
    assert SameFields(w, w1);
    WriteStatusObjs(w1, k, win1, input, dec.phase, dec.message);
  }

  lemma ArmFields(w: World, k: WKey, win: Window, input: WinIn, forceCool: bool)
    ensures SameFields(w, ArmCooldownSpec(w, k, win, input, forceCool).w)
  {
    var until := input.now + input.scaleBackAfter;
    var win1 := win.(spec := win.spec.(until := Some(until)));
    var (w1, perr) := PatchWinSpec(w, k, win1);
    StampCooldownKeepsInts(w1, input.stampUntil, win.spec.actions, k.ns, Itoa(until));
    var w2 := StampCooldownSpec(w1, input.stampUntil, win.spec.actions, k.ns, Itoa(until)).0;
    WriteStatusObjs(w2, k, win1, input, Cooling, CoolingMessage(forceCool, win.status.forcedCool));
  }

  lemma DeleteClosedObjs(w: World, k: WKey, win: Window)
    ensures DeleteClosedSpec(w, k, win).w.objs == w.objs
  {
  }

  lemma ActLowers(w: World, g: Ground, k: WKey, win: Window, input: WinIn, forceCool: bool, dec: Decision)
    requires GoodGround(g) && GoodWindow(g, k, win)
    ensures var w1 := ActSpec(w, k, win, input, forceCool, dec).w;
            Lowers(w, w1, g, k) && (dec.step != BeginScaleBack ==> SameFields(w, w1))
  {
    match dec.step {
      case StayOpenVulnerable => StayOpenFields(w, k, win, input, dec);
      case StayOpenWaitingSpare => StayOpenFields(w, k, win, input, dec);
      case BeginScaleBack =>
        RestoreLowers(w, g, k, win);
        var (w1, rerr) := RestoreSpec(w, win.spec.actions, k.ns);
        if rerr.None? {
          ArmFields(w1, k, win, input, forceCool);
          LowersThenSame(w, w1, ArmCooldownSpec(w1, k, win, input, forceCool).w, g, k);
        }
      case StayCooling => WriteStatusObjs(w, k, win, input, dec.phase, dec.message);
      case Close =>
        WriteStatusObjs(w, k, win, input, dec.phase, dec.message);
        DeleteClosedObjs(WriteStatusSpec(w, k, win, input, dec.phase, dec.message).0, k, win);
    }
  }

  lemma ObserveObjs(w: World, k: WKey, win: Window, input: WinIn)
    ensures ObserveSpec(w, k, win, input).0.objs == w.objs
  {
  }

  lemma LivePassLowers(w: World, g: Ground, k: WKey, win: Window, input: WinIn)
    requires GoodGround(g) && GoodWindow(g, k, win)
    ensures var w1 := LivePassSpec(w, k, win, input).w;
            var over := MaxWindowExceeded(input.maxWindow, win, input.now);
            && Lowers(w, w1, g, k)
            && (Decide(Observed(win, input), input, over).step != BeginScaleBack ==> SameFields(w, w1))
  {
    var over := MaxWindowExceeded(input.maxWindow, win, input.now);
    var seen := Observed(win, input);
    ObserveObjs(w, k, win, input);
    var (w1, err) := ObserveSpec(w, k, win, input);
    assert SameFields(w, w1);
    ActLowers(w1, g, k, seen, input, over, Decide(seen, input, over));
  }

  lemma ScaleBackLowers(w: World, g: Ground, k: WKey, win: Window)
    requires GoodGround(g) && GoodWindow(g, k, win)
    ensures Lowers(w, ScaleBackAndUnfinalizeSpec(w, k, win).w, g, k)
  {
    RestoreLowers(w, g, k, win);
  }

  lemma TombstoneObjs(w: World, k: WKey, win: Window, input: WinIn)
    ensures TombstoneSpec(w, k, win, input).w.objs == w.objs
  {
    DeleteClosedObjs(Rest(w), k, win);
  }

  lemma OwnedPassLowers(w: World, g: Ground, k: WKey, win: Window, input: WinIn)
    requires GoodGround(g) && GoodWindow(g, k, win) && !win.meta.deleting && win.meta.finalizer
    ensures Lowers(w, FoundPassSpec(w, k, win, input).w, g, k)
  {
    var w1, w2, o := Rest(w), Rest(Rest(w)), FoundPassSpec(w, k, win, input).w;
    OwnedCases(w, k, win, input);
    if o == ScaleBackAndUnfinalizeSpec(w1, k, win).w {
      ScaleBackLowers(w1, g, k, win);
    } else if o == ScaleBackAndUnfinalizeSpec(w2, k, win).w {
      ScaleBackLowers(w2, g, k, win);
    } else if o == LivePassSpec(w2, k, win, input).w {
      LivePassLowers(w2, g, k, win, input);
    } else {
      TombstoneObjs(w2, k, win, input);
    }
  }

  lemma FoundPassLowers(w: World, g: Ground, k: WKey, win: Window, input: WinIn)
    requires GoodGround(g) && GoodWindow(g, k, win)
    ensures Lowers(w, FoundPassSpec(w, k, win, input).w, g, k)
  {
    if win.meta.deleting {
      ScaleBackLowers(w, g, k, win);
    } else if win.meta.finalizer {
      OwnedPassLowers(w, g, k, win, input);
    }
  }

  /** A window pass raises nothing: it leaves a field as it is, or puts a restorable field of
      its own workload back to its original value. */
  lemma WindowPassLowers(w: World, g: Ground, k: WKey, input: WinIn)
    requires Inv(w.objs, w.wins, g)
    ensures Lowers(w, WindowPassSpec(w, k, input).w, g, k)
  {
    if k in w.wins { FoundPassLowers(Rest(w), g, k, w.wins[k], input); }
  }
}
