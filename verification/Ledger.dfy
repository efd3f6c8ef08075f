/** The write-ahead invariant: what the stored window records say about the fields. */
module Ledger {
  import opened Types
  import opened Store
  import opened Plan
  import opened PlanEffects
  import opened PlanTheorems

  /** A bound field: the workload that binds it, under which action key, how it reads when
      unset, and whether it is left up. Fields are the keys of the ground, so no two bindings
      share one. */
  datatype Entry = Entry(owner: WKey, akey: string, dflt: Option<int32>, skip: bool)

  /** The bound fields with the value each had before anything was raised. */
  datatype Ground = Ground(cat: map<Loc, Entry>, orig: map<Loc, int>)

  ghost predicate GoodGround(g: Ground) {
    g.orig.Keys == g.cat.Keys &&
    forall l, m :: l in g.cat && m in g.cat && g.cat[l].owner == g.cat[m].owner && g.cat[l].akey == g.cat[m].akey ==> l == m
  }

  predicate Raised(objs: map<Obj, ObjState>, g: Ground, l: Loc)
    requires l in g.orig
  {
    Val(objs, l).Some? && Val(objs, l).value > g.orig[l]
  }

  /** The field is not below its original value; if it is unset it still reads as it did. */
  predicate NotBelow(objs: map<Obj, ObjState>, g: Ground, l: Loc)
    requires l in g.cat && l in g.orig
  {
    match Val(objs, l)
    case Some(v) => v >= g.orig[l]
    case None => g.cat[l].dflt.Some? ==> g.cat[l].dflt.value == g.orig[l]
  }

  ghost predicate NeverBelow(objs: map<Obj, ObjState>, g: Ground)
    requires GoodGround(g)
  {
    forall l :: l in g.cat && l.obj in objs ==> NotBelow(objs, g, l)
  }

  /** The record names a bound field of its workload, with the original value as baseline. */
  ghost predicate Fits(g: Ground, k: WKey, a: Action)
    requires GoodGround(g)
  {
    var l := ActionLoc(a);
    && l in g.cat && g.cat[l].owner == k && g.cat[l].akey == KeyOf(a) && g.cat[l].skip == a.skip
    && a.obj.ns != "" && (!a.skip ==> a.baseline == g.orig[l])
  }

  ghost predicate GoodWindow(g: Ground, k: WKey, win: Window)
    requires GoodGround(g)
  {
    && (forall a :: a in win.spec.actions ==> Fits(g, k, a)) && (win.meta.deferred ==> win.spec.actions == [])
    && HeldByFinalizer(win)
  }

  /** The window still owes the field its restore. */
  ghost predicate Owes(win: Window, l: Loc) {
    && (exists a :: a in win.spec.actions && ActionLoc(a) == l)
    && win.spec.until.None? && win.status.phase != Closed
  }

  /** Write-ahead: every raised field that will be lowered again is recorded. */
  ghost predicate Logged(objs: map<Obj, ObjState>, wins: map<WKey, Window>, g: Ground)
    requires GoodGround(g)
  {
    forall l :: l in g.cat && !g.cat[l].skip && Raised(objs, g, l) ==>
      g.cat[l].owner in wins && Owes(wins[g.cat[l].owner], l)
  }

  ghost predicate Inv(objs: map<Obj, ObjState>, wins: map<WKey, Window>, g: Ground) {
    && GoodGround(g) && NeverBelow(objs, g) && Logged(objs, wins, g)
    && forall k :: k in wins ==> GoodWindow(g, k, wins[k])
  }

  /** None of the workload's fields that get restored is raised. */
  ghost predicate Quiet(objs: map<Obj, ObjState>, g: Ground, k: WKey)
    requires GoodGround(g)
  {
    forall l :: l in g.cat && g.cat[l].owner == k && !g.cat[l].skip ==> !Raised(objs, g, l)
  }

  predicate Finalized(wins: map<WKey, Window>, k: WKey) { k in wins && wins[k].meta.finalizer }

  /** Only closed windows lack the finalizer. */
  ghost predicate Pinned(wins: map<WKey, Window>) {
    forall k :: k in wins && !wins[k].meta.finalizer ==> wins[k].status.phase == Closed
  }

  ghost function Base(g: Ground): map<Loc, int32>
    requires GoodGround(g)
  {
    map l | l in g.cat && !g.cat[l].skip && InInt32(g.orig[l]) :: g.orig[l]
  }

  /* ---- what keeps the invariant ---- */

  lemma QuietUnlessOwed(objs: map<Obj, ObjState>, wins: map<WKey, Window>, g: Ground, k: WKey)
    requires Inv(objs, wins, g)
    requires k !in wins || wins[k].spec.until.Some? || wins[k].status.phase == Closed || wins[k].spec.actions == []
    ensures Quiet(objs, g, k)
  {
  }

  lemma PutKeeps(objs: map<Obj, ObjState>, wins: map<WKey, Window>, g: Ground, k: WKey, win: Window)
    requires Inv(objs, wins, g) && GoodWindow(g, k, win)
    requires Quiet(objs, g, k) || (k in wins && forall l :: l in g.cat && Owes(wins[k], l) ==> Owes(win, l))
    ensures Inv(objs, wins[k := win], g)
  {
  }

  lemma RemoveKeeps(objs: map<Obj, ObjState>, wins: map<WKey, Window>, g: Ground, k: WKey)
    requires Inv(objs, wins, g) && Quiet(objs, g, k)
    ensures Inv(objs, wins - {k}, g)
  {
  }

  /** A store whose fields read the same keeps the invariant. */
  lemma SameValsKeeps(objs: map<Obj, ObjState>, objs1: map<Obj, ObjState>, wins: map<WKey, Window>, g: Ground)
    requires Inv(objs, wins, g) && objs1.Keys == objs.Keys && forall l :: Val(objs1, l) == Val(objs, l)
    ensures Inv(objs1, wins, g)
    ensures forall k :: Quiet(objs, g, k) ==> Quiet(objs1, g, k)
  {
    forall l | l in g.cat ensures Raised(objs1, g, l) == Raised(objs, g, l) {
      assert Val(objs1, l) == Val(objs, l);
    }
    forall k | Quiet(objs, g, k) ensures Quiet(objs1, g, k) {}
  }

  lemma ConsistentWindow(g: Ground, k: WKey, win: Window)
    requires GoodGround(g) && GoodWindow(g, k, win)
    ensures Consistent(win.spec.actions, Base(g)) && FillNs(win.spec.actions, k.ns) == win.spec.actions
  {
    forall a | a in win.spec.actions && !a.skip ensures ActionLoc(a) in Base(g) && Base(g)[ActionLoc(a)] == a.baseline {
      assert Fits(g, k, a);
    }
  }

  /** Lowering recorded fields to their baselines keeps the invariant and raises nothing. */
  lemma LoweredKeeps(w: World, w1: World, g: Ground, actions: seq<Action>)
    requires Inv(w.objs, w.wins, g) && Consistent(actions, Base(g)) && Loweredness(w, w1, actions, Base(g))
    ensures Inv(w1.objs, w1.wins, g)
    ensures forall l :: l in g.cat && Raised(w1.objs, g, l) ==> Raised(w.objs, g, l)
    ensures forall k :: Quiet(w.objs, g, k) ==> Quiet(w1.objs, g, k)
  {
    forall l | NeedsLower(w.objs, actions, l) ensures l in Base(g) {
      var a :| a in actions && ActionLoc(a) == l && Above(w.objs, a);
    }
    forall l | l in g.cat ensures Raised(w1.objs, g, l) ==> Raised(w.objs, g, l) {
      assert Val(w1.objs, l) == Val(w.objs, l) || Val(w1.objs, l) == Some(Base(g)[l]);
    }
    forall l | l in g.cat && l.obj in w1.objs ensures NotBelow(w1.objs, g, l) {
      assert Val(w1.objs, l) == Val(w.objs, l) || (NeedsLower(w.objs, actions, l) && Val(w1.objs, l) == Some(Base(g)[l]));
    }
    forall k | Quiet(w.objs, g, k) ensures Quiet(w1.objs, g, k) {}
  }

  /** A restore of the stored record keeps the invariant; one that reports no error leaves
      none of the workload's fields raised. */
  lemma RestoreKeeps(w: World, g: Ground, k: WKey, win: Window)
    requires Inv(w.objs, w.wins, g) && GoodWindow(g, k, win)
    requires k in w.wins && win.spec.actions == w.wins[k].spec.actions
    ensures var (w1, err) := RestoreSpec(w, win.spec.actions, k.ns);
            && w1.wins == w.wins && Inv(w1.objs, w1.wins, g) && err != Some(NotFound)
            && (forall j :: Quiet(w.objs, g, j) ==> Quiet(w1.objs, g, j))
            && (err.None? ==> Quiet(w1.objs, g, k))
  {
    ConsistentWindow(g, k, win);
    var acts := win.spec.actions;
    var (w1, err) := RestoreFrom(w, acts);
    RestoreResult(w, acts, Base(g));
    LoweredKeeps(w, w1, g, acts);
    if err.None? {
      forall l | l in g.cat && g.cat[l].owner == k && !g.cat[l].skip ensures !Raised(w1.objs, g, l) {
        if Raised(w1.objs, g, l) {
          var a :| a in acts && ActionLoc(a) == l;
          NotLeftRaised(w, w1, g, k, acts, a);
        }
      }
    }
  }

  lemma NotLeftRaised(w: World, w1: World, g: Ground, k: WKey, acts: seq<Action>, a: Action)
    requires GoodGround(g) && Consistent(acts, Base(g)) && a in acts && Fits(g, k, a) && !a.skip
    requires Readable(w.objs, acts) && Val(w1.objs, ActionLoc(a)) == LoweredVal(w.objs, acts, Base(g), ActionLoc(a))
    ensures !Raised(w1.objs, g, ActionLoc(a))
  {
    var l := ActionLoc(a);
    assert Above(w.objs, a) ==> NeedsLower(w.objs, acts, l);
    if NeedsLower(w.objs, acts, l) {
      var b :| b in acts && ActionLoc(b) == l && Above(w.objs, b);
    }
  }
}
