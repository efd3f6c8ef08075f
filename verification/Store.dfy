/** The API server as the controllers see it: every call may be refused, and a write may
    take effect while its answer is lost.

    The answers a reconcile gets are read off a finite tape. A tape that has run out refuses
    every further call, which leaves the store as it is: so a process that stops at any API
    call is a tape that ends there, and what holds after every tape holds between any two
    API calls of a reconcile. */
module Store {
  import opened Types

  datatype Outcome = Applied | Lost | Refused

  /** A scaled object: its integer fields (absent means unset) and its annotations. */
  datatype ObjState = ObjState(ints: map<string, int>, anns: map<string, string>)

  datatype World = World(objs: map<Obj, ObjState>, wins: map<WKey, Window>, tape: seq<Outcome>)

  function Next(w: World): Outcome { if w.tape == [] then Refused else w.tape[0] }

  function Rest(w: World): World { if w.tape == [] then w else w.(tape := w.tape[1..]) }

  function Val(objs: map<Obj, ObjState>, l: Loc): Option<int> {
    if l.obj in objs && l.path in objs[l.obj].ints then Some(objs[l.obj].ints[l.path]) else None
  }

  /* ---- reading a field ---- */

  predicate KnownDefaultOne(apiVersion: string, kind: string) {
    (kind == "Deployment" && apiVersion == "apps/v1") ||
    (kind == "HorizontalPodAutoscaler" && (apiVersion == "autoscaling/v1" || apiVersion == "autoscaling/v2"))
  }

  /** The value Current reports for an unset path, when there is one. */
  function DefaultOf(t: Target): Option<int32> {
    if t.defaultWhenUnset.Some? then t.defaultWhenUnset
    else if KnownDefaultOne(t.obj.apiVersion, t.obj.kind) then Some(1)
    else None
  }

  function Peek(objs: map<Obj, ObjState>, t: Target): Result<int32> {
    if t.obj !in objs then Failure(NotFound)
    else
      match Val(objs, LocOf(t))
      case Some(v) => if InInt32(v) then Success(v) else Failure(Other)
      case None => if DefaultOf(t).Some? then Success(DefaultOf(t).value) else Failure(Other)
  }

  function CurrentSpec(w: World, t: Target): (World, Result<int32>) {
    (Rest(w), if Next(w) == Applied then Peek(w.objs, t) else Failure(Other))
  }

  /* ---- writing objects ---- */

  function WriteObj(w: World, o: Obj, st: ObjState): (World, Option<Error>) {
    (if Next(w) == Refused then Rest(w) else Rest(w).(objs := w.objs[o := st]),
     if Next(w) == Applied then None else Some(Other))
  }

  /** The fields PatchIntegers writes: those of `paths` with a wanted value that differs
      from int32 of the stored one. */
  function IntPatch(ints: map<string, int>, paths: seq<string>, values: map<string, int32>): map<string, int> {
    map p | p in paths && p in values && !(p in ints && ToInt32(ints[p]) == values[p]) :: values[p]
  }

  function PatchIntegersSpec(w: World, o: Obj, paths: seq<string>, values: map<string, int32>): (World, Option<Error>) {
    if paths == [] then (w, None)
    else if Next(w) != Applied then (Rest(w), Some(Other))
    else if o !in w.objs then (Rest(w), Some(NotFound))
    else
      var patch := IntPatch(w.objs[o].ints, paths, values);
      if patch == map[] then (Rest(w), None)
      else WriteObj(Rest(w), o, w.objs[o].(ints := w.objs[o].ints + patch))
  }

  /** annotationPatch: None deletes the key, Some writes it. */
  function AnnotationPatch(existing: map<string, string>, want: map<string, string>): map<string, Option<string>> {
    map k | k in want && (if want[k] == "" then k in existing else k !in existing || existing[k] != want[k])
      :: if want[k] == "" then None else Some(want[k])
  }

  function PatchAnns(existing: map<string, string>, patch: map<string, Option<string>>): map<string, string> {
    map k | k in existing.Keys + patch.Keys && (k in patch ==> patch[k].Some?)
      :: if k in patch then patch[k].value else existing[k]
  }

  /** Writing only the keys that differ sets every wanted key and deletes every blank one. */
  lemma AnnotationPatchSuffices(existing: map<string, string>, want: map<string, string>)
    ensures var after := PatchAnns(existing, AnnotationPatch(existing, want));
            forall k :: if k in want then (k in after <==> want[k] != "") && (k in after ==> after[k] == want[k])
                        else (k in after <==> k in existing) && (k in after ==> after[k] == existing[k])
  {
  }

  function PatchAnnotationsSpec(w: World, o: Obj, want: map<string, string>): (World, Option<Error>) {
    if want == map[] then (w, None)
    else if Next(w) != Applied then (Rest(w), Some(Other))
    else if o !in w.objs then (Rest(w), Some(NotFound))
    else
      var patch := AnnotationPatch(w.objs[o].anns, want);
      if patch == map[] then (Rest(w), None)
      else WriteObj(Rest(w), o, w.objs[o].(anns := PatchAnns(w.objs[o].anns, patch)))
  }

  function StampDeletes(keys: seq<string>): map<string, string> {
    map k | k in keys :: ""
  }

  /* ---- window records ---- */

  function GetWinSpec(w: World, k: WKey): (World, Result<Window>) {
    (Rest(w),
     if Next(w) != Applied then Failure(Other)
     else if k in w.wins then Success(w.wins[k]) else Failure(NotFound))
  }

  /** A read whose value the caller already has as a parameter: it answers or it fails. */
  function ReadSpec(w: World): (World, Option<Error>) {
    (Rest(w), if Next(w) == Applied then None else Some(Other))
  }

  function PutWin(w: World, k: WKey, win: Window): World { w.(wins := w.wins[k := win]) }

  /** Create stores the record with a blank status. */
  function CreateWinSpec(w: World, k: WKey, win: Window, now: int): (World, Option<Error>) {
    if Next(w) == Refused || k in w.wins then (Rest(w), Some(Other))
    else
      (PutWin(Rest(w), k, Window(win.meta.(created := Some(now)), win.spec, FRESH_STATUS)),
       if Next(w) == Applied then None else Some(Other))
  }

  /** A patch of metadata and spec leaves the stored status; an object that is being deleted
      goes away with its finalizer. */
  function PatchWinSpec(w: World, k: WKey, win: Window): (World, Option<Error>) {
    if Next(w) == Refused then (Rest(w), Some(Other))
    else if k !in w.wins then (Rest(w), Some(NotFound))
    else
      (if win.meta.deleting && !win.meta.finalizer then Rest(w).(wins := w.wins - {k})
       else PutWin(Rest(w), k, win.(status := w.wins[k].status)),
       if Next(w) == Applied then None else Some(Other))
  }

  function UpdateStatusSpec(w: World, k: WKey, status: Status): (World, Option<Error>) {
    if Next(w) == Refused then (Rest(w), Some(Other))
    else if k !in w.wins then (Rest(w), Some(NotFound))
    else
      (PutWin(Rest(w), k, w.wins[k].(status := status)), if Next(w) == Applied then None else Some(Other))
  }

  /** What a deletion does to the stored record. */
  function Deleted(w: World, k: WKey): World {
    if k !in w.wins then w
    else if w.wins[k].meta.finalizer then PutWin(w, k, w.wins[k].(meta := w.wins[k].meta.(deleting := true)))
    else w.(wins := w.wins - {k})
  }

  /** Delete with NotFound ignored. */
  function DeleteWinSpec(w: World, k: WKey): (World, Option<Error>) {
    (if Next(w) == Refused then Rest(w) else Deleted(Rest(w), k),
     if Next(w) == Applied then None else Some(Other))
  }

  /* ---- a write happens or it does not ---- */

  lemma PatchWinCases(w: World, k: WKey, win: Window)
    requires HeldByFinalizer(win)
    ensures var (w1, err) := PatchWinSpec(w, k, win);
            && w1.objs == w.objs
            && (err.None? ==> k in w.wins)
            && ((err.Some? && w1.wins == w.wins)
                || (k in w.wins && w1.wins == w.wins[k := win.(status := w.wins[k].status)]))
  {
  }

  lemma UpdateStatusCases(w: World, k: WKey, status: Status)
    ensures var (w1, err) := UpdateStatusSpec(w, k, status);
            && w1.objs == w.objs
            && (err.None? ==> k in w.wins)
            && ((err.Some? && w1.wins == w.wins)
                || (k in w.wins && w1.wins == w.wins[k := w.wins[k].(status := status)]))
  {
  }

  /** The store with its pending answers. */
  class Cluster {
    var objs: map<Obj, ObjState>
    var wins: map<WKey, Window>
    var tape: seq<Outcome>

    function W(): World
      reads this
    {
      World(objs, wins, tape)
    }

    method Call() returns (o: Outcome)
      modifies this`tape
      ensures o == Next(old(W())) && W() == Rest(old(W()))
    {
      o := Refused;
      if tape != [] {
        o := tape[0];
        tape := tape[1..];
      }
    }

    method Current(t: Target) returns (r: Result<int32>)
      modifies this
      ensures (W(), r) == CurrentSpec(old(W()), t)
    {
      var o := Call();
      if o != Applied { return Failure(Other); }
      r := Peek(objs, t);
    }

    method Write(o: Obj, st: ObjState) returns (err: Option<Error>)
      modifies this
      ensures (W(), err) == WriteObj(old(W()), o, st)
    {
      var outcome := Call();
      if outcome != Refused { objs := objs[o := st]; }
      err := if outcome == Applied then None else Some(Other);
    }

    /** One merge patch for several integer paths of one object. */
    method PatchIntegers(o: Obj, paths: seq<string>, values: map<string, int32>) returns (err: Option<Error>)
      modifies this
      ensures (W(), err) == PatchIntegersSpec(old(W()), o, paths, values)
    {
      if paths == [] { return None; }
      var outcome := Call();
      if outcome != Applied { return Some(Other); }
      if o !in objs { return Some(NotFound); }
      var ints := objs[o].ints;
      var need := false;
      var patch: map<string, int> := map[];
      for i := 0 to |paths|
        invariant patch == IntPatch(ints, paths[..i], values)
        invariant need <==> patch != map[]
      {
        assert paths[..i + 1] == paths[..i] + [paths[i]];
        var p := paths[i];
        if p !in values { continue; }
        if p in ints && ToInt32(ints[p]) == values[p] { continue; }
        need := true;
        patch := patch[p := values[p]];
        assert p in patch;
      }
      assert paths[..|paths|] == paths;
      if !need { return None; }
      err := Write(o, objs[o].(ints := ints + patch));
    }

    method PatchAnnotations(o: Obj, want: map<string, string>) returns (err: Option<Error>)
      modifies this
      ensures (W(), err) == PatchAnnotationsSpec(old(W()), o, want)
    {
      if want == map[] { return None; }
      var outcome := Call();
      if outcome != Applied { return Some(Other); }
      if o !in objs { return Some(NotFound); }
      var patch := AnnotationPatch(objs[o].anns, want);
      if patch == map[] { return None; }
      err := Write(o, objs[o].(anns := PatchAnns(objs[o].anns, patch)));
    }

    method GetWin(k: WKey) returns (r: Result<Window>)
      modifies this
      ensures (W(), r) == GetWinSpec(old(W()), k)
    {
      var o := Call();
      if o != Applied { return Failure(Other); }
      r := if k in wins then Success(wins[k]) else Failure(NotFound);
    }

    method Read() returns (err: Option<Error>)
      modifies this
      ensures (W(), err) == ReadSpec(old(W()))
    {
      var o := Call();
      err := if o == Applied then None else Some(Other);
    }

    method CreateWin(k: WKey, win: Window, now: int) returns (err: Option<Error>)
      modifies this
      ensures (W(), err) == CreateWinSpec(old(W()), k, win, now)
    {
      var o := Call();
      if o == Refused || k in wins { return Some(Other); }
      wins := wins[k := Window(win.meta.(created := Some(now)), win.spec, FRESH_STATUS)];
      err := if o == Applied then None else Some(Other);
    }

    method PatchWin(k: WKey, win: Window) returns (err: Option<Error>)
      modifies this
      ensures (W(), err) == PatchWinSpec(old(W()), k, win)
    {
      var o := Call();
      if o == Refused { return Some(Other); }
      if k !in wins { return Some(NotFound); }
      wins := if win.meta.deleting && !win.meta.finalizer then wins - {k}
              else wins[k := win.(status := wins[k].status)];
      err := if o == Applied then None else Some(Other);
    }

    method UpdateStatus(k: WKey, status: Status) returns (err: Option<Error>)
      modifies this
      ensures (W(), err) == UpdateStatusSpec(old(W()), k, status)
    {
      var o := Call();
      if o == Refused { return Some(Other); }
      if k !in wins { return Some(NotFound); }
      wins := wins[k := wins[k].(status := status)];
      err := if o == Applied then None else Some(Other);
    }

    method DeleteWin(k: WKey) returns (err: Option<Error>)
      modifies this
      ensures (W(), err) == DeleteWinSpec(old(W()), k)
    {
      var o := Call();
      if o != Refused && k in wins {
        wins := if wins[k].meta.finalizer then wins[k := wins[k].(meta := wins[k].meta.(deleting := true))]
                else wins - {k};
      }
      err := if o == Applied then None else Some(Other);
    }
  }
}
