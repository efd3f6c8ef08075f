/** The records of api/v1alpha1 and pkg/backends the protocol reads and writes. */
module Types {
  datatype Option<+T> = None | Some(value: T)

  /** Only NotFound is treated apart by the controllers; every other failure is Other. */
  datatype Error = NotFound | Other

  datatype Result<+T> = Success(value: T) | Failure(error: Error)

  const MIN_INT32: int := -0x8000_0000
  const MAX_INT32: int := 0x7fff_ffff

  type int32 = x: int | MIN_INT32 <= x <= MAX_INT32

  function Min(a: int, b: int): int { if a < b then a else b }

  function Max(a: int, b: int): int { if a > b then a else b }

  predicate InInt32(v: int) { MIN_INT32 <= v <= MAX_INT32 }

  /** Go's int32(v): keep the low 32 bits. */
  function ToInt32(v: int): int32 {
    var low := v % 0x1_0000_0000;
    if low > MAX_INT32 then low - 0x1_0000_0000 else low
  }

  lemma ToInt32InRange(v: int)
    requires InInt32(v)
    ensures ToInt32(v) == v
  {
  }

  /** An object is addressed by group-version, kind, namespace and name. */
  datatype Obj = Obj(apiVersion: string, kind: string, ns: string, name: string)

  /** One integer field of one object, named by the text of its path. */
  datatype Loc = Loc(obj: Obj, path: string)

  /** pkg/backends Target: an integer field, written as the catalog spells its path. */
  datatype Target = Target(obj: Obj, fieldPath: string, defaultWhenUnset: Option<int32>)

  function LocOf(t: Target): Loc { Loc(t.obj, t.fieldPath) }

  /** ScaleAction: the write-ahead record of one raised field. */
  datatype Action = Action(key: string, obj: Obj, fieldPath: string,
                           baseline: int32, scaledTo: int32, skip: bool, stampKeys: seq<string>)

  function ActionTarget(a: Action): Target { Target(a.obj, a.fieldPath, None) }

  function ActionLoc(a: Action): Loc { LocOf(ActionTarget(a)) }

  function ActionKey(key: string, o: Obj, fieldPath: string): string {
    if key != "" then key + "/" + o.ns + "/" + o.name + "/" + fieldPath
    else o.apiVersion + "/" + o.kind + "/" + o.ns + "/" + o.name + "/" + fieldPath
  }

  function KeyOf(a: Action): string { ActionKey(a.key, a.obj, a.fieldPath) }

  datatype Phase = Unset | Open | Cooling | Held | Closed

  datatype Msg =
    | NoMsg | ScaledUp | ExternalScaler | ApplyFailed(error: Error) | WaitingForSlot
    | NodesVulnerable | WaitingSpare | MaxWindowMsg | CoolingDown | ScaledBack | HoldingTombstone
    | Blocked(base: Msg)

  /** A window is identified by its policy and its workload. */
  datatype WKey = WKey(policy: string, ns: string, name: string)

  datatype Meta = Meta(deferred: bool, finalizer: bool, deleting: bool, created: Option<int>)

  datatype Spec = Spec(actions: seq<Action>, baseline: int32, scaledTo: int32,
                       nodes: seq<string>, until: Option<int>)

  datatype Status = Status(phase: Phase, lastScale: Option<int>, spareReady: bool,
                           ready: nat, safe: nat, forcedCool: bool, message: Msg,
                           spareCond: Option<bool>, applied: Option<Option<Error>>)

  const FRESH_STATUS := Status(Unset, None, false, 0, 0, false, NoMsg, None, None)

  datatype Window = Window(meta: Meta, spec: Spec, status: Status)

  /** IsActive: Open, Cooling, Held and the not yet written phase. */
  predicate IsActive(win: Window) { win.status.phase != Closed }

  /** A window on its way out is still there for its finalizer. */
  predicate HeldByFinalizer(win: Window) { win.meta.deleting ==> win.meta.finalizer }

  /** A window that takes one of the policy's slots. */
  predicate TakesSlot(win: Window) { IsActive(win) && !win.meta.deferred }
}
