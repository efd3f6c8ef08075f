/** pkg/capacity: how many replicas a disruption asks for. */
module Capacity {
  import opened Types

  /** The extra replicas, before the addition: max(atRisk, spare), at least one when a pod
      is at risk, and no more than a positive maxBuffer. */
  function Extra(atRisk: int32, spare: int32, maxBuffer: int32): int32 {
    var e := Max(atRisk, spare);
    var atLeastOne := if e < 1 && atRisk > 0 then 1 else e;
    if maxBuffer > 0 && atLeastOne > maxBuffer then maxBuffer else atLeastOne
  }

  /** TargetReplicas; the final addition wraps as int32 does. */
  function TargetReplicas(baseline: int32, atRisk: int32, spare: int32, maxBuffer: int32): int32 {
    ToInt32(Max(baseline, 0) + Extra(atRisk, spare, maxBuffer))
  }
}
