/** Is the target large enough? TargetReplicas against the spare count of the window. */
module Targets {
  import opened Types
  import opened Spare
  import Capacity

  /** The sum TargetReplicas computes, before it wraps. */
  function Ideal(baseline: int32, atRisk: int32, spare: int32, maxBuffer: int32): int {
    Max(baseline, 0) + Capacity.Extra(atRisk, spare, maxBuffer)
  }

  /** A Ready pod is safe or exposed. */
  lemma {:induction false} ReadySplits(pods: seq<Pod>, nodes: seq<string>)
    ensures ReadyCount(pods) == SafeCount(pods, nodes) + Count(pods, ExposedOn(ToSet(nodes)))
  {
    if pods != [] { ReadySplits(pods[..|pods| - 1], nodes); }
  }

  /** The target is reached without wrapping exactly when it fits an int32, and only then is
      it at least the baseline. */
  lemma TargetWrapsIff(baseline: int32, atRisk: int32, spare: int32, maxBuffer: int32)
    requires baseline >= 0 && atRisk >= 0 && spare >= 0
    ensures var t := Capacity.TargetReplicas(baseline, atRisk, spare, maxBuffer);
            && (t >= baseline <==> Ideal(baseline, atRisk, spare, maxBuffer) <= MAX_INT32)
            && (t >= baseline ==> t == Ideal(baseline, atRisk, spare, maxBuffer))
  {
  }

  /** With every target pod Ready and no more than `atRisk` of them exposed, the window is
      SpareReady, unless maxBuffer is smaller than the number at risk. */
  lemma TargetSuffices(pods: seq<Pod>, nodes: seq<string>, baseline: int32, atRisk: int32, spare: int32, maxBuffer: int32)
    requires baseline >= 0 && atRisk >= 0 && spare >= 0 && Ideal(baseline, atRisk, spare, maxBuffer) <= MAX_INT32
    requires maxBuffer <= 0 || atRisk <= maxBuffer
    requires ReadyCount(pods) >= Capacity.TargetReplicas(baseline, atRisk, spare, maxBuffer)
    requires Count(pods, ExposedOn(ToSet(nodes))) <= atRisk
    ensures SafeCount(pods, nodes) >= baseline
  {
    ReadySplits(pods, nodes);
    TargetWrapsIff(baseline, atRisk, spare, maxBuffer);
  }

  /** With exactly the target Ready and exactly `atRisk` exposed the window is SpareReady if
      and only if the buffer is unlimited or covers the pods at risk. */
  lemma TargetSufficesIff(pods: seq<Pod>, nodes: seq<string>, baseline: int32, atRisk: int32, spare: int32, maxBuffer: int32)
    requires baseline >= 0 && atRisk >= 0 && spare >= 0 && Ideal(baseline, atRisk, spare, maxBuffer) <= MAX_INT32
    requires ReadyCount(pods) == Capacity.TargetReplicas(baseline, atRisk, spare, maxBuffer)
    requires Count(pods, ExposedOn(ToSet(nodes))) == atRisk
    ensures SafeCount(pods, nodes) >= baseline <==> maxBuffer <= 0 || atRisk <= maxBuffer
  {
    ReadySplits(pods, nodes);
    TargetWrapsIff(baseline, atRisk, spare, maxBuffer);
  }
}
