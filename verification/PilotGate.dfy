/** The Hosted pilot policy and its integer arithmetic (apps/facilitator/pilot_gate.py). */
module PilotGate {
  import opened Wrappers

  const SECONDS_PER_UTC_DAY: nat := 86_400
  const WEI_PER_NATIVE_UNIT: nat := 1_000_000_000_000_000_000

  type Positive = n: int | 0 < n witness 1

  datatype PilotGatePolicy = PilotGatePolicy(
    nativeAssetUsdPriceCeilingMicros: Positive,
    maxInFlightPerNode: Positive,
    maxAcceptedPerNodeUtcDay: Positive,
    maxAcceptedPerNodeLifetime: Positive,
    maxGasUsdMicrosPerNodeUtcDay: Positive,
    maxGasUsdMicrosPlatformUtcDay: Positive)

  function UtcDay(timestamp: Positive): nat {
    timestamp / SECONDS_PER_UTC_DAY
  }

  /** Two readings share a UTC day exactly when no midnight, a multiple of 86400 seconds, lies between them. */
  lemma SameDayIff(a: Positive, b: Positive)
    requires a <= b
    ensures UtcDay(a) == UtcDay(b) <==> !exists midnight :: a < 86_400 * midnight <= b
  {
    if UtcDay(a) != UtcDay(b) {
      assert a < 86_400 * UtcDay(b) <= b;
    }
    forall midnight | a < 86_400 * midnight <= b ensures UtcDay(a) < midnight <= UtcDay(b) {
    }
  }

  datatype GasError = NotPositive

  /** The product of the three inputs, in wei times USD micro-units per native unit. */
  function NativeSpend(gasLimit: int, maxFeePerGasWei: int, priceCeilingMicros: int): (spend: int)
    ensures gasLimit >= 0 && maxFeePerGasWei >= 0 && priceCeilingMicros >= 0 ==> spend >= 0
  {
    gasLimit * maxFeePerGasWei * priceCeilingMicros
  }

  /** Python's ceiling division, on positive integers only. */
  function WorstCaseGasUsdMicros(gasLimit: int, maxFeePerGasWei: int, priceCeilingMicros: int):
    (cost: Result<nat, GasError>)
    ensures cost.Ok? <==> gasLimit > 0 && maxFeePerGasWei > 0 && priceCeilingMicros > 0
    // The charge is the least number of micro-units that covers the worst native spend.
    ensures cost.Ok? ==>
              var spend := gasLimit * maxFeePerGasWei * priceCeilingMicros;
              && cost.value > 0
              && (cost.value - 1) * 1_000_000_000_000_000_000 < spend <= cost.value * 1_000_000_000_000_000_000
  {
    if gasLimit <= 0 || maxFeePerGasWei <= 0 || priceCeilingMicros <= 0 then
      Err(NotPositive)
    else
      ProductPositive(gasLimit, maxFeePerGasWei, priceCeilingMicros);
      Ok((NativeSpend(gasLimit, maxFeePerGasWei, priceCeilingMicros) + WEI_PER_NATIVE_UNIT - 1) / WEI_PER_NATIVE_UNIT)
  }

  lemma ProductPositive(a: int, b: int, c: int)
    requires a > 0 && b > 0 && c > 0
    ensures NativeSpend(a, b, c) > 0
  {
    assert a * b > 0;
    assert (a * b) * c > 0;
  }
}
