/** The reconcile Lease of `src/lock.rs` on its own: what a lease says, when it is stale, and the
    identity its holder writes into it. Times are in nanoseconds. */
module Lease {

  import opened Wrappers
  import opened Text

  datatype LeaseSpec = LeaseSpec(holder: Option<string>, durationSecs: Option<int>, renewTime: Option<int>)

  /** A stored lease with the version the server gave its last write. */
  datatype Stored = Stored(spec: LeaseSpec, version: nat)

  const NANOS_PER_SEC: int := 1_000_000_000

  /** Unsigned seconds truncated to a signed 32-bit number, as the lease stores them. */
  function AsI32(secs: nat): (r: int)
    ensures -0x8000_0000 <= r <= 0x7fff_ffff
    ensures (r - secs) % 0x1_0000_0000 == 0
  {
    var low := secs % 0x1_0000_0000;
    if low >= 0x8000_0000 then low - 0x1_0000_0000 else low
  }

  predicate IsStale(renewTime: Option<int>, durationSecs: Option<int>, now: int) {
    match (durationSecs, renewTime)
    case (Some(secs), Some(renew)) => secs > 0 && now - renew >= 1_000_000_000 * secs
    case _ => false
  }

  function BuildLease(holder: string, durationSecs: int, now: int): LeaseSpec {
    LeaseSpec(Some(holder), Some(durationSecs), Some(now))
  }

  predicate StaleAt(l: LeaseSpec, now: int) {
    IsStale(l.renewTime, l.durationSecs, now)
  }

  /** Staleness never goes away as time passes. */
  lemma StaleMonotone(l: LeaseSpec, earlier: int, later: int)
    requires earlier <= later && StaleAt(l, earlier)
    ensures StaleAt(l, later)
  {
  }

  /** A lease built by a holder that stops renewing becomes stale at some time exactly when the
      configured seconds, cut to 32 bits, are positive; then it is stale from its last renewal plus
      that duration on, and at no time before. */
  lemma ReclaimableIff(holder: string, secs: nat, renew: int)
    ensures (exists now :: StaleAt(BuildLease(holder, AsI32(secs), renew), now))
            <==> 1 <= secs % 0x1_0000_0000 <= 0x7fff_ffff
    ensures 1 <= secs % 0x1_0000_0000 <= 0x7fff_ffff ==>
              forall now :: StaleAt(BuildLease(holder, AsI32(secs), renew), now)
                            <==> now >= renew + 1_000_000_000 * (secs % 0x1_0000_0000)
  {
    var low := secs % 0x1_0000_0000;
    if 1 <= low <= 0x7fff_ffff {
      assert StaleAt(BuildLease(holder, AsI32(secs), renew), renew + 1_000_000_000 * low);
    }
  }
}
