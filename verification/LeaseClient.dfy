/** The Lease calls of one process (`src/lock.rs`) against a lease that other processes may write
    between any two of them. Safety over all interleavings is the subject of the protocol model. */
module LeaseClient {

  import opened Wrappers
  import opened Lease

  datatype Reply = Done | NotFound | Conflict | Failed

  datatype Attempt = Got | Held | ApiError

  datatype AcquireResult = Acquired | Busy | Kube

  /** The stored lease. Versions are never reused; `replaced` is what the last write found in its place.
      `faults` counts the calls that failed, and `intrusions` the writes and deletions by other processes. */
  class LeaseServer {
    var stored: Option<Stored>
    var nextVersion: nat
    ghost var replaced: Option<Stored>
    ghost var faults: nat
    ghost var intrusions: nat

    ghost predicate Valid()
      reads this
    {
      stored.Some? ==> stored.value.version < nextVersion
    }

    constructor ()
      ensures Valid() && stored == None
    {
      stored, nextVersion, replaced := None, 0, None;
      faults, intrusions := 0, 0;
    }

    /** Anything other processes do: nothing, deletions, or writes, each under a version of its own. */
    method Others()
      requires Valid()
      modifies this
      ensures Valid() && nextVersion >= old(nextVersion)
      ensures faults == old(faults) && intrusions >= old(intrusions)
      ensures stored == old(stored) || stored == None || stored.value.version >= old(nextVersion)
      ensures intrusions == old(intrusions) ==> stored == old(stored) && nextVersion == old(nextVersion)
    {
      var writes: bool := *;
      var deletes: bool := *;
      if writes {
        var spec: LeaseSpec := *;
        Put(spec);
        intrusions := intrusions + 1;
      }
      if deletes {
        stored := None;
        intrusions := intrusions + 1;
      }
    }

    method Put(spec: LeaseSpec)
      requires Valid()
      modifies this`stored, this`nextVersion, this`replaced
      ensures Valid() && nextVersion == old(nextVersion) + 1
      ensures stored == Some(Stored(spec, old(nextVersion))) && replaced == old(stored)
    {
      replaced := stored;
      stored := Some(Stored(spec, nextVersion));
      nextVersion := nextVersion + 1;
    }

    method Get() returns (reply: Reply, lease: Option<Stored>)
      modifies this`faults
      ensures faults == old(faults) + if reply == Failed then 1 else 0
      ensures reply == Done ==> lease.Some? && stored == lease
      ensures reply == NotFound ==> stored == None
      ensures reply != Conflict
    {
      var up: bool := *;
      reply := if !up then Failed else if stored.Some? then Done else NotFound;
      lease := if reply == Done then stored else None;
      faults := faults + if reply == Failed then 1 else 0;
    }

    /** Create succeeds where there is no lease. A lost answer leaves open whether it did. */
    method Create(spec: LeaseSpec) returns (reply: Reply)
      requires Valid()
      modifies this
      ensures Valid() && nextVersion >= old(nextVersion) && intrusions == old(intrusions)
      ensures faults == old(faults) + if reply == Failed then 1 else 0
      ensures reply == Done ==>
                old(stored).None? && stored == Some(Stored(spec, old(nextVersion))) && replaced == None
      ensures reply == Conflict ==> old(stored).Some? && unchanged(this)
      ensures reply != NotFound
    {
      var up: bool := *;
      var landed: bool := *;
      if stored.Some? {
        reply := if up then Conflict else Failed;
      } else {
        if up || landed {
          Put(spec);
        }
        reply := if up then Done else Failed;
      }
      faults := faults + if up then 0 else 1;
    }

    /** Replace succeeds at the version it names. */
    method Replace(spec: LeaseSpec, version: nat) returns (reply: Reply)
      requires Valid()
      modifies this
      ensures Valid() && nextVersion >= old(nextVersion) && intrusions == old(intrusions)
      ensures faults == old(faults) + if reply == Failed then 1 else 0
      ensures reply == Done ==>
                stored == Some(Stored(spec, old(nextVersion))) && replaced == old(stored)
                && replaced.Some? && replaced.value.version == version
      ensures reply == Conflict ==>
                old(stored).Some? && old(stored).value.version != version && unchanged(this)
      ensures reply == NotFound ==> old(stored).None? && unchanged(this)
    {
      var up: bool := *;
      var landed: bool := *;
      if stored.None? || stored.value.version != version {
        reply := if !up then Failed else if stored.None? then NotFound else Conflict;
      } else {
        if up || landed {
          Put(spec);
        }
        reply := if up then Done else Failed;
      }
      faults := faults + if up then 0 else 1;
    }

    /** Delete takes whatever lease there is. */
    method Delete() returns (reply: Reply)
      requires Valid()
      modifies this`stored, this`faults
      ensures Valid()
      ensures faults == old(faults) + if reply == Failed then 1 else 0
      ensures reply == Done ==> old(stored).Some? && stored == None
      ensures reply == NotFound ==> old(stored).None? && stored == None
      ensures reply != Conflict
      ensures stored == old(stored) || stored == None
    {
      var up: bool := *;
      var landed: bool := *;
      reply := if !up then Failed else if stored.Some? then Done else NotFound;
      if up || landed {
        stored := None;
      }
      faults := faults + if up then 0 else 1;
    }

    /** Whether there were failures or intrusions after these counts. */
    ghost predicate Since(faults: nat, intrusions: nat, calm: bool)
      reads this
    {
      && this.faults >= faults && this.intrusions >= intrusions
      && (calm <==> this.faults == faults && this.intrusions == intrusions)
    }

    /** No call failed, and no other process wrote or deleted the lease. */
    twostate predicate Undisturbed()
      reads this
    {
      faults == old(faults) && intrusions == old(intrusions)
    }
  }

  /** There is no lease, or one with positive seconds whose last renewal is at least that long ago. */
  predicate Takeable(stored: Option<Stored>, now: int) {
    stored.Some? ==>
      && stored.value.spec.durationSecs.Some? && stored.value.spec.durationSecs.value > 0
      && stored.value.spec.renewTime.Some?
      && stored.value.spec.renewTime.value + 1_000_000_000 * stored.value.spec.durationSecs.value <= now
  }

  /** The lease says that this holder renewed it at this time, and what it replaced was takeable by then. */
  ghost predicate TakenBy(server: LeaseServer, holder: string, secs: nat, now: int)
    reads server
  {
    && server.stored.Some?
    && server.stored.value.spec == LeaseSpec(Some(holder), Some(AsI32(secs)), Some(now))
    && Takeable(server.replaced, now)
  }

  /** One attempt. The clock is read before the lease, so a lease found stale is stale when replaced.
      Undisturbed, it takes the lease exactly when there is none or a stale one, and otherwise finds it held. */
  method TryAcquire(server: LeaseServer, holder: string, secs: nat, now: int) returns (outcome: Attempt)
    requires server.Valid()
    modifies server
    ensures server.Valid() && server.nextVersion >= old(server.nextVersion)
    ensures server.faults >= old(server.faults) && server.intrusions >= old(server.intrusions)
    ensures outcome == Got ==>
              TakenBy(server, holder, secs, now) && server.stored.value.version >= old(server.nextVersion)
    ensures server.Undisturbed() ==>
              && outcome == (if Takeable(old(server.stored), now) then Got else Held)
              && (outcome == Got ==> server.replaced == old(server.stored))
              && (outcome == Held ==> server.stored == old(server.stored))
  {
    server.Others();
    var reply, lease := server.Get();
    server.Others();
    if reply == Done {
      if !StaleAt(lease.value.spec, now) {
        return Held;
      }
      label Found:
      reply := server.Replace(BuildLease(holder, AsI32(secs), now), lease.value.version);
      assert reply == Done ==> server.replaced == old@Found(server.stored) == lease;
    } else if reply == NotFound {
      reply := server.Create(BuildLease(holder, AsI32(secs), now));
    } else {
      return ApiError;
    }
    outcome := if reply == Done then Got else if reply == Conflict then Held else ApiError;
  }

  /** A held lease. */
  class LeaseGuard {
    const holder: string
    var released: bool

    constructor (holder: string)
      ensures this.holder == holder && !released
    {
      this.holder := holder;
      released := false;
    }

    /** Delete the lease, the first time; a second release makes no call. */
    method Release(server: LeaseServer) returns (ok: bool)
      requires server.Valid()
      modifies this, server
      ensures server.Valid() && released
      ensures old(released) ==> unchanged(server)
      ensures ok <==> server.faults == old(server.faults)
      ensures !old(released) && ok ==> server.stored == None
      ensures server.stored == old(server.stored) || server.stored == None
    {
      if released {
        return true;
      }
      released := true;
      var reply := server.Delete();
      ok := reply != Failed;
    }

    /** Refresh the renew time. True means that the lease this renewal replaced was this holder's own.
        Undisturbed, it is true exactly when the stored lease is, and otherwise leaves it alone. */
    method Renew(server: LeaseServer, secs: nat, now: int) returns (kept: Option<bool>)
      requires server.Valid()
      modifies server
      ensures server.Valid()
      ensures kept == Some(true) ==>
                && server.stored.Some?
                && server.stored.value.spec == LeaseSpec(Some(holder), Some(AsI32(secs)), Some(now))
                && server.replaced.Some? && server.replaced.value.spec.holder == Some(holder)
      ensures kept.None? <==> server.faults > old(server.faults)
      ensures server.Undisturbed() ==>
                && kept == Some(old(server.stored).Some? && old(server.stored).value.spec.holder == Some(holder))
                && (kept == Some(false) ==> server.stored == old(server.stored))
    {
      server.Others();
      var reply, lease := server.Get();
      server.Others();
      if reply == NotFound {
        return Some(false);
      }
      if reply == Failed {
        return None;
      }
      if lease.value.spec.holder != Some(holder) {
        return Some(false);
      }
      reply := server.Replace(BuildLease(holder, AsI32(secs), now), lease.value.version);
      kept := if reply == Done then Some(true) else if reply == Failed then None else Some(false);
    }
  }

  /******* Waiting for the lease *******/

  const POLL_INTERVAL: nat := 500

  /** The times of one wait in milliseconds, as its environment decides them: how long each attempt takes,
      when the stop flag is seen, and how much longer than asked each pause lasts. */
  datatype WaitTimes = WaitTimes(
    timeout: nat,
    attemptTime: nat -> nat,
    stopBefore: nat -> bool,
    stopDuringPause: nat -> bool,
    oversleep: nat -> nat)
  {
    function Pause(now: nat): nat {
      if now >= timeout then 0 else if timeout - now < 500 then timeout - now else 500
    }

    /** Time since the start of the wait when attempt `i` begins. */
    function Start(i: nat): nat {
      if i == 0 then 0 else
      var before := attemptTime(i - 1) + Start(i - 1);
      before + Pause(before) + oversleep(i - 1)
    }

    /** Time since the start of the wait when attempt `i` has returned. */
    function Elapsed(i: nat): nat {
      attemptTime(i) + Start(i)
    }

    lemma {:induction false} StartGrows(i: nat)
      ensures Start(i) >= 500 * i || Start(i) >= timeout
    {
      if i > 0 {
        StartGrows(i - 1);
      }
    }

    /** The wait goes on after attempt `i`: it found the lease held, returned in time, and no stop is seen. */
    predicate GoesOn(o: Attempt, i: nat) {
      o == Held && Elapsed(i) < timeout && !stopDuringPause(i) && !stopBefore(i + 1)
    }
  }

  predicate KeptWaiting(times: WaitTimes, outcomes: seq<Attempt>) {
    forall i | 0 <= i < |outcomes| - 1 :: times.GoesOn(outcomes[i], i)
  }

  function Ending(o: Attempt): AcquireResult {
    match o
    case Got => Acquired
    case Held => Busy
    case ApiError => Kube
  }

  /** How a wait ends: all of its attempts but the last went on, and there are at most
      ceil(timeout / 500 ms) + 1. */
  predicate WaitEnds(times: WaitTimes, outcomes: seq<Attempt>, result: AcquireResult) {
    && KeptWaiting(times, outcomes)
    && |outcomes| <= (times.timeout + 499) / 500 + 1
    && (outcomes == [] <==> times.stopBefore(0))
    && (if outcomes == [] then result == Busy
        else
          var last := |outcomes| - 1;
          !times.GoesOn(outcomes[last], last) && result == Ending(outcomes[last]))
  }

  /** The wait may make another attempt, unless a stop is seen first. */
  predicate Waiting(times: WaitTimes, outcomes: seq<Attempt>) {
    && KeptWaiting(times, outcomes)
    && (outcomes != [] ==>
          var last := |outcomes| - 1;
          && !times.stopBefore(0) && outcomes[last] == Held
          && times.Elapsed(last) < times.timeout && !times.stopDuringPause(last))
  }

  lemma WaitingBound(times: WaitTimes, outcomes: seq<Attempt>)
    requires Waiting(times, outcomes)
    ensures 500 * |outcomes| < times.timeout + 500 || outcomes == []
    ensures |outcomes| <= (times.timeout + 499) / 500
  {
    if outcomes != [] {
      times.StartGrows(|outcomes| - 1);
    }
  }

  lemma WaitingStopped(times: WaitTimes, outcomes: seq<Attempt>)
    requires Waiting(times, outcomes) && times.stopBefore(|outcomes|)
    ensures WaitEnds(times, outcomes, Busy)
  {
    WaitingBound(times, outcomes);
  }

  lemma WaitingPush(times: WaitTimes, outcomes: seq<Attempt>, o: Attempt)
    requires Waiting(times, outcomes) && !times.stopBefore(|outcomes|)
    ensures var i := |outcomes|;
            if o == Held && times.Elapsed(i) < times.timeout && !times.stopDuringPause(i)
            then Waiting(times, outcomes + [o]) else WaitEnds(times, outcomes + [o], Ending(o))
  {
    WaitingBound(times, outcomes);
  }

  /** One attempt, and, if it found the lease held, in time and without a stop, the pause after it. */
  method TryAndPause(server: LeaseServer, holder: string, secs: nat, times: WaitTimes, clock: nat -> int, i: nat,
      start: nat)
    returns (outcome: Attempt, next: Option<nat>)
    requires server.Valid() && start == times.Start(i)
    modifies server
    ensures server.Valid()
    ensures server.faults >= old(server.faults) && server.intrusions >= old(server.intrusions)
    ensures outcome == Got ==> TakenBy(server, holder, secs, clock(i))
    ensures server.Undisturbed() ==> outcome == if Takeable(old(server.stored), clock(i)) then Got else Held
    ensures server.Undisturbed() && outcome == Held ==> server.stored == old(server.stored)
    ensures next.Some? <==> outcome == Held && times.Elapsed(i) < times.timeout && !times.stopDuringPause(i)
    ensures next.Some? ==> next.value == times.Start(i + 1)
  {
    outcome := TryAcquire(server, holder, secs, clock(i));
    var now := start + times.attemptTime(i);
    if outcome != Held || now >= times.timeout || times.stopDuringPause(i) {
      return outcome, None;
    }
    var pause := if times.timeout - now < POLL_INTERVAL then times.timeout - now else POLL_INTERVAL;
    next := Some(now + pause + times.oversleep(i));
  }

  /** How a wait on one unchanging lease ends: acquired at the first attempt at which it is takeable, and
      otherwise busy. */
  ghost predicate UndisturbedWait(stored: Option<Stored>, clock: nat -> int, attempts: nat, result: AcquireResult) {
    && result != Kube
    && (result == Acquired ==> attempts > 0 && Takeable(stored, clock(attempts - 1)))
    && (forall i | 0 <= i < attempts :: Takeable(stored, clock(i)) ==> result == Acquired && i == attempts - 1)
    && (stored.None? && attempts > 0 ==> result == Acquired && attempts == 1)
  }

  lemma UndisturbedNext(stored: Option<Stored>, clock: nat -> int, attempts: nat, outcome: Attempt)
    requires UndisturbedWait(stored, clock, attempts, Busy)
    requires outcome == if Takeable(stored, clock(attempts)) then Got else Held
    ensures UndisturbedWait(stored, clock, attempts + 1, Ending(outcome))
  {
  }

  /** Attempts are made until one does not find the lease held, the timeout has passed when an attempt
      returns, or a stop is seen: none when stopped at once, otherwise at least one, and never more
      than ceil(timeout / 500 ms) + 1. Undisturbed, the lease is acquired at the first attempt at which
      there is none or a stale one, and a busy end means that none was. */
  method Acquire(server: LeaseServer, holder: string, secs: nat, times: WaitTimes, clock: nat -> int)
    returns (result: AcquireResult, ghost outcomes: seq<Attempt>)
    requires server.Valid()
    modifies server
    ensures server.Valid()
    ensures WaitEnds(times, outcomes, result)
    ensures result == Acquired <==> outcomes != [] && outcomes[|outcomes| - 1] == Got
    ensures result == Kube <==> outcomes != [] && outcomes[|outcomes| - 1] == ApiError
    ensures result == Acquired ==> TakenBy(server, holder, secs, clock(|outcomes| - 1))
    ensures server.Undisturbed() ==> UndisturbedWait(old(server.stored), clock, |outcomes|, result)
    ensures server.Undisturbed() && old(server.stored).None? ==>
              (result == Acquired <==> !times.stopBefore(0)) && |outcomes| <= 1
  {
    outcomes := [];
    ghost var was, calm := server.stored, true;
    var made: nat, start: nat := 0, 0;
    while !times.stopBefore(made)
      invariant server.Valid() && start == times.Start(made)
      invariant made == |outcomes| && Waiting(times, outcomes)
      invariant server.Since(old(server.faults), old(server.intrusions), calm)
      invariant calm ==> server.stored == was && UndisturbedWait(was, clock, made, Busy)
      decreases times.timeout + 500 - 500 * made
    {
      WaitingBound(times, outcomes);
      ghost var faults, intrusions := server.faults, server.intrusions;
      var outcome, next := TryAndPause(server, holder, secs, times, clock, made, start);
      if calm && server.faults == faults && server.intrusions == intrusions {
        UndisturbedNext(was, clock, made, outcome);
      } else {
        calm := false;
      }
      WaitingPush(times, outcomes, outcome);
      outcomes := outcomes + [outcome];
      if next.None? {
        return Ending(outcome), outcomes;
      }
      WaitingBound(times, outcomes);
      made, start := made + 1, next.value;
    }
    WaitingStopped(times, outcomes);
    result := Busy;
  }
}
