/** Many processes competing for one Lease, as interleaved steps. Every request to the API server may
    be delayed, lost, or answered without the answer arriving; a delayed one may still take effect long
    after its sender gave up or crashed. */
module LeaseProtocol {

  import opened Wrappers
  import opened Lease

  /******* Processes, requests and the global state *******/

  /** One entry per process: its holder identity, its configured lease seconds as stored, and how far
      its clock is ahead of the reference clock. No clock is more than `maxSkew` ahead. */
  datatype Params = Params(holders: seq<string>, durations: seq<int>, skews: seq<int>, maxSkew: int) {
    predicate Valid() {
      && |holders| == |durations| == |skews|
      && (forall p, q | 0 <= p < q < |holders| :: holders[p] != holders[q])
      && (forall p | 0 <= p < |skews| :: skews[p] <= maxSkew)
    }
  }

  /** Where a process is. `now` is a clock reading, `v` the version a get returned, `id` the request it
      waits for. */
  datatype Pc =
    | Idle
    | Timed(now: int)                    // attempt: clock read, get not yet answered
    | WantCreate(now: int)               // attempt: no lease seen
    | WantReplace(v: nat, now: int)      // attempt: stale lease seen
    | Creating(id: nat, now: int)        // attempt: waiting for the create
    | Replacing(id: nat, v: nat, now: int) // attempt: waiting for the replace
    | Granted                            // attempt: took effect, answer under way
    | Held                               // guard live, between lease calls
    | RenewSeen(v: nat)                  // renew: own lease seen
    | RenewTimed(v: nat, now: int)       // renew: clock read
    | Renewing(id: nat, v: nat, now: int) // renew: waiting for the replace
    | Releasing(id: nat)                 // release: waiting for the delete

  datatype Request =
    | Create(id: nat, p: nat, now: int)
    | Replace(id: nat, p: nat, v: nat, now: int, renewal: bool)
    | Delete(id: nat, p: nat)

  /** A write or a delete of process `p` that took effect. */
  datatype Entry = Wrote(p: nat) | Erased(p: nat)

  /** `net` holds the undelivered requests. The last four components record history: the renew time of
      each process's last effective write, the writes and deletes that took effect, and for each process
      the length of that log and the version when its latest attempt took effect. */
  datatype State = State(
    clock: int,
    store: Option<Stored>,
    nextVersion: nat,
    nextId: nat,
    pcs: seq<Pc>,
    net: set<Request>,
    renewed: seq<int>,
    log: seq<Entry>,
    grantedAt: seq<nat>,
    grantVersion: seq<nat>)

  predicate Shaped(c: Params, s: State) {
    && |s.pcs| == |s.renewed| == |s.grantedAt| == |s.grantVersion| == |c.holders|
    && (forall r | r in s.net :: r.p < |c.holders| && r.id < s.nextId)
  }

  predicate Init(c: Params, s: State) {
    && Shaped(c, s)
    && s.net == {} && s.log == []
    && (forall p | 0 <= p < |s.pcs| :: s.grantedAt[p] == 0)
    && (forall p | 0 <= p < |s.pcs| :: s.pcs[p] == Idle)
    && (s.store.Some? ==> s.store.value.version < s.nextVersion)
  }

  /** A guard exists, or will as soon as the answer arrives. */
  predicate InSession(pc: Pc) {
    pc.Granted? || IsLive(pc)
  }

  predicate IsLive(pc: Pc) {
    pc.Held? || pc.RenewSeen? || pc.RenewTimed? || pc.Renewing? || pc.Releasing?
  }

  function LeaseOf(c: Params, p: nat, now: int): LeaseSpec
    requires p < |c.holders| == |c.durations|
  {
    BuildLease(c.holders[p], c.durations[p], now)
  }

  /******* Steps *******/

  /** A write of process `p` takes effect. */
  function Written(c: Params, s: State, p: nat, now: int): State
    requires Shaped(c, s) && c.Valid() && p < |s.pcs|
  {
    s.(store := Some(Stored(LeaseOf(c, p, now), s.nextVersion)),
       nextVersion := s.nextVersion + 1,
       renewed := s.renewed[p := now],
       log := s.log + [Wrote(p)])
  }

  function Goto(s: State, p: nat, pc: Pc): State
    requires p < |s.pcs|
  {
    s.(pcs := s.pcs[p := pc])
  }

  /** Process `p` sends a request and waits for its answer. */
  function Send(s: State, p: nat, pc: Pc, r: Request): State
    requires p < |s.pcs|
  {
    Goto(s, p, pc).(net := s.net + {r}, nextId := s.nextId + 1)
  }

  /** The attempt of process `p` has just taken effect. */
  function Grant(s: State, p: nat): State
    requires p < |s.pcs| == |s.grantedAt| == |s.grantVersion| && s.nextVersion > 0
  {
    Goto(s, p, Granted).(grantedAt := s.grantedAt[p := |s.log|],
                         grantVersion := s.grantVersion[p := s.nextVersion - 1])
  }

  /** A delete of process `p` takes effect on whatever lease there is. */
  function Erase(s: State, p: nat): State {
    if s.store.Some? then s.(store := None, log := s.log + [Erased(p)]) else s
  }

  /** The server handles one request: a create only without a lease, a replace only on the version it
      names, a delete always. The sender learns the outcome only if it still waits for this very request. */
  function Deliver(c: Params, s: State, r: Request): State
    requires Shaped(c, s) && c.Valid() && r in s.net
  {
    var s1 := s.(net := s.net - {r});
    match r
    case Create(id, p, now) =>
      var waiting := s.pcs[p] == Creating(id, now);
      if s.store.None? then
        var s2 := Written(c, s1, p, now);
        if waiting then Grant(s2, p) else s2
      else if waiting then Goto(s1, p, Idle) else s1
    case Replace(id, p, v, now, renewal) =>
      var waiting := s.pcs[p] == if renewal then Renewing(id, v, now) else Replacing(id, v, now);
      if s.store.Some? && s.store.value.version == v then
        var s2 := Written(c, s1, p, now);
        if !waiting then s2 else if renewal then Goto(s2, p, Held) else Grant(s2, p)
      else if waiting then Goto(s1, p, if renewal then Held else Idle) else s1
    case Delete(id, p) =>
      var s2 := Erase(s1, p);
      if s.pcs[p] == Releasing(id) then Goto(s2, p, Idle) else s2
  }

  /** The get of an attempt. */
  function AfterGet(s: State, now: int): Pc {
    match s.store
    case None => WantCreate(now)
    case Some(l) => if StaleAt(l.spec, now) then WantReplace(l.version, now) else Idle
  }

  /** The get of a renewal. */
  function AfterRenewGet(c: Params, s: State, p: nat): Pc
    requires p < |c.holders|
  {
    match s.store
    case Some(l) => if l.spec.holder == Some(c.holders[p]) then RenewSeen(l.version) else Held
    case None => Held
  }

  datatype Action =
    | Tick(clock: int)
    | Lose(r: Request)
    | Arrive(r: Request)
    | Proc(p: nat, act: ProcAction)

  datatype ProcAction =
    | ReadClock
    | Get
    | SendCreate
    | SendReplace
    | ReceiveGrant
    | RenewGet
    | RenewReadClock
    | SendRenewal
    | RenewFails      // an API error or a lost answer; the pass goes on
    | SendDelete
    | Abandon         // an error, shutdown or crash

  predicate Enabled(c: Params, s: State, a: Action)
    requires Shaped(c, s)
  {
    match a
    case Tick(clock) => clock >= s.clock
    case Lose(r) => r in s.net
    case Arrive(r) => r in s.net
    case Proc(p, act) =>
      && p < |s.pcs|
      && var pc := s.pcs[p];
         match act
         case ReadClock => pc.Idle?
         case Get => pc.Timed?
         case SendCreate => pc.WantCreate?
         case SendReplace => pc.WantReplace?
         case ReceiveGrant => pc.Granted?
         case RenewGet => pc.Held?
         case RenewReadClock => pc.RenewSeen?
         case SendRenewal => pc.RenewTimed?
         case RenewFails => pc.RenewSeen? || pc.RenewTimed? || pc.Renewing?
         case SendDelete => pc.Held?
         case Abandon => !pc.Idle?
  }

  function Apply(c: Params, s: State, a: Action): State
    requires Shaped(c, s) && c.Valid() && Enabled(c, s, a)
  {
    match a
    case Tick(clock) => s.(clock := clock)
    case Lose(r) => s.(net := s.net - {r})
    case Arrive(r) => Deliver(c, s, r)
    case Proc(p, act) =>
      var pc := s.pcs[p];
      match act
      case ReadClock => Goto(s, p, Timed(s.clock + c.skews[p]))
      case Get => Goto(s, p, AfterGet(s, pc.now))
      case SendCreate => Send(s, p, Creating(s.nextId, pc.now), Create(s.nextId, p, pc.now))
      case SendReplace =>
        Send(s, p, Replacing(s.nextId, pc.v, pc.now), Replace(s.nextId, p, pc.v, pc.now, false))
      case ReceiveGrant => Goto(s, p, Held)
      case RenewGet => Goto(s, p, AfterRenewGet(c, s, p))
      case RenewReadClock => Goto(s, p, RenewTimed(pc.v, s.clock + c.skews[p]))
      case SendRenewal =>
        Send(s, p, Renewing(s.nextId, pc.v, pc.now), Replace(s.nextId, p, pc.v, pc.now, true))
      case RenewFails => Goto(s, p, Held)
      case SendDelete => Send(s, p, Releasing(s.nextId), Delete(s.nextId, p))
      case Abandon => Goto(s, p, Idle)
  }

  /** A finite run: a start state and the actions taken from it. */
  predicate IsRun(c: Params, states: seq<State>, actions: seq<Action>) {
    && c.Valid()
    && |states| == |actions| + 1
    && Init(c, states[0])
    && (forall i | 0 <= i < |states| :: Shaped(c, states[i]))
    && (forall i | 0 <= i < |actions| ::
          Enabled(c, states[i], actions[i]) && states[i + 1] == Apply(c, states[i], actions[i]))
  }

  /******* Versions: what every run keeps, with no timing assumption *******/

  /** A version seen by a renewal belongs to the renewing process as long as it is current. */
  predicate OwnVersion(c: Params, s: State, p: nat, v: nat)
    requires p < |c.holders|
  {
    && v < s.nextVersion
    && (s.store.Some? && s.store.value.version == v ==> s.store.value.spec.holder == Some(c.holders[p]))
  }

  predicate ProcVersions(c: Params, s: State, p: nat)
    requires Shaped(c, s) && p < |s.pcs|
  {
    && s.grantedAt[p] <= |s.log|
    && match s.pcs[p]
       case WantReplace(v, _) => v < s.nextVersion
       case Replacing(_, v, _) => v < s.nextVersion
       case RenewSeen(v) => OwnVersion(c, s, p, v)
       case RenewTimed(v, _) => OwnVersion(c, s, p, v)
       case Renewing(_, v, _) => OwnVersion(c, s, p, v)
       case _ => true
  }

  predicate RequestVersions(c: Params, s: State, r: Request)
    requires Shaped(c, s) && r.p < |s.pcs|
  {
    match r
    case Create(_, _, _) => true
    case Delete(_, _) => true
    case Replace(_, p, v, _, renewal) =>
      if renewal then OwnVersion(c, s, p, v)
      else v < s.nextVersion && (InSession(s.pcs[p]) ==> v < s.grantVersion[p])
  }

  /** The current version is never older than the one a process in session was granted. */
  predicate VersionInv(c: Params, s: State)
    requires Shaped(c, s)
  {
    && (s.store.Some? ==> s.store.value.version < s.nextVersion)
    && (forall p | 0 <= p < |s.pcs| :: ProcVersions(c, s, p))
    && (forall r | r in s.net :: RequestVersions(c, s, r))
    && (forall p | 0 <= p < |s.pcs| && InSession(s.pcs[p]) ::
          s.grantVersion[p] < s.nextVersion
          && (s.store.Some? ==> s.grantVersion[p] <= s.store.value.version))
  }

  lemma ShapedKept(c: Params, s: State, a: Action)
    requires Shaped(c, s) && c.Valid() && Enabled(c, s, a)
    ensures Shaped(c, Apply(c, s, a))
  {
  }

  lemma VersionInvInit(c: Params, s: State)
    requires Init(c, s)
    ensures VersionInv(c, s)
  {
  }

  lemma DeliverKeepsProc(c: Params, s: State, r: Request, p: nat)
    requires Shaped(c, s) && c.Valid() && r in s.net && VersionInv(c, s) && p < |s.pcs|
    ensures ProcVersions(c, Deliver(c, s, r), p)
  {
    assert RequestVersions(c, s, r) && ProcVersions(c, s, p);
  }

  lemma DeliverKeepsRequest(c: Params, s: State, r: Request, q: Request)
    requires Shaped(c, s) && c.Valid() && r in s.net && VersionInv(c, s) && q in s.net
    ensures RequestVersions(c, Deliver(c, s, r), q)
  {
    assert RequestVersions(c, s, r) && RequestVersions(c, s, q);
  }

  lemma VersionInvDeliver(c: Params, s: State, r: Request)
    requires Shaped(c, s) && c.Valid() && r in s.net && VersionInv(c, s)
    ensures VersionInv(c, Deliver(c, s, r))
  {
    var s' := Deliver(c, s, r);
    forall p | 0 <= p < |s.pcs|
      ensures ProcVersions(c, s', p)
    {
      DeliverKeepsProc(c, s, r, p);
    }
    forall q | q in s'.net
      ensures RequestVersions(c, s', q)
    {
      DeliverKeepsRequest(c, s, r, q);
    }
    assert s'.nextVersion >= s.nextVersion;
  }

  lemma ActionKeepsProc(c: Params, s: State, p: nat, act: ProcAction, q: nat)
    requires Shaped(c, s) && c.Valid() && Enabled(c, s, Proc(p, act)) && VersionInv(c, s) && q < |s.pcs|
    ensures ProcVersions(c, Apply(c, s, Proc(p, act)), q)
  {
    assert ProcVersions(c, s, p) && ProcVersions(c, s, q);
  }

  lemma ActionKeepsRequest(c: Params, s: State, p: nat, act: ProcAction, r: Request)
    requires Shaped(c, s) && c.Valid() && Enabled(c, s, Proc(p, act)) && VersionInv(c, s)
    requires r in Apply(c, s, Proc(p, act)).net
    ensures RequestVersions(c, Apply(c, s, Proc(p, act)), r)
  {
    assert ProcVersions(c, s, p);
    if r in s.net {
      assert RequestVersions(c, s, r);
    }
  }

  lemma VersionInvProc(c: Params, s: State, p: nat, act: ProcAction)
    requires Shaped(c, s) && c.Valid() && Enabled(c, s, Proc(p, act)) && VersionInv(c, s)
    ensures VersionInv(c, Apply(c, s, Proc(p, act)))
  {
    var s' := Apply(c, s, Proc(p, act));
    forall q | 0 <= q < |s.pcs|
      ensures ProcVersions(c, s', q)
    {
      ActionKeepsProc(c, s, p, act, q);
    }
    forall r | r in s'.net
      ensures RequestVersions(c, s', r)
    {
      ActionKeepsRequest(c, s, p, act, r);
    }
    assert s'.nextVersion == s.nextVersion && s'.grantVersion == s.grantVersion;
  }

  lemma VersionInvStep(c: Params, s: State, a: Action)
    requires Shaped(c, s) && c.Valid() && Enabled(c, s, a) && VersionInv(c, s)
    ensures VersionInv(c, Apply(c, s, a))
  {
    match a
    case Tick(_) =>
      var s' := Apply(c, s, a);
      assert forall p | 0 <= p < |s.pcs| :: ProcVersions(c, s, p) ==> ProcVersions(c, s', p);
      assert forall r | r in s.net :: RequestVersions(c, s, r) ==> RequestVersions(c, s', r);
    case Lose(lost) =>
      var s' := Apply(c, s, a);
      assert forall p | 0 <= p < |s.pcs| :: ProcVersions(c, s, p) ==> ProcVersions(c, s', p);
      assert forall r | r in s'.net :: RequestVersions(c, s, r) ==> RequestVersions(c, s', r);
    case Arrive(r) => VersionInvDeliver(c, s, r);
    case Proc(p, act) => VersionInvProc(c, s, p, act);
  }

  lemma {:induction false} VersionInvRun(c: Params, states: seq<State>, actions: seq<Action>, i: nat)
    requires IsRun(c, states, actions) && i < |states|
    ensures VersionInv(c, states[i])
  {
    if i == 0 {
      VersionInvInit(c, states[0]);
    } else {
      VersionInvRun(c, states, actions, i - 1);
      VersionInvStep(c, states[i - 1], actions[i - 1]);
    }
  }

  lemma StepKeepsVersion(c: Params, s: State, a: Action)
    requires Shaped(c, s) && c.Valid() && Enabled(c, s, a) && VersionInv(c, s)
    ensures var t := Apply(c, s, a);
            && s.nextVersion <= t.nextVersion
            && (t.store.Some? && t.store != s.store ==> t.store.value.version == s.nextVersion)
  {
  }

  /** A version is never given to two writes: whenever it is current, the lease is the same. */
  lemma {:induction false} VersionNamesOneWrite(c: Params, states: seq<State>, actions: seq<Action>, i: nat, j: nat)
    requires IsRun(c, states, actions) && i <= j < |states|
    requires states[i].store.Some?
    ensures states[i].nextVersion <= states[j].nextVersion
    ensures states[j].store.Some? && states[j].store.value.version == states[i].store.value.version ==>
              states[j].store == states[i].store
    decreases j - i
  {
    VersionInvRun(c, states, actions, i);
    if i < j {
      VersionNamesOneWrite(c, states, actions, i, j - 1);
      VersionInvRun(c, states, actions, j - 1);
      StepKeepsVersion(c, states[j - 1], actions[j - 1]);
    }
  }

  /******* Exclusion *******/

  /** The last effective write of `p` is not yet `durations[p]` old on any clock. */
  predicate Fresh(c: Params, s: State, p: nat)
    requires Shaped(c, s) && c.Valid() && p < |s.pcs|
  {
    !StaleAt(LeaseOf(c, p, s.renewed[p]), s.clock + c.maxSkew)
  }

  /** The timing assumption: no live guard lets its lease grow as old as its duration. */
  predicate Timely(c: Params, s: State)
    requires Shaped(c, s) && c.Valid()
  {
    forall p | 0 <= p < |s.pcs| && IsLive(s.pcs[p]) :: Fresh(c, s, p)
  }

  predicate HoldsLease(c: Params, s: State, p: nat)
    requires Shaped(c, s) && c.Valid() && p < |s.pcs|
  {
    s.store.Some? && s.store.value.spec == LeaseOf(c, p, s.renewed[p])
  }

  /** A version is to be replaced only on the evidence of a reading at which it was stale. */
  predicate StaleEvidence(c: Params, s: State, v: nat, now: int) {
    && now <= s.clock + c.maxSkew
    && (s.store.Some? && s.store.value.version == v ==> StaleAt(s.store.value.spec, now))
  }

  predicate ProcEvidence(c: Params, s: State, p: nat)
    requires Shaped(c, s) && c.Valid() && p < |s.pcs|
  {
    && (InSession(s.pcs[p]) && Fresh(c, s, p) ==> HoldsLease(c, s, p))
    && match s.pcs[p]
       case Timed(now) => now <= s.clock + c.maxSkew
       case WantReplace(v, now) => StaleEvidence(c, s, v, now)
       case Replacing(_, v, now) => StaleEvidence(c, s, v, now)
       case _ => true
  }

  predicate RequestEvidence(c: Params, s: State, r: Request) {
    r.Replace? && !r.renewal ==> StaleEvidence(c, s, r.v, r.now)
  }

  predicate FreshInv(c: Params, s: State)
    requires Shaped(c, s) && c.Valid()
  {
    && (forall p | 0 <= p < |s.pcs| :: ProcEvidence(c, s, p))
    && (forall r | r in s.net :: RequestEvidence(c, s, r))
  }

  /** The server accepts the request. */
  predicate TakesEffect(s: State, r: Request) {
    match r
    case Create(_, _, _) => s.store.None?
    case Replace(_, _, v, _, _) => s.store.Some? && s.store.value.version == v
    case Delete(_, _) => s.store.Some?
  }

  /** While a process in session is fresh, no other process can write. */
  lemma FreshShieldsLease(c: Params, s: State, p: nat, r: Request)
    requires Shaped(c, s) && c.Valid() && p < |s.pcs| && r in s.net
    requires VersionInv(c, s) && FreshInv(c, s)
    requires InSession(s.pcs[p]) && Fresh(c, s, p)
    requires !r.Delete? && TakesEffect(s, r)
    ensures r.Replace? && r.renewal && r.p == p
  {
    assert ProcEvidence(c, s, p) && RequestVersions(c, s, r) && RequestEvidence(c, s, r);
  }


  lemma RefusedKeepsEvidence(c: Params, s: State, r: Request, p: nat)
    requires Shaped(c, s) && c.Valid() && r in s.net && p < |s.pcs| && !TakesEffect(s, r)
    requires ProcEvidence(c, s, p)
    ensures ProcEvidence(c, Deliver(c, s, r), p)
  {
    var s' := Deliver(c, s, r);
    assert s'.store == s.store && s'.renewed == s.renewed;
  }

  lemma WriteKeepsEvidence(c: Params, s: State, r: Request, p: nat)
    requires Shaped(c, s) && c.Valid() && r in s.net && p < |s.pcs| && TakesEffect(s, r) && !r.Delete?
    requires VersionInv(c, s) && FreshInv(c, s)
    ensures ProcEvidence(c, Deliver(c, s, r), p)
  {
    var s' := Deliver(c, s, r);
    assert s'.store == Some(Stored(LeaseOf(c, r.p, r.now), s.nextVersion));
    assert ProcEvidence(c, s, p) && ProcVersions(c, s, p);
    if r.p == p {
      assert s'.renewed[p] == r.now;
    } else {
      assert s'.pcs[p] == s.pcs[p] && s'.renewed[p] == s.renewed[p];
      if InSession(s.pcs[p]) && Fresh(c, s, p) {
        FreshShieldsLease(c, s, p, r);
      }
    }
  }

  /** A fresh process in session. */
  predicate HasFreshSession(c: Params, s: State)
    requires Shaped(c, s) && c.Valid()
  {
    exists q | 0 <= q < |s.pcs| :: InSession(s.pcs[q]) && Fresh(c, s, q)
  }

  /** A delete whose sender no longer waits for it takes the lease of a fresh process in session. */
  predicate StrayDelete(c: Params, s: State, a: Action)
    requires Shaped(c, s) && c.Valid()
  {
    && a.Arrive? && a.r in s.net && a.r.Delete?
    && s.pcs[a.r.p] != Releasing(a.r.id)
    && HasFreshSession(c, s)
  }

  /** A guard waiting for its own delete is alone: nobody else is fresh in session. */
  lemma ReleaserAlone(c: Params, s: State, p: nat, q: nat)
    requires Shaped(c, s) && c.Valid() && p < |s.pcs| && q < |s.pcs| && p != q
    requires FreshInv(c, s) && Timely(c, s) && IsLive(s.pcs[p])
    ensures !(InSession(s.pcs[q]) && Fresh(c, s, q))
  {
    assert ProcEvidence(c, s, p) && ProcEvidence(c, s, q);
    assert c.holders[p] != c.holders[q];
  }

  lemma DeleteKeepsEvidence(c: Params, s: State, r: Request, p: nat)
    requires Shaped(c, s) && c.Valid() && r in s.net && p < |s.pcs| && r.Delete?
    requires FreshInv(c, s) && Timely(c, s) && !StrayDelete(c, s, Arrive(r))
    ensures ProcEvidence(c, Deliver(c, s, r), p)
  {
    assert ProcEvidence(c, s, p);
    if s.pcs[r.p] == Releasing(r.id) && p != r.p {
      ReleaserAlone(c, s, r.p, p);
    }
  }

  lemma FreshInvDeliver(c: Params, s: State, r: Request)
    requires Shaped(c, s) && c.Valid() && r in s.net
    requires VersionInv(c, s) && FreshInv(c, s) && Timely(c, s) && !StrayDelete(c, s, Arrive(r))
    ensures FreshInv(c, Deliver(c, s, r))
  {
    var s' := Deliver(c, s, r);
    forall p | 0 <= p < |s.pcs|
      ensures ProcEvidence(c, s', p)
    {
      assert ProcEvidence(c, s, p);
      if r.Delete? {
        DeleteKeepsEvidence(c, s, r, p);
      } else if TakesEffect(s, r) {
        WriteKeepsEvidence(c, s, r, p);
      } else {
        RefusedKeepsEvidence(c, s, r, p);
      }
    }
    DeliverKeepsRequestEvidence(c, s, r);
  }

  lemma DeliverKeepsRequestEvidence(c: Params, s: State, r: Request)
    requires Shaped(c, s) && c.Valid() && r in s.net
    requires VersionInv(c, s) && FreshInv(c, s)
    ensures forall q | q in Deliver(c, s, r).net :: RequestEvidence(c, Deliver(c, s, r), q)
  {
    var s' := Deliver(c, s, r);
    forall q | q in s'.net
      ensures RequestEvidence(c, s', q)
    {
      assert RequestEvidence(c, s, q) && RequestVersions(c, s, q);
    }
  }

  lemma ActionKeepsEvidence(c: Params, s: State, p: nat, act: ProcAction, q: nat)
    requires Shaped(c, s) && c.Valid() && Enabled(c, s, Proc(p, act)) && q < |s.pcs|
    requires VersionInv(c, s) && FreshInv(c, s)
    ensures ProcEvidence(c, Apply(c, s, Proc(p, act)), q)
  {
    assert ProcEvidence(c, s, p) && ProcEvidence(c, s, q);
  }

  lemma FreshInvProc(c: Params, s: State, p: nat, act: ProcAction)
    requires Shaped(c, s) && c.Valid() && Enabled(c, s, Proc(p, act))
    requires VersionInv(c, s) && FreshInv(c, s)
    ensures FreshInv(c, Apply(c, s, Proc(p, act)))
  {
    var s' := Apply(c, s, Proc(p, act));
    assert ProcEvidence(c, s, p);
    forall q | 0 <= q < |s.pcs|
      ensures ProcEvidence(c, s', q)
    {
      ActionKeepsEvidence(c, s, p, act, q);
    }
    forall r | r in s'.net
      ensures RequestEvidence(c, s', r)
    {
      if r in s.net {
        assert RequestEvidence(c, s, r);
      }
    }
  }

  lemma FreshInvStep(c: Params, s: State, a: Action)
    requires Shaped(c, s) && c.Valid() && Enabled(c, s, a)
    requires VersionInv(c, s) && FreshInv(c, s) && Timely(c, s) && !StrayDelete(c, s, a)
    ensures FreshInv(c, Apply(c, s, a))
  {
    match a
    case Tick(_) =>
      var s' := Apply(c, s, a);
      forall p | 0 <= p < |s.pcs|
        ensures ProcEvidence(c, s', p)
      {
        assert ProcEvidence(c, s, p);
      }
      assert forall r | r in s.net :: RequestEvidence(c, s, r) ==> RequestEvidence(c, s', r);
    case Lose(_) =>
      var s' := Apply(c, s, a);
      assert forall p | 0 <= p < |s.pcs| :: ProcEvidence(c, s, p) ==> ProcEvidence(c, s', p);
      assert forall r | r in s'.net :: RequestEvidence(c, s, r) ==> RequestEvidence(c, s', r);
    case Arrive(r) => FreshInvDeliver(c, s, r);
    case Proc(p, act) => FreshInvProc(c, s, p, act);
  }

  /** At most one guard is live, and the stored lease is its own. */
  predicate Exclusive(c: Params, s: State)
    requires Shaped(c, s) && c.Valid()
  {
    && (forall p, q | 0 <= p < q < |s.pcs| :: !(IsLive(s.pcs[p]) && IsLive(s.pcs[q])))
    && (forall p | 0 <= p < |s.pcs| && IsLive(s.pcs[p]) :: HoldsLease(c, s, p))
  }

  /** Of the processes in session at most one is fresh, and the stored lease is its own. */
  predicate SessionsExclusive(c: Params, s: State)
    requires Shaped(c, s) && c.Valid()
  {
    forall p | 0 <= p < |s.pcs| && InSession(s.pcs[p]) && Fresh(c, s, p) :: HoldsLease(c, s, p)
  }

  lemma {:induction false} FreshInvRun(c: Params, states: seq<State>, actions: seq<Action>, i: nat)
    requires IsRun(c, states, actions) && i < |states|
    requires forall j | 0 <= j < i :: Timely(c, states[j]) && !StrayDelete(c, states[j], actions[j])
    ensures FreshInv(c, states[i])
  {
    if i > 0 {
      FreshInvRun(c, states, actions, i - 1);
      VersionInvRun(c, states, actions, i - 1);
      FreshInvStep(c, states[i - 1], actions[i - 1]);
    }
  }

  lemma FreshInvExcludes(c: Params, s: State)
    requires Shaped(c, s) && c.Valid() && FreshInv(c, s)
    ensures SessionsExclusive(c, s)
    ensures Timely(c, s) ==> Exclusive(c, s)
  {
    forall p | 0 <= p < |s.pcs| && InSession(s.pcs[p]) && Fresh(c, s, p)
      ensures HoldsLease(c, s, p)
    {
      assert ProcEvidence(c, s, p);
    }
  }

  /** Exclusion: for any number of processes and any interleaving, if no live guard ever lets its lease
      grow as old as its duration, and no delete of a given-up release takes a fresh lease, at most one
      guard is ever live and the stored lease is its own. */
  lemma Exclusion(c: Params, states: seq<State>, actions: seq<Action>, i: nat)
    requires IsRun(c, states, actions) && i < |states|
    requires forall j | 0 <= j <= i :: Timely(c, states[j])
    requires forall j | 0 <= j < i :: !StrayDelete(c, states[j], actions[j])
    ensures Exclusive(c, states[i])
  {
    FreshInvRun(c, states, actions, i);
    FreshInvExcludes(c, states[i]);
  }

  lemma StrayDeleteBreaks(c: Params, s: State, a: Action)
    requires Shaped(c, s) && c.Valid() && Enabled(c, s, a) && StrayDelete(c, s, a)
    ensures Shaped(c, Apply(c, s, a)) && !SessionsExclusive(c, Apply(c, s, a))
  {
    var q :| 0 <= q < |s.pcs| && InSession(s.pcs[q]) && Fresh(c, s, q);
    var t := Apply(c, s, a);
    assert InSession(t.pcs[q]) && Fresh(c, t, q) && !HoldsLease(c, t, q);
  }

  /** In a timely run the deletes of given-up releases are the one thing that decides exclusion. */
  lemma ExclusionIff(c: Params, states: seq<State>, actions: seq<Action>, n: nat)
    requires IsRun(c, states, actions) && n < |states|
    requires forall j | 0 <= j <= n :: Timely(c, states[j])
    ensures (forall j | 0 <= j <= n :: SessionsExclusive(c, states[j]))
            <==> (forall j | 0 <= j < n :: !StrayDelete(c, states[j], actions[j]))
  {
    if j :| 0 <= j < n && StrayDelete(c, states[j], actions[j]) {
      StrayDeleteBreaks(c, states[j], actions[j]);
      assert !SessionsExclusive(c, states[j + 1]);
    } else {
      forall j | 0 <= j <= n ensures SessionsExclusive(c, states[j]) {
        FreshInvRun(c, states, actions, j);
        FreshInvExcludes(c, states[j]);
      }
    }
  }

  /******* Loss of the lease is detected *******/

  /** Since the attempt of `p` took effect, another process wrote the lease, or it was deleted. */
  predicate Disturbed(s: State, p: nat)
    requires p < |s.grantedAt|
  {
    exists i | s.grantedAt[p] <= i < |s.log| :: s.log[i] != Wrote(p)
  }

  /** There is no lease, or it names another holder. */
  predicate Lost(c: Params, s: State, p: nat)
    requires p < |c.holders|
  {
    s.store.Some? ==> s.store.value.spec.holder != Some(c.holders[p])
  }

  /** A create of an earlier, given-up attempt of `p` finds no lease while `p` is in session. */
  predicate LeftoverLands(s: State, a: Action, p: nat)
    requires p < |s.pcs|
  {
    a.Arrive? && a.r in s.net && a.r.Create? && a.r.p == p && InSession(s.pcs[p]) && s.store.None?
  }

  lemma DisturbedAfterEntry(s: State, t: State, p: nat, e: Entry)
    requires p < |s.grantedAt| && p < |t.grantedAt| && t.grantedAt[p] == s.grantedAt[p] && t.log == s.log + [e]
    requires s.grantedAt[p] <= |s.log|
    ensures Disturbed(t, p) <==> Disturbed(s, p) || e != Wrote(p)
  {
    assert t.log[|s.log|] == e;
    if Disturbed(s, p) {
      var i :| s.grantedAt[p] <= i < |s.log| && s.log[i] != Wrote(p);
      assert t.log[i] != Wrote(p);
    }
  }

  lemma SameLogSameDisturbance(s: State, t: State, p: nat)
    requires p < |s.grantedAt| && p < |t.grantedAt| && t.grantedAt[p] == s.grantedAt[p] && t.log == s.log
    ensures Disturbed(t, p) <==> Disturbed(s, p)
  {
    if Disturbed(s, p) {
      var i :| s.grantedAt[p] <= i < |s.log| && s.log[i] != Wrote(p);
      assert t.log[i] != Wrote(p);
    }
  }

  /** One step within a session. */
  predicate WithinSession(c: Params, s: State, a: Action, p: nat) {
    && Shaped(c, s) && c.Valid() && Enabled(c, s, a) && p < |s.pcs| && VersionInv(c, s)
    && InSession(s.pcs[p]) && InSession(Apply(c, s, a).pcs[p])
  }

  /** What one step within a session may log, and what it then stores. */
  lemma SessionStep(c: Params, s: State, a: Action, p: nat) returns (e: Option<Entry>)
    requires WithinSession(c, s, a, p)
    ensures var t := Apply(c, s, a);
            && t.grantedAt[p] == s.grantedAt[p] <= |s.log|
            && match e
               case None => t.log == s.log && t.store == s.store
               case Some(Wrote(q)) =>
                 && q < |c.holders| && t.log == s.log + [Wrote(q)]
                 && t.store.Some? && t.store.value.spec.holder == Some(c.holders[q])
               case Some(Erased(q)) => t.log == s.log + [Erased(q)] && t.store.None?
  {
    assert ProcVersions(c, s, p);
    var t := Apply(c, s, a);
    e := None;
    if a.Arrive? && TakesEffect(s, a.r) {
      e := Some(if a.r.Delete? then Erased(a.r.p) else Wrote(a.r.p));
    }
  }

  /** An undisturbed session finds its own identity in the lease, and a disturbed one keeps being so. */
  lemma SessionOwns(c: Params, s: State, a: Action, p: nat)
    requires WithinSession(c, s, a, p)
    ensures var t := Apply(c, s, a);
            && (Disturbed(s, p) ==> Disturbed(t, p))
            && ((Lost(c, s, p) ==> Disturbed(s, p)) ==> Lost(c, t, p) ==> Disturbed(t, p))
  {
    var t := Apply(c, s, a);
    var e := SessionStep(c, s, a, p);
    if e.Some? {
      DisturbedAfterEntry(s, t, p, e.value);
    } else {
      SameLogSameDisturbance(s, t, p);
    }
  }

  /** Only a leftover create gives a session back an identity it has lost. */
  lemma LossKept(c: Params, s: State, a: Action, p: nat)
    requires WithinSession(c, s, a, p) && Lost(c, s, p) && !LeftoverLands(s, a, p)
    ensures Lost(c, Apply(c, s, a), p)
  {
    if a.Arrive? {
      assert RequestVersions(c, s, a.r);
      if a.r.p != p {
        assert c.holders[a.r.p] != c.holders[p];
      }
    }
  }

  /** A session that becomes disturbed has lost the lease. */
  lemma DisturbanceLoses(c: Params, s: State, a: Action, p: nat)
    requires WithinSession(c, s, a, p) && !Disturbed(s, p)
    ensures Disturbed(Apply(c, s, a), p) ==> Lost(c, Apply(c, s, a), p)
  {
    var t := Apply(c, s, a);
    var e := SessionStep(c, s, a, p);
    if e.Some? {
      DisturbedAfterEntry(s, t, p, e.value);
      if e.value.Wrote? && e.value.p != p {
        assert c.holders[e.value.p] != c.holders[p];
      }
    }
  }

  lemma DisturbedIsLostStep(c: Params, s: State, a: Action, p: nat)
    requires WithinSession(c, s, a, p) && !LeftoverLands(s, a, p)
    requires Disturbed(s, p) ==> Lost(c, s, p)
    ensures Disturbed(Apply(c, s, a), p) ==> Lost(c, Apply(c, s, a), p)
  {
    if Disturbed(s, p) {
      LossKept(c, s, a, p);
    } else {
      DisturbanceLoses(c, s, a, p);
    }
  }

  /** No leftover create of `p` lands from state `i` up to state `k`. */
  predicate NoneLeftover(states: seq<State>, actions: seq<Action>, p: nat, i: nat, k: nat) {
    forall j | i <= j < k && j < |states| && j < |actions| && p < |states[j].pcs| ::
      !LeftoverLands(states[j], actions[j], p)
  }

  /** Process `p` is in session from state `i` to state `k`. */
  predicate SessionDuring(c: Params, states: seq<State>, actions: seq<Action>, p: nat, i: nat, k: nat) {
    && IsRun(c, states, actions) && i <= k < |states| && p < |c.holders|
    && forall j | i <= j <= k :: InSession(states[j].pcs[p])
  }

  /** Its attempt took effect last at `g`, and it is in session from there to state `k`. */
  predicate SessionFrom(c: Params, states: seq<State>, actions: seq<Action>, p: nat, g: nat, k: nat) {
    && SessionDuring(c, states, actions, p, g, k)
    && states[g].grantedAt[p] == |states[g].log| && !Lost(c, states[g], p)
  }

  lemma StepWithinSession(c: Params, states: seq<State>, actions: seq<Action>, p: nat, i: nat, k: nat)
    requires SessionDuring(c, states, actions, p, i, k) && i < k
    ensures WithinSession(c, states[k - 1], actions[k - 1], p)
    ensures states[k] == Apply(c, states[k - 1], actions[k - 1])
    ensures SessionDuring(c, states, actions, p, i, k - 1)
  {
    VersionInvRun(c, states, actions, k - 1);
    assert InSession(states[k - 1].pcs[p]) && InSession(states[k].pcs[p]);
    assert states[k - 1 + 1] == Apply(c, states[k - 1], actions[k - 1]);
  }

  lemma ShorterSession(c: Params, states: seq<State>, actions: seq<Action>, p: nat, i: nat, k: nat)
    requires SessionDuring(c, states, actions, p, i, k) && i < k
    ensures SessionDuring(c, states, actions, p, i, k - 1)
    ensures NoneLeftover(states, actions, p, i, k) ==> NoneLeftover(states, actions, p, i, k - 1)
  {
  }

  lemma DisturbedNext(c: Params, states: seq<State>, actions: seq<Action>, p: nat, i: nat, k: nat)
    requires SessionDuring(c, states, actions, p, i, k) && i < k
    requires Disturbed(states[k - 1], p)
    ensures Disturbed(states[k], p)
  {
    StepWithinSession(c, states, actions, p, i, k);
    SessionOwns(c, states[k - 1], actions[k - 1], p);
  }

  lemma LostIsDisturbedNext(c: Params, states: seq<State>, actions: seq<Action>, p: nat, i: nat, k: nat)
    requires SessionDuring(c, states, actions, p, i, k) && i < k
    requires Lost(c, states[k - 1], p) ==> Disturbed(states[k - 1], p)
    ensures Lost(c, states[k], p) ==> Disturbed(states[k], p)
  {
    StepWithinSession(c, states, actions, p, i, k);
    SessionOwns(c, states[k - 1], actions[k - 1], p);
  }

  /** Throughout a session a lost lease means a disturbance. */
  lemma {:induction false} LostIsDisturbed(c: Params, states: seq<State>, actions: seq<Action>,
                                           p: nat, g: nat, k: nat)
    requires SessionFrom(c, states, actions, p, g, k)
    ensures Lost(c, states[k], p) ==> Disturbed(states[k], p)
    decreases k
  {
    if g < k {
      ShorterSession(c, states, actions, p, g, k);
      LostIsDisturbed(c, states, actions, p, g, k - 1);
      LostIsDisturbedNext(c, states, actions, p, g, k);
    }
  }

  lemma DisturbedIsLostNext(c: Params, states: seq<State>, actions: seq<Action>, p: nat, i: nat, k: nat)
    requires SessionDuring(c, states, actions, p, i, k) && NoneLeftover(states, actions, p, i, k) && i < k
    requires Disturbed(states[k - 1], p) ==> Lost(c, states[k - 1], p)
    ensures Disturbed(states[k], p) ==> Lost(c, states[k], p)
  {
    StepWithinSession(c, states, actions, p, i, k);
    assert !LeftoverLands(states[k - 1], actions[k - 1], p);
    DisturbedIsLostStep(c, states[k - 1], actions[k - 1], p);
  }

  /** Without a leftover create a disturbance means a lost lease. */
  lemma {:induction false} DisturbedIsLost(c: Params, states: seq<State>, actions: seq<Action>,
                                           p: nat, g: nat, k: nat)
    requires SessionFrom(c, states, actions, p, g, k)
    requires NoneLeftover(states, actions, p, g, k)
    ensures Disturbed(states[k], p) ==> Lost(c, states[k], p)
    decreases k
  {
    if g < k {
      ShorterSession(c, states, actions, p, g, k);
      DisturbedIsLost(c, states, actions, p, g, k - 1);
      DisturbedIsLostNext(c, states, actions, p, g, k);
    }
  }

  /** Within one session a disturbance never goes away. */
  lemma {:induction false} DisturbedPersists(c: Params, states: seq<State>, actions: seq<Action>,
                                             p: nat, i: nat, k: nat)
    requires SessionDuring(c, states, actions, p, i, k)
    requires Disturbed(states[i], p)
    ensures Disturbed(states[k], p)
    decreases k
  {
    if i < k {
      ShorterSession(c, states, actions, p, i, k);
      DisturbedPersists(c, states, actions, p, i, k - 1);
      DisturbedNext(c, states, actions, p, i, k);
    }
  }

  lemma SessionBegins(c: Params, states: seq<State>, actions: seq<Action>, p: nat, k: nat)
    requires IsRun(c, states, actions) && 0 < k < |states| && p < |c.holders|
    requires InSession(states[k].pcs[p]) && !InSession(states[k - 1].pcs[p])
    ensures SessionFrom(c, states, actions, p, k, k)
  {
    var s, a := states[k - 1], actions[k - 1];
    assert states[k] == Apply(c, s, a);
    assert a.Arrive? && a.r.p == p;
  }

  lemma LongerSession(c: Params, states: seq<State>, actions: seq<Action>, p: nat, g: nat, k: nat)
    requires 0 < k < |states| && SessionFrom(c, states, actions, p, g, k - 1) && InSession(states[k].pcs[p])
    ensures SessionFrom(c, states, actions, p, g, k)
  {
  }

  /** Every session has a start. */
  lemma {:induction false} SessionStart(c: Params, states: seq<State>, actions: seq<Action>, p: nat, k: nat)
    returns (g: nat)
    requires IsRun(c, states, actions) && k < |states| && p < |c.holders| && InSession(states[k].pcs[p])
    ensures SessionFrom(c, states, actions, p, g, k)
  {
    if InSession(states[k - 1].pcs[p]) {
      g := SessionStart(c, states, actions, p, k - 1);
      LongerSession(c, states, actions, p, g, k);
    } else {
      g := k;
      SessionBegins(c, states, actions, p, k);
    }
  }

  /** The action makes the server accept a renewal its sender waits for: `renew` returns true. */
  predicate RenewalAccepted(c: Params, s: State, a: Action)
    requires Shaped(c, s)
  {
    && a.Arrive? && a.r in s.net && a.r.Replace? && a.r.renewal
    && s.pcs[a.r.p] == Renewing(a.r.id, a.r.v, a.r.now)
    && s.store.Some? && s.store.value.version == a.r.v
  }

  lemma AcceptedIsOwn(c: Params, states: seq<State>, actions: seq<Action>, i: nat)
    requires IsRun(c, states, actions) && i < |actions| && RenewalAccepted(c, states[i], actions[i])
    ensures !Lost(c, states[i], actions[i].r.p)
  {
    VersionInvRun(c, states, actions, i);
    assert ProcVersions(c, states[i], actions[i].r.p);
  }

  /** What an accepted renewal says, with no timing assumption: the lease was written by another process
      or deleted during the session exactly when a leftover create of this process put it back. */
  lemma AcceptedDisturbedIff(c: Params, states: seq<State>, actions: seq<Action>, g: nat, i: nat)
    requires IsRun(c, states, actions) && i < |actions| && RenewalAccepted(c, states[i], actions[i])
    requires SessionFrom(c, states, actions, actions[i].r.p, g, i)
    ensures Disturbed(states[i], actions[i].r.p)
            <==> exists j | g <= j < i :: LeftoverLands(states[j], actions[j], actions[i].r.p)
  {
    var p := actions[i].r.p;
    AcceptedIsOwn(c, states, actions, i);
    if j :| g <= j < i && LeftoverLands(states[j], actions[j], p) {
      assert SessionFrom(c, states, actions, p, g, j);
      LostIsDisturbed(c, states, actions, p, g, j);
      DisturbedPersists(c, states, actions, p, j, i);
    } else {
      DisturbedIsLost(c, states, actions, p, g, i);
    }
  }

  /** Detection: without leftover creates a renewal is accepted only if no other process has written or
      deleted the lease since this guard's attempt took effect. */
  lemma AcceptedRenewalUndisturbed(c: Params, states: seq<State>, actions: seq<Action>, i: nat)
    requires IsRun(c, states, actions) && i < |actions|
    requires RenewalAccepted(c, states[i], actions[i])
    requires forall j | 0 <= j < i :: !LeftoverLands(states[j], actions[j], actions[i].r.p)
    ensures !Disturbed(states[i], actions[i].r.p)
    ensures !Disturbed(states[i + 1], actions[i].r.p)
  {
    var p := actions[i].r.p;
    var g := SessionStart(c, states, actions, p, i);
    AcceptedDisturbedIff(c, states, actions, g, i);
    VersionInvRun(c, states, actions, i);
    assert ProcVersions(c, states[i], p);
    DisturbedAfterEntry(states[i], states[i + 1], p, Wrote(p));
  }

  /** So after a disturbance no renewal of the same session is ever accepted again. */
  lemma LossIsPermanent(c: Params, states: seq<State>, actions: seq<Action>, p: nat, i: nat, k: nat)
    requires SessionDuring(c, states, actions, p, i, k) && k < |actions|
    requires forall j | 0 <= j < k :: !LeftoverLands(states[j], actions[j], p)
    requires Disturbed(states[i], p)
    ensures !(RenewalAccepted(c, states[k], actions[k]) && actions[k].r.p == p)
  {
    DisturbedPersists(c, states, actions, p, i, k);
    if RenewalAccepted(c, states[k], actions[k]) && actions[k].r.p == p {
      AcceptedRenewalUndisturbed(c, states, actions, k);
    }
  }

  /** A guard that has lost the lease renews it in this session only if a leftover create has landed since. */
  lemma LostRenewsOnlyByLeftover(c: Params, states: seq<State>, actions: seq<Action>, p: nat, i: nat, k: nat)
    requires SessionDuring(c, states, actions, p, i, k) && k < |actions|
    requires Lost(c, states[i], p)
    requires RenewalAccepted(c, states[k], actions[k]) && actions[k].r.p == p
    ensures exists j | i <= j < k :: LeftoverLands(states[j], actions[j], p)
  {
    if forall j | i <= j < k :: !LeftoverLands(states[j], actions[j], p) {
      LossRunsOn(c, states, actions, p, i, k);
      AcceptedIsOwn(c, states, actions, k);
    }
  }

  lemma LossNext(c: Params, states: seq<State>, actions: seq<Action>, p: nat, i: nat, k: nat)
    requires SessionDuring(c, states, actions, p, i, k) && NoneLeftover(states, actions, p, i, k) && i < k
    requires Lost(c, states[k - 1], p)
    ensures Lost(c, states[k], p)
  {
    StepWithinSession(c, states, actions, p, i, k);
    assert !LeftoverLands(states[k - 1], actions[k - 1], p);
    LossKept(c, states[k - 1], actions[k - 1], p);
  }

  lemma {:induction false} LossRunsOn(c: Params, states: seq<State>, actions: seq<Action>, p: nat, i: nat, k: nat)
    requires SessionDuring(c, states, actions, p, i, k)
    requires NoneLeftover(states, actions, p, i, k)
    requires Lost(c, states[i], p)
    ensures Lost(c, states[k], p)
    decreases k
  {
    if i < k {
      ShorterSession(c, states, actions, p, i, k);
      LossRunsOn(c, states, actions, p, i, k - 1);
      LossNext(c, states, actions, p, i, k);
    }
  }
}
