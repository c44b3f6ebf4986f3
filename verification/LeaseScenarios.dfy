/** Runs of the lease protocol: an attempt nobody interferes with, and concrete runs in which the
    conditions of the exclusion and loss theorems fail. */
module LeaseScenarios {

  import opened Wrappers
  import opened Lease
  import opened LeaseProtocol

  /******* Playing actions *******/

  predicate EndsIn(states: seq<State>, s: State) {
    states != [] && states[|states| - 1] == s
  }

  predicate AllTimely(c: Params, states: seq<State>) {
    c.Valid() && forall i | 0 <= i < |states| :: Shaped(c, states[i]) && Timely(c, states[i])
  }

  /** Add one action to a run. */
  lemma Extend(c: Params, states: seq<State>, actions: seq<Action>, s: State, a: Action)
    returns (states': seq<State>, actions': seq<Action>)
    requires IsRun(c, states, actions) && EndsIn(states, s)
    requires Enabled(c, s, a)
    ensures IsRun(c, states', actions')
    ensures states' == states + [Apply(c, s, a)] && actions' == actions + [a]
    ensures EndsIn(states', Apply(c, s, a))
    ensures AllTimely(c, states) && Timely(c, Apply(c, s, a)) ==> AllTimely(c, states')
  {
    ShapedKept(c, s, a);
    states', actions' := states + [Apply(c, s, a)], actions + [a];
  }

  /** A process that is not live leaves timeliness to the others. */
  lemma TimelyGoto(c: Params, s: State, t: State, p: nat)
    requires Shaped(c, s) && c.Valid() && p < |s.pcs| && Shaped(c, t)
    requires t.pcs == s.pcs[p := t.pcs[p]] && !IsLive(t.pcs[p]) && t.renewed == s.renewed && t.clock == s.clock
    ensures Timely(c, s) ==> Timely(c, t)
  {
    if Timely(c, s) {
      forall q | 0 <= q < |t.pcs| && IsLive(t.pcs[q]) ensures Fresh(c, t, q) {
        assert IsLive(s.pcs[q]) && Fresh(c, s, q);
      }
    }
  }

  /** The clock reading and the get with which every attempt begins. */
  lemma PlayGet(c: Params, states: seq<State>, actions: seq<Action>, s: State, p: nat)
    returns (states': seq<State>, actions': seq<Action>)
    requires IsRun(c, states, actions) && EndsIn(states, s) && p < |s.pcs| && s.pcs[p] == Idle
    ensures IsRun(c, states', actions')
    ensures EndsIn(states', Goto(s, p, AfterGet(s, s.clock + c.skews[p])))
    ensures AllTimely(c, states) ==> AllTimely(c, states')
  {
    var timed := Goto(s, p, Timed(s.clock + c.skews[p]));
    var got := Goto(s, p, AfterGet(s, s.clock + c.skews[p]));
    states', actions' := Extend(c, states, actions, s, Proc(p, ReadClock));
    TimelyGoto(c, s, timed, p);
    assert Apply(c, timed, Proc(p, Get)) == got;
    states', actions' := Extend(c, states', actions', timed, Proc(p, Get));
    TimelyGoto(c, s, got, p);
  }

  lemma PlaySendCreate(c: Params, states: seq<State>, actions: seq<Action>, s: State, p: nat)
    returns (states': seq<State>, actions': seq<Action>)
    requires IsRun(c, states, actions) && EndsIn(states, s) && p < |s.pcs| && s.pcs[p] == Idle && s.store.None?
    ensures IsRun(c, states', actions')
    ensures var now := s.clock + c.skews[p];
            EndsIn(states', Send(s, p, Creating(s.nextId, now), Create(s.nextId, p, now)))
    ensures AllTimely(c, states) ==> AllTimely(c, states')
  {
    var now := s.clock + c.skews[p];
    var sent := Send(s, p, Creating(s.nextId, now), Create(s.nextId, p, now));
    states', actions' := PlayGet(c, states, actions, s, p);
    assert Apply(c, Goto(s, p, WantCreate(now)), Proc(p, SendCreate)) == sent;
    states', actions' := Extend(c, states', actions', Goto(s, p, WantCreate(now)), Proc(p, SendCreate));
    TimelyGoto(c, s, sent, p);
  }

  /** Process `p` has just taken the lease and holds the guard. */
  function Taken(c: Params, s: State, p: nat): State
    requires Shaped(c, s) && c.Valid() && p < |s.pcs|
  {
    var now := s.clock + c.skews[p];
    State(s.clock, Some(Stored(LeaseOf(c, p, now), s.nextVersion)), s.nextVersion + 1, s.nextId + 1,
          s.pcs[p := Held], s.net, s.renewed[p := now], s.log + [Wrote(p)],
          s.grantedAt[p := |s.log| + 1], s.grantVersion[p := s.nextVersion])
  }

  lemma CreateLands(c: Params, s: State, p: nat)
    requires Shaped(c, s) && c.Valid() && p < |s.pcs| && s.store.None?
    ensures var now := s.clock + c.skews[p];
            var r := Create(s.nextId, p, now);
            Deliver(c, Send(s, p, Creating(s.nextId, now), r), r) == Goto(Taken(c, s, p), p, Granted)
  {
    var now := s.clock + c.skews[p];
    var r := Create(s.nextId, p, now);
    assert s.net + {r} - {r} == s.net;
  }

  lemma ReplaceLands(c: Params, s: State, p: nat)
    requires Shaped(c, s) && c.Valid() && p < |s.pcs| && s.store.Some?
    ensures var now, v := s.clock + c.skews[p], s.store.value.version;
            var r := Replace(s.nextId, p, v, now, false);
            Deliver(c, Send(s, p, Replacing(s.nextId, v, now), r), r) == Goto(Taken(c, s, p), p, Granted)
  {
    var r := Replace(s.nextId, p, s.store.value.version, s.clock + c.skews[p], false);
    assert s.net + {r} - {r} == s.net;
  }

  /** The answer of a successful attempt arrives. */
  lemma PlayGrant(c: Params, states: seq<State>, actions: seq<Action>, s: State, sent: State, r: Request)
    returns (states': seq<State>, actions': seq<Action>)
    requires IsRun(c, states, actions) && EndsIn(states, sent) && r in sent.net
    requires Shaped(c, s) && r.p < |s.pcs| && Deliver(c, sent, r) == Goto(Taken(c, s, r.p), r.p, Granted)
    ensures IsRun(c, states', actions') && EndsIn(states', Taken(c, s, r.p))
    ensures AllTimely(c, states) && Shaped(c, Taken(c, s, r.p)) && Timely(c, Taken(c, s, r.p)) ==> AllTimely(c, states')
  {
    var granted := Goto(Taken(c, s, r.p), r.p, Granted);
    states', actions' := Extend(c, states, actions, sent, Arrive(r));
    assert Apply(c, granted, Proc(r.p, ReceiveGrant)) == Taken(c, s, r.p);
    states', actions' := Extend(c, states', actions', granted, Proc(r.p, ReceiveGrant));
    TimelyGoto(c, Taken(c, s, r.p), granted, r.p);
  }

  /** A full attempt of an idle process without a lease: read the clock, get, create, answer. */
  lemma PlayCreate(c: Params, states: seq<State>, actions: seq<Action>, s: State, p: nat)
    returns (states': seq<State>, actions': seq<Action>)
    requires IsRun(c, states, actions) && EndsIn(states, s) && p < |s.pcs| && s.pcs[p] == Idle && s.store.None?
    ensures IsRun(c, states', actions') && EndsIn(states', Taken(c, s, p))
    ensures AllTimely(c, states) && Shaped(c, Taken(c, s, p)) && Timely(c, Taken(c, s, p)) ==> AllTimely(c, states')
  {
    var now := s.clock + c.skews[p];
    var r := Create(s.nextId, p, now);
    states', actions' := PlaySendCreate(c, states, actions, s, p);
    CreateLands(c, s, p);
    states', actions' := PlayGrant(c, states', actions', s, Send(s, p, Creating(s.nextId, now), r), r);
  }

  lemma PlaySendReplace(c: Params, states: seq<State>, actions: seq<Action>, s: State, p: nat)
    returns (states': seq<State>, actions': seq<Action>)
    requires IsRun(c, states, actions) && EndsIn(states, s) && p < |s.pcs| && s.pcs[p] == Idle
    requires s.store.Some? && StaleAt(s.store.value.spec, s.clock + c.skews[p])
    ensures IsRun(c, states', actions')
    ensures var now, v := s.clock + c.skews[p], s.store.value.version;
            EndsIn(states', Send(s, p, Replacing(s.nextId, v, now), Replace(s.nextId, p, v, now, false)))
    ensures AllTimely(c, states) ==> AllTimely(c, states')
  {
    var now, v := s.clock + c.skews[p], s.store.value.version;
    var seen := Goto(s, p, WantReplace(v, now));
    var sent := Send(s, p, Replacing(s.nextId, v, now), Replace(s.nextId, p, v, now, false));
    states', actions' := PlayGet(c, states, actions, s, p);
    assert Apply(c, seen, Proc(p, SendReplace)) == sent;
    states', actions' := Extend(c, states', actions', seen, Proc(p, SendReplace));
    TimelyGoto(c, s, sent, p);
  }

  /** A full attempt of an idle process that finds a stale lease: read the clock, get, replace, answer. */
  lemma PlayReplace(c: Params, states: seq<State>, actions: seq<Action>, s: State, p: nat)
    returns (states': seq<State>, actions': seq<Action>)
    requires IsRun(c, states, actions) && EndsIn(states, s) && p < |s.pcs| && s.pcs[p] == Idle
    requires s.store.Some? && StaleAt(s.store.value.spec, s.clock + c.skews[p])
    ensures IsRun(c, states', actions') && EndsIn(states', Taken(c, s, p))
    ensures AllTimely(c, states) && Shaped(c, Taken(c, s, p)) && Timely(c, Taken(c, s, p)) ==> AllTimely(c, states')
  {
    var now, v := s.clock + c.skews[p], s.store.value.version;
    var r := Replace(s.nextId, p, v, now, false);
    states', actions' := PlaySendReplace(c, states, actions, s, p);
    ReplaceLands(c, s, p);
    states', actions' := PlayGrant(c, states', actions', s, Send(s, p, Replacing(s.nextId, v, now), r), r);
  }

  /** A create whose sender gives up on it while it is under way. */
  lemma PlayGiveUpCreate(c: Params, states: seq<State>, actions: seq<Action>, s: State, p: nat)
    returns (states': seq<State>, actions': seq<Action>)
    requires IsRun(c, states, actions) && EndsIn(states, s) && p < |s.pcs| && s.pcs[p] == Idle && s.store.None?
    ensures IsRun(c, states', actions')
    ensures EndsIn(states', Send(s, p, Idle, Create(s.nextId, p, s.clock + c.skews[p])))
  {
    var now := s.clock + c.skews[p];
    var r := Create(s.nextId, p, now);
    var sent := Send(s, p, Creating(s.nextId, now), r);
    states', actions' := PlaySendCreate(c, states, actions, s, p);
    assert Apply(c, sent, Proc(p, Abandon)) == Send(s, p, Idle, r);
    states', actions' := Extend(c, states', actions', sent, Proc(p, Abandon));
  }

  /** A release whose sender gives up on its delete while it is under way. */
  lemma PlayGiveUpRelease(c: Params, states: seq<State>, actions: seq<Action>, s: State, p: nat)
    returns (states': seq<State>, actions': seq<Action>)
    requires IsRun(c, states, actions) && EndsIn(states, s) && p < |s.pcs| && s.pcs[p] == Held
    ensures IsRun(c, states', actions')
    ensures EndsIn(states', Send(s, p, Idle, Delete(s.nextId, p)))
    ensures AllTimely(c, states) ==> AllTimely(c, states')
  {
    var r := Delete(s.nextId, p);
    var sent, idle := Send(s, p, Releasing(s.nextId), r), Send(s, p, Idle, r);
    assert Apply(c, s, Proc(p, SendDelete)) == sent;
    states', actions' := Extend(c, states, actions, s, Proc(p, SendDelete));
    if AllTimely(c, states) {
      forall q | 0 <= q < |sent.pcs| && IsLive(sent.pcs[q]) ensures Fresh(c, sent, q) {
        assert IsLive(s.pcs[q]) && Fresh(c, s, q);
      }
    }
    assert Apply(c, sent, Proc(p, Abandon)) == idle;
    states', actions' := Extend(c, states', actions', sent, Proc(p, Abandon));
    TimelyGoto(c, s, idle, p);
  }

  /** A release whose delete takes effect, whoever holds the lease. */
  lemma PlayRelease(c: Params, states: seq<State>, actions: seq<Action>, s: State, p: nat)
    returns (states': seq<State>, actions': seq<Action>)
    requires IsRun(c, states, actions) && EndsIn(states, s) && p < |s.pcs| && s.pcs[p] == Held && s.store.Some?
    ensures IsRun(c, states', actions')
    ensures EndsIn(states', s.(pcs := s.pcs[p := Idle], store := None, log := s.log + [Erased(p)],
                               nextId := s.nextId + 1))
  {
    var r := Delete(s.nextId, p);
    var sent := Send(s, p, Releasing(s.nextId), r);
    assert Apply(c, s, Proc(p, SendDelete)) == sent;
    states', actions' := Extend(c, states, actions, s, Proc(p, SendDelete));
    assert s.net + {r} - {r} == s.net;
    states', actions' := Extend(c, states', actions', sent, Arrive(r));
  }

  lemma RenewalSteps(c: Params, s: State, p: nat, v: nat, now: int)
    requires Shaped(c, s) && c.Valid() && p < |s.pcs| && s.pcs[p] == Held && !Lost(c, s, p)
    requires v == s.store.value.version && now == s.clock + c.skews[p]
    ensures Enabled(c, s, Proc(p, RenewGet)) && Enabled(c, Goto(s, p, RenewSeen(v)), Proc(p, RenewReadClock))
    ensures Enabled(c, Goto(s, p, RenewTimed(v, now)), Proc(p, SendRenewal))
    ensures Apply(c, s, Proc(p, RenewGet)) == Goto(s, p, RenewSeen(v))
    ensures Apply(c, Goto(s, p, RenewSeen(v)), Proc(p, RenewReadClock)) == Goto(s, p, RenewTimed(v, now))
    ensures Apply(c, Goto(s, p, RenewTimed(v, now)), Proc(p, SendRenewal))
         == Send(s, p, Renewing(s.nextId, v, now), Replace(s.nextId, p, v, now, true))
  {
    assert s.pcs[p := RenewSeen(v)][p := RenewTimed(v, now)] == s.pcs[p := RenewTimed(v, now)];
  }

  /** A renewal of a guard that finds its own identity in the lease, up to its request. */
  lemma PlaySendRenewal(c: Params, states: seq<State>, actions: seq<Action>, s: State, p: nat)
    returns (states': seq<State>, actions': seq<Action>)
    requires IsRun(c, states, actions) && EndsIn(states, s) && p < |s.pcs| && s.pcs[p] == Held && !Lost(c, s, p)
    ensures IsRun(c, states', actions')
    ensures var now, v := s.clock + c.skews[p], s.store.value.version;
            EndsIn(states', Send(s, p, Renewing(s.nextId, v, now), Replace(s.nextId, p, v, now, true)))
  {
    var now, v := s.clock + c.skews[p], s.store.value.version;
    var seen, timed := Goto(s, p, RenewSeen(v)), Goto(s, p, RenewTimed(v, now));
    RenewalSteps(c, s, p, v, now);
    states', actions' := Extend(c, states, actions, s, Proc(p, RenewGet));
    states', actions' := Extend(c, states', actions', seen, Proc(p, RenewReadClock));
    states', actions' := Extend(c, states', actions', timed, Proc(p, SendRenewal));
  }

  /** And its acceptance. */
  lemma PlayRenewal(c: Params, states: seq<State>, actions: seq<Action>, s: State, p: nat)
    returns (states': seq<State>, actions': seq<Action>)
    requires IsRun(c, states, actions) && EndsIn(states, s) && p < |s.pcs| && s.pcs[p] == Held && !Lost(c, s, p)
    ensures IsRun(c, states', actions') && |actions'| > 0
    ensures var i := |actions'| - 1;
            && RenewalAccepted(c, states'[i], actions'[i]) && actions'[i].r.p == p
            && states'[i].log == s.log && states'[i].grantedAt == s.grantedAt
  {
    var now, v := s.clock + c.skews[p], s.store.value.version;
    var r := Replace(s.nextId, p, v, now, true);
    states', actions' := PlaySendRenewal(c, states, actions, s, p);
    states', actions' := Extend(c, states', actions', Send(s, p, Renewing(s.nextId, v, now), r), Arrive(r));
  }

  /******* An uncontended attempt *******/

  /** With nobody interfering, an attempt ends with a live guard exactly when there is no lease or the
      stored one is stale at the clock reading; a crashed holder's lease is thus taken over by the first
      such attempt at or after its renewal time plus its duration, and by none before. */
  lemma UncontendedAttempt(c: Params, states: seq<State>, actions: seq<Action>, s: State, p: nat)
    returns (states': seq<State>, actions': seq<Action>, t: State)
    requires IsRun(c, states, actions) && EndsIn(states, s) && p < |s.pcs| && s.pcs[p] == Idle
    ensures IsRun(c, states', actions') && EndsIn(states', t) && Shaped(c, t)
    ensures var now := s.clock + c.skews[p];
            if s.store.None? || StaleAt(s.store.value.spec, now)
            then IsLive(t.pcs[p]) && t.store == Some(Stored(LeaseOf(c, p, now), s.nextVersion))
            else t.pcs[p] == Idle && t.store == s.store
  {
    var now := s.clock + c.skews[p];
    if s.store.None? {
      states', actions' := PlayCreate(c, states, actions, s, p);
    } else if StaleAt(s.store.value.spec, now) {
      states', actions' := PlayReplace(c, states, actions, s, p);
    } else {
      states', actions' := PlayGet(c, states, actions, s, p);
    }
    t := states'[|states'| - 1];
  }

  /******* Exclusion needs timeliness *******/

  const THREE := Params(["a:1", "b:1", "c:1"], [60, 60, 60], [0, 0, 0], 0)

  const LATER: int := 100_000_000_000

  const START := State(0, None, 1, 0, [Idle, Idle, Idle], {}, [0, 0, 0], [], [0, 0, 0], [0, 0, 0])

  lemma StartIsRun()
    ensures IsRun(THREE, [START], []) && EndsIn([START], START) && AllTimely(THREE, [START])
  {
  }

  /** Process 0 took the lease at time 0 and has held it since. */
  const FIRST_HELD := State(0, Some(Stored(BuildLease("a:1", 60, 0), 1)), 2, 1, [Held, Idle, Idle], {},
                            [0, 0, 0], [Wrote(0)], [1, 0, 0], [1, 0, 0])

  lemma FirstTaken()
    ensures Taken(THREE, START, 0) == FIRST_HELD && Timely(THREE, FIRST_HELD)
  {
  }

  /** Process 1 took the lease over at time LATER, process 0 still holding its guard. */
  const TAKEN_OVER := State(LATER, Some(Stored(BuildLease("b:1", 60, LATER), 2)), 3, 2, [Held, Held, Idle], {},
                            [0, LATER, 0], [Wrote(0), Wrote(1)], [1, 2, 0], [1, 2, 0])

  lemma SecondTaken()
    ensures Taken(THREE, FIRST_HELD.(clock := LATER), 1) == TAKEN_OVER
  {
  }

  /** The release of process 0 has deleted that lease. */
  const FREED := State(LATER, None, 3, 3, [Idle, Held, Idle], {},
                       [0, LATER, 0], [Wrote(0), Wrote(1), Erased(0)], [1, 2, 0], [1, 2, 0])

  lemma TwoLive(s: State)
    requires Shaped(THREE, s) && s.pcs == [Idle, Held, Held] && s.renewed == [0, LATER, LATER] && s.clock == LATER
    ensures IsLive(s.pcs[1]) && Fresh(THREE, s, 1) && IsLive(s.pcs[2]) && Fresh(THREE, s, 2)
    ensures Timely(THREE, s) && !Exclusive(THREE, s)
  {
  }

  lemma PlayTakeOver() returns (states: seq<State>, actions: seq<Action>)
    ensures IsRun(THREE, states, actions) && EndsIn(states, TAKEN_OVER)
  {
    StartIsRun();
    states, actions := PlayCreate(THREE, [START], [], START, 0);
    FirstTaken();
    states, actions := Extend(THREE, states, actions, FIRST_HELD, Tick(LATER));
    states, actions := PlayReplace(THREE, states, actions, FIRST_HELD.(clock := LATER), 1);
    SecondTaken();
  }

  /** One guard that overruns its lease is enough to leave two others live and fresh at once: it is
      reclaimed, and its own delete, sent without any precondition, removes the new holder's lease. */
  lemma OverrunBreaksExclusion() returns (states: seq<State>, actions: seq<Action>)
    ensures IsRun(THREE, states, actions)
    ensures var s := states[|states| - 1];
            && IsLive(s.pcs[1]) && Fresh(THREE, s, 1)
            && IsLive(s.pcs[2]) && Fresh(THREE, s, 2)
            && !Exclusive(THREE, s)
  {
    states, actions := PlayTakeOver();
    states, actions := PlayRelease(THREE, states, actions, TAKEN_OVER, 0);
    states, actions := PlayCreate(THREE, states, actions, FREED, 2);
    TwoLive(Taken(THREE, FREED, 2));
  }

  /******* Exclusion needs finished deletes *******/

  /** Process 0 took the lease and gave up on the delete of its release. */
  const LEFT := State(0, Some(Stored(BuildLease("a:1", 60, 0), 1)), 2, 2, [Idle, Idle, Idle], {Delete(1, 0)},
                      [0, 0, 0], [Wrote(0)], [1, 0, 0], [1, 0, 0])

  /** Process 1 took the stale lease over at time LATER. */
  const RECLAIMED := State(LATER, Some(Stored(BuildLease("b:1", 60, LATER), 2)), 3, 3, [Idle, Held, Idle],
                           {Delete(1, 0)}, [0, LATER, 0], [Wrote(0), Wrote(1)], [1, 2, 0], [1, 2, 0])

  /** The delete has landed. */
  const STRUCK := State(LATER, None, 3, 3, [Idle, Held, Idle], {},
                        [0, LATER, 0], [Wrote(0), Wrote(1), Erased(0)], [1, 2, 0], [1, 2, 0])

  lemma Reclaimed()
    ensures Taken(THREE, LEFT.(clock := LATER), 1) == RECLAIMED && Timely(THREE, RECLAIMED)
    ensures Timely(THREE, LEFT.(clock := LATER))
  {
  }

  lemma Struck()
    ensures Enabled(THREE, RECLAIMED, Arrive(Delete(1, 0))) && Apply(THREE, RECLAIMED, Arrive(Delete(1, 0))) == STRUCK
    ensures Timely(THREE, STRUCK)
  {
    assert {Delete(1, 0)} - {Delete(1, 0)} == {};
  }

  /** A delete that outlives its sender breaks exclusion although every live guard is timely throughout. */
  lemma StrayDeleteBreaksExclusion() returns (states: seq<State>, actions: seq<Action>)
    ensures IsRun(THREE, states, actions) && AllTimely(THREE, states)
    ensures var s := states[|states| - 1];
            IsLive(s.pcs[1]) && IsLive(s.pcs[2]) && !Exclusive(THREE, s)
  {
    StartIsRun();
    states, actions := PlayCreate(THREE, [START], [], START, 0);
    FirstTaken();
    states, actions := PlayGiveUpRelease(THREE, states, actions, FIRST_HELD, 0);
    assert Send(FIRST_HELD, 0, Idle, Delete(1, 0)) == LEFT;
    Reclaimed();
    states, actions := Extend(THREE, states, actions, LEFT, Tick(LATER));
    states, actions := PlayReplace(THREE, states, actions, LEFT.(clock := LATER), 1);
    Struck();
    states, actions := Extend(THREE, states, actions, RECLAIMED, Arrive(Delete(1, 0)));
    states, actions := PlayCreate(THREE, states, actions, STRUCK, 2);
    TwoLive(Taken(THREE, STRUCK, 2));
  }

  /******* Loss detection needs finished creates *******/

  /** Process 0 has given up on a create that is still under way, and its next attempt has succeeded. */
  const RETRIED := State(0, Some(Stored(BuildLease("a:1", 60, 0), 1)), 2, 2, [Held, Idle, Idle], {Create(0, 0, 0)},
                         [0, 0, 0], [Wrote(0)], [1, 0, 0], [1, 0, 0])

  /** Process 1 has taken the stale lease over at time LATER. */
  const VISITED := State(LATER, Some(Stored(BuildLease("b:1", 60, LATER), 2)), 3, 3, [Held, Held, Idle],
                         {Create(0, 0, 0)}, [0, LATER, 0], [Wrote(0), Wrote(1)], [1, 2, 0], [1, 2, 0])

  /** It has released it again. */
  const VACATED := State(LATER, None, 3, 4, [Held, Idle, Idle], {Create(0, 0, 0)},
                         [0, LATER, 0], [Wrote(0), Wrote(1), Erased(1)], [1, 2, 0], [1, 2, 0])

  lemma Retried()
    ensures Taken(THREE, Send(START, 0, Idle, Create(0, 0, 0)), 0) == RETRIED
  {
  }

  lemma Visited()
    ensures Taken(THREE, RETRIED.(clock := LATER), 1) == VISITED
  {
  }

  lemma LeftoverArrives() returns (s: State)
    ensures Enabled(THREE, VACATED, Arrive(Create(0, 0, 0))) && LeftoverLands(VACATED, Arrive(Create(0, 0, 0)), 0)
    ensures s == Apply(THREE, VACATED, Arrive(Create(0, 0, 0)))
    ensures s.pcs[0] == Held && !Lost(THREE, s, 0) && s.grantedAt[0] == 1
    ensures s.log == [Wrote(0), Wrote(1), Erased(1), Wrote(0)]
  {
    s := Apply(THREE, VACATED, Arrive(Create(0, 0, 0)));
  }

  lemma PlayRetry() returns (states: seq<State>, actions: seq<Action>)
    ensures IsRun(THREE, states, actions) && EndsIn(states, RETRIED)
  {
    StartIsRun();
    states, actions := PlayGiveUpCreate(THREE, [START], [], START, 0);
    states, actions := PlayCreate(THREE, states, actions, Send(START, 0, Idle, Create(0, 0, 0)), 0);
    Retried();
  }

  lemma PlayVisit() returns (states: seq<State>, actions: seq<Action>)
    ensures IsRun(THREE, states, actions) && EndsIn(states, VACATED)
  {
    states, actions := PlayRetry();
    states, actions := Extend(THREE, states, actions, RETRIED, Tick(LATER));
    states, actions := PlayReplace(THREE, states, actions, RETRIED.(clock := LATER), 1);
    Visited();
    states, actions := PlayRelease(THREE, states, actions, VISITED, 1);
  }

  /** A create of an earlier, given-up attempt that arrives after another process has taken and released
      the lease puts the old identity back, and the next renewal is accepted. */
  lemma LeftoverCreateHidesLoss() returns (states: seq<State>, actions: seq<Action>)
    ensures IsRun(THREE, states, actions) && |actions| > 0
    ensures var i := |actions| - 1;
            && RenewalAccepted(THREE, states[i], actions[i]) && actions[i].r.p == 0
            && Disturbed(states[i], 0)
  {
    states, actions := PlayVisit();
    var s := LeftoverArrives();
    states, actions := Extend(THREE, states, actions, VACATED, Arrive(Create(0, 0, 0)));
    states, actions := PlayRenewal(THREE, states, actions, s, 0);
    assert s.log[1] != Wrote(0);
  }
}
