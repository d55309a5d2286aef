/** The per-instance timer table of the scheduler (`instanceTimers`) and the
    reconciliation that keeps it in step with the live instances. The event
    loop is made explicit: `scheduled` holds the timeouts that are set and
    have neither fired nor been cleared, `inFlight` the callbacks that fired
    while the scheduler was running and are still processing their message.
    Handles are allocated from a counter. */
module Timers {
  import opened Wrappers
  import opened Types
  import opened Draws
  import opened Logger

  const DefaultMinInterval := 40000
  const DefaultMaxInterval := 250000

  datatype Timer = Timer(handle: nat, instance: WuzapiInstance, interval: int)

  datatype Scheduler = Scheduler(
    timers: map<string, Timer>,
    scheduled: map<nat, WuzapiInstance>,
    inFlight: map<nat, WuzapiInstance>,
    nextHandle: nat,
    running: bool,
    minInterval: int,
    maxInterval: int)

  /** The table files each timer under its instance's id, within the
      interval bounds, and no two timers share a handle. */
  predicate TableWellFormed(s: Scheduler)
  {
    && s.minInterval <= s.maxInterval
    && (forall id | id in s.timers ::
          s.timers[id].instance.id == id && s.timers[id].handle < s.nextHandle
          && s.minInterval <= s.timers[id].interval <= s.maxInterval)
    && (forall a, b | a in s.timers && b in s.timers && a != b :: s.timers[a].handle != s.timers[b].handle)
  }

  /** Every set timeout is the table's timer for its instance. */
  predicate ScheduledInTable(s: Scheduler)
  {
    forall h | h in s.scheduled ::
      h < s.nextHandle && s.scheduled[h].id in s.timers && s.timers[s.scheduled[h].id].handle == h
  }

  /** A callback in flight has fired, so its timeout is no longer set. */
  predicate InFlightApart(s: Scheduler)
  {
    forall h | h in s.inFlight :: h < s.nextHandle && h !in s.scheduled
  }

  predicate Valid(s: Scheduler)
  {
    TableWellFormed(s) && ScheduledInTable(s) && InFlightApart(s)
  }

  /** Each instance has at most one timeout set. */
  lemma AtMostOneTimeoutPerInstance(s: Scheduler, h1: nat, h2: nat)
    requires Valid(s) && h1 in s.scheduled && h2 in s.scheduled
    requires s.scheduled[h1].id == s.scheduled[h2].id
    ensures h1 == h2
  {
  }

  function NewScheduler(minInterval: int, maxInterval: int): (s: Scheduler)
    requires minInterval <= maxInterval
    ensures Valid(s) && s.timers == map[] && s.scheduled == map[] && !s.running
  {
    Scheduler(map[], map[], map[], 0, false, minInterval, maxInterval)
  }

  /** `clearTimeout` of the instance's timer, if it has one; the table entry
      itself stays. */
  function CancelTimer(s: Scheduler, id: string): (s': Scheduler)
    requires Valid(s)
    ensures Valid(s')
    ensures s'.timers == s.timers && s'.nextHandle == s.nextHandle && s'.inFlight == s.inFlight
    ensures s'.running == s.running && s'.minInterval == s.minInterval && s'.maxInterval == s.maxInterval
    ensures forall h :: h in s'.scheduled <==> h in s.scheduled && s.scheduled[h].id != id
    ensures forall h | h in s'.scheduled :: s'.scheduled[h] == s.scheduled[h]
  {
    if id in s.timers then s.(scheduled := s.scheduled - {s.timers[id].handle}) else s
  }

  /** `startInstanceTimer`: clear the instance's current timeout, if any, and
      set a fresh one with an interval drawn uniformly from the bounds. */
  function StartInstanceTimer(s: Scheduler, inst: WuzapiInstance, r: real): (s': Scheduler)
    requires Valid(s) && IsDraw(r)
    ensures Valid(s')
    ensures s'.timers.Keys == s.timers.Keys + {inst.id}
    ensures s'.timers[inst.id].instance == inst
    ensures s'.timers[inst.id].interval == Between(r, s.minInterval, s.maxInterval)
    ensures s'.timers[inst.id].handle in s'.scheduled && s'.timers[inst.id].handle >= s.nextHandle
    ensures s'.nextHandle > s.nextHandle
    ensures s'.inFlight == s.inFlight && s'.running == s.running
    ensures s'.minInterval == s.minInterval && s'.maxInterval == s.maxInterval
  {
    var c := CancelTimer(s, inst.id);
    var h := c.nextHandle;
    var t := Timer(h, inst, Between(r, c.minInterval, c.maxInterval));
    ArmKeepsValid(c, t);
    c.(timers := c.timers[inst.id := t], scheduled := c.scheduled[h := inst], nextHandle := h + 1)
  }

  /** Starting an instance's timer clears the timeout it had, and the only
      timeout it adds is the fresh one. */
  lemma StartInstanceTimerCancelsOld(s: Scheduler, inst: WuzapiInstance, r: real)
    requires Valid(s) && IsDraw(r)
    ensures var s' := StartInstanceTimer(s, inst, r);
      && (inst.id in s.timers ==> s.timers[inst.id].handle !in s'.scheduled)
      && (forall h | h in s'.scheduled :: h in s.scheduled || h == s.nextHandle)
  {
  }

  /** Starting an instance's timer touches no other instance's timer or
      timeout. */
  lemma StartInstanceTimerKeepsOthers(s: Scheduler, inst: WuzapiInstance, r: real)
    requires Valid(s) && IsDraw(r)
    ensures var s' := StartInstanceTimer(s, inst, r);
      && (forall id | id in s.timers && id != inst.id :: s'.timers[id] == s.timers[id])
      && (forall h | h in s.scheduled && s.scheduled[h].id != inst.id :: h in s'.scheduled && s'.scheduled[h] == s.scheduled[h])
  {
  }

  /** Filing a timer under a fresh handle, for an instance with no timeout
      set, keeps the scheduler valid. */
  lemma ArmKeepsValid(c: Scheduler, t: Timer)
    requires Valid(c) && t.handle == c.nextHandle
    requires c.minInterval <= t.interval <= c.maxInterval
    requires forall g | g in c.scheduled :: c.scheduled[g].id != t.instance.id
    ensures Valid(c.(timers := c.timers[t.instance.id := t], scheduled := c.scheduled[t.handle := t.instance],
                     nextHandle := t.handle + 1))
  {
    var s' := c.(timers := c.timers[t.instance.id := t], scheduled := c.scheduled[t.handle := t.instance],
                 nextHandle := t.handle + 1);
    assert TableWellFormed(s');
    assert ScheduledInTable(s');
  }

  /** A timeout fires: it is no longer set, and when the scheduler is
      running its callback starts processing. */
  function Fire(s: Scheduler, h: nat): (s': Scheduler)
    requires Valid(s) && h in s.scheduled
    ensures Valid(s')
    ensures h !in s'.scheduled && s'.timers == s.timers
    ensures s.running <==> h in s'.inFlight
    ensures h in s'.inFlight ==> s'.inFlight[h] == s.scheduled[h]
  {
    var rest := s.scheduled - {h};
    if s.running then s.(scheduled := rest, inFlight := s.inFlight[h := s.scheduled[h]])
    else s.(scheduled := rest)
  }

  /** A callback finishes processing and, as written, re-arms its instance's
      timer unconditionally. */
  function Complete(s: Scheduler, h: nat, r: real): (s': Scheduler)
    requires Valid(s) && h in s.inFlight && IsDraw(r)
    ensures Valid(s')
    ensures h !in s'.inFlight
    ensures s'.timers.Keys == s.timers.Keys + {s.inFlight[h].id}
    ensures s'.timers[s.inFlight[h].id].handle in s'.scheduled
  {
    StartInstanceTimer(s.(inFlight := s.inFlight - {h}), s.inFlight[h], r)
  }

  /** The handles the table holds. */
  function TableHandles(timers: map<string, Timer>): set<nat>
  {
    set id | id in timers :: timers[id].handle
  }

  /** `stopAllTimers`: clear every timer in the table, then empty it. */
  function StopAllTimers(s: Scheduler): (s': Scheduler)
    ensures s'.timers == map[]
    ensures forall h | h in s'.scheduled :: h in s.scheduled && h !in TableHandles(s.timers)
    ensures Valid(s) ==> Valid(s') && s'.scheduled == map[]
    ensures s'.inFlight == s.inFlight && s'.running == s.running
  {
    var kept := map h | h in s.scheduled && h !in TableHandles(s.timers) :: s.scheduled[h];
    assert Valid(s) ==> forall h | h in s.scheduled :: s.timers[s.scheduled[h].id].handle in TableHandles(s.timers);
    assert Valid(s) ==> kept.Keys == {};
    s.(timers := map[], scheduled := kept)
  }

  /** Stopping twice is stopping once. */
  lemma StopAllTimersIdempotent(s: Scheduler)
    ensures StopAllTimers(StopAllTimers(s)) == StopAllTimers(s)
  {
    var once := StopAllTimers(s);
    assert TableHandles(once.timers) == {};
    assert StopAllTimers(once).scheduled == once.scheduled;
  }

  /** Start and stop of the whole process: `isRunning` is raised, or lowered
      and every timer stopped. */
  function Start(s: Scheduler): (s': Scheduler)
    ensures s'.running && s'.timers == s.timers && s'.scheduled == s.scheduled
  {
    s.(running := true)
  }

  function Shutdown(s: Scheduler): (s': Scheduler)
    requires Valid(s)
    ensures Valid(s') && !s'.running && s'.timers == map[] && s'.scheduled == map[]
    ensures s'.inFlight == s.inFlight
  {
    StopAllTimers(s.(running := false))
  }

  /** After shutdown, a timeout that would fire starts no callback. */
  lemma NothingFiresAfterShutdown(s: Scheduler)
    requires Valid(s)
    ensures Shutdown(s).scheduled == map[] && !Shutdown(s).running
  {
  }

  // ---------------------------------------------------------------------
  // Reconciliation

  function LiveIds(live: seq<WuzapiInstance>): set<string>
  {
    set i | i in live :: i.id
  }

  /** The first loop of `manageInstances`: clear and remove the timers of
      instances no longer live. */
  function DropDeparted(s: Scheduler, ids: set<string>): (s': Scheduler)
    requires Valid(s)
    ensures Valid(s')
    ensures s'.timers.Keys == s.timers.Keys * ids
    ensures forall id | id in s'.timers :: s'.timers[id] == s.timers[id]
    ensures forall id | id in s.timers && id !in ids :: s.timers[id].handle !in s'.scheduled
    ensures forall h | h in s.scheduled && s.scheduled[h].id in ids :: h in s'.scheduled && s'.scheduled[h] == s.scheduled[h]
    ensures forall h | h in s'.scheduled :: h in s.scheduled
    ensures s'.inFlight == s.inFlight && s'.nextHandle == s.nextHandle && s'.running == s.running
    ensures s'.minInterval == s.minInterval && s'.maxInterval == s.maxInterval
  {
    var departed := set id | id in s.timers && id !in ids :: s.timers[id].handle;
    var timers := map id | id in s.timers && id in ids :: s.timers[id];
    var scheduled := map h | h in s.scheduled && h !in departed :: s.scheduled[h];
    s.(timers := timers, scheduled := scheduled)
  }

  lemma LiveIdsOfTail(live: seq<WuzapiInstance>)
    requires |live| > 0
    ensures LiveIds(live) == {live[0].id} + LiveIds(live[1..])
  {
    assert forall i | i in live :: i == live[0] || i in live[1..];
  }

  /** The second loop of `manageInstances`: start a timer for each live
      instance whose id has none, consuming one draw per timer started. */
  function StartNew(s: Scheduler, live: seq<WuzapiInstance>, draws: seq<real>): (s': Scheduler)
    requires Valid(s) && |draws| >= |live| && forall d | d in draws :: IsDraw(d)
    ensures Valid(s')
    ensures s'.timers.Keys == s.timers.Keys + LiveIds(live)
    ensures s'.nextHandle >= s.nextHandle
    ensures s'.inFlight == s.inFlight && s'.running == s.running
    ensures s'.minInterval == s.minInterval && s'.maxInterval == s.maxInterval
    decreases |live|
  {
    if |live| == 0 then s
    else
      LiveIdsOfTail(live);
      if live[0].id in s.timers then StartNew(s, live[1..], draws)
      else
        assert draws[0] in draws;
        StartNew(StartInstanceTimer(s, live[0], draws[0]), live[1..], draws[1..])
  }

  /** Starting the new instances' timers leaves the existing timers and
      timeouts alone. */
  lemma {:induction false} StartNewKeeps(s: Scheduler, live: seq<WuzapiInstance>, draws: seq<real>)
    requires Valid(s) && |draws| >= |live| && forall d | d in draws :: IsDraw(d)
    ensures var s' := StartNew(s, live, draws);
      && (forall id | id in s.timers :: s'.timers[id] == s.timers[id])
      && (forall h | h in s.scheduled :: h in s'.scheduled && s'.scheduled[h] == s.scheduled[h])
    decreases |live|
  {
    if |live| > 0 {
      LiveIdsOfTail(live);
      if live[0].id in s.timers {
        StartNewKeeps(s, live[1..], draws);
      } else {
        assert draws[0] in draws;
        var s1 := StartInstanceTimer(s, live[0], draws[0]);
        StartInstanceTimerCancelsOld(s, live[0], draws[0]);
        StartInstanceTimerKeepsOthers(s, live[0], draws[0]);
        StartNewKeeps(s1, live[1..], draws[1..]);
      }
    }
  }

  /** Every timer and timeout that starting the new instances adds is a
      fresh one. */
  lemma {:induction false} StartNewFresh(s: Scheduler, live: seq<WuzapiInstance>, draws: seq<real>)
    requires Valid(s) && |draws| >= |live| && forall d | d in draws :: IsDraw(d)
    ensures var s' := StartNew(s, live, draws);
      && (forall id | id in s'.timers && id !in s.timers :: s'.timers[id].handle in s'.scheduled && s'.timers[id].handle >= s.nextHandle)
      && (forall h | h in s'.scheduled :: h in s.scheduled || h >= s.nextHandle)
    decreases |live|
  {
    if |live| > 0 {
      LiveIdsOfTail(live);
      if live[0].id in s.timers {
        StartNewFresh(s, live[1..], draws);
      } else {
        assert draws[0] in draws;
        var s1 := StartInstanceTimer(s, live[0], draws[0]);
        StartInstanceTimerCancelsOld(s, live[0], draws[0]);
        StartInstanceTimerKeepsOthers(s, live[0], draws[0]);
        StartNewFresh(s1, live[1..], draws[1..]);
        StartNewKeeps(s1, live[1..], draws[1..]);
      }
    }
  }

  /** `manageInstances`: with a failed fetch or fewer than two live
      instances nothing changes; otherwise the table ends up holding exactly
      the live ids, departed timers are cleared, surviving ones are left
      alone and new instances get a fresh timer. */
  function ManageInstances(s: Scheduler, fetch: Result<seq<WuzapiInstance>>, draws: seq<real>): (s': Scheduler)
    requires Valid(s) && forall d | d in draws :: IsDraw(d)
    requires fetch.Ok? ==> |draws| >= |fetch.value|
    ensures Valid(s')
    ensures fetch.Err? || |fetch.value| < 2 ==> s' == s
    ensures fetch.Ok? && |fetch.value| >= 2 ==> s'.timers.Keys == LiveIds(fetch.value)
    ensures s'.inFlight == s.inFlight && s'.running == s.running
  {
    match fetch
    case Err(_) => s
    case Ok(live) =>
      if |live| < 2 then s
      else
        var ids := LiveIds(live);
        var dropped := DropDeparted(s, ids);
        StartNew(dropped, live, draws)
  }

  const ReconcileContext := "Gerenciamento de instâncias"

  /** What a reconciliation writes to the message log: a failed discovery
      is caught and logged as an error under `ReconcileContext`; a
      reconciliation that runs, or stops for lack of instances, logs
      nothing. It is what accompanies `ManageInstances` leaving the table
      alone on a failed fetch. */
  function ManageInstancesLog(fetch: Result<seq<WuzapiInstance>>): (logged: Option<LogEvent>)
    ensures logged.Some? <==> fetch.Err?
    ensures fetch.Err? ==> logged.value.Failed? && logged.value.context == ReconcileContext
                           && logged.value.error.message == fetch.message
    ensures fetch.Err? && fetch.message != "" ==> ErrorText(logged.value.error) == fetch.message
  {
    match fetch
    case Ok(_) => None
    case Err(message) => Some(Failed(ReconcileContext, ErrorValue(message, "Error: " + message)))
  }

  /** Reconciliation clears the timeout of every departed instance. */
  lemma ReconcileCancelsDeparted(s: Scheduler, live: seq<WuzapiInstance>, draws: seq<real>)
    requires Valid(s) && forall d | d in draws :: IsDraw(d)
    requires |live| >= 2 && |draws| >= |live|
    ensures var s' := ManageInstances(s, Ok(live), draws);
      forall id | id in s.timers && id !in LiveIds(live) :: s.timers[id].handle !in s'.scheduled
  {
    StartNewFresh(DropDeparted(s, LiveIds(live)), live, draws);
  }

  /** Reconciliation leaves every surviving instance's timer and timeout
      alone. */
  lemma ReconcileKeepsSurvivors(s: Scheduler, live: seq<WuzapiInstance>, draws: seq<real>)
    requires Valid(s) && forall d | d in draws :: IsDraw(d)
    requires |live| >= 2 && |draws| >= |live|
    ensures var s' := ManageInstances(s, Ok(live), draws);
      && (forall id | id in s.timers && id in LiveIds(live) :: s'.timers[id] == s.timers[id])
      && (forall h | h in s.scheduled && s.scheduled[h].id in LiveIds(live) :: h in s'.scheduled && s'.scheduled[h] == s.scheduled[h])
  {
    StartNewKeeps(DropDeparted(s, LiveIds(live)), live, draws);
  }

  /** Reconciliation gives every new instance a fresh timeout. */
  lemma ReconcileStartsNew(s: Scheduler, live: seq<WuzapiInstance>, draws: seq<real>)
    requires Valid(s) && forall d | d in draws :: IsDraw(d)
    requires |live| >= 2 && |draws| >= |live|
    ensures var s' := ManageInstances(s, Ok(live), draws);
      forall id | id in LiveIds(live) && id !in s.timers :: s'.timers[id].handle in s'.scheduled && s'.timers[id].handle >= s.nextHandle
  {
    StartNewFresh(DropDeparted(s, LiveIds(live)), live, draws);
  }

  /** Reconciling twice against the same live set changes nothing the
      second time. */
  lemma ReconcileIsStable(s: Scheduler, live: seq<WuzapiInstance>, d1: seq<real>, d2: seq<real>)
    requires Valid(s) && |live| >= 2 && |d1| >= |live| && |d2| >= |live|
    requires forall d | d in d1 :: IsDraw(d)
    requires forall d | d in d2 :: IsDraw(d)
    ensures var once := ManageInstances(s, Ok(live), d1);
      ManageInstances(once, Ok(live), d2) == once
  {
    var once := ManageInstances(s, Ok(live), d1);
    DropNothingDeparted(once, LiveIds(live));
    StartNewKnown(once, live, d2);
  }

  /** Dropping departed instances when none has departed does nothing. */
  lemma DropNothingDeparted(s: Scheduler, ids: set<string>)
    requires Valid(s) && s.timers.Keys <= ids
    ensures DropDeparted(s, ids) == s
  {
    var dropped := DropDeparted(s, ids);
    assert dropped.timers == s.timers;
    var departed := set id | id in s.timers && id !in ids :: s.timers[id].handle;
    assert departed == {};
    assert dropped.scheduled == s.scheduled;
  }

  /** Starting timers for instances that all have one already does
      nothing. */
  lemma {:induction false} StartNewKnown(s: Scheduler, live: seq<WuzapiInstance>, draws: seq<real>)
    requires Valid(s) && |draws| >= |live| && forall d | d in draws :: IsDraw(d)
    requires LiveIds(live) <= s.timers.Keys
    ensures StartNew(s, live, draws) == s
    decreases |live|
  {
    if |live| > 0 {
      assert live[0] in live;
      assert LiveIds(live[1..]) <= LiveIds(live);
      StartNewKnown(s, live[1..], draws);
    }
  }

  // ---------------------------------------------------------------------
  // Re-arming after removal

  /** As written, a callback that was processing while reconciliation
      removed its instance puts the instance back in the table with a live
      timeout. */
  lemma RemovedInstanceComesBack(s: Scheduler, h: nat, live: seq<WuzapiInstance>, draws: seq<real>, r: real)
    requires Valid(s) && h in s.inFlight && IsDraw(r)
    requires |live| >= 2 && |draws| >= |live| && forall d | d in draws :: IsDraw(d)
    requires s.inFlight[h].id !in LiveIds(live)
    ensures var reconciled := ManageInstances(s, Ok(live), draws);
      var id := s.inFlight[h].id;
      id !in reconciled.timers
      && id in Complete(reconciled, h, r).timers
      && Complete(reconciled, h, r).timers[id].handle in Complete(reconciled, h, r).scheduled
  {
  }

  /** As written, a callback in flight at shutdown sets a new timeout after
      every timer was stopped. */
  lemma RearmAfterShutdown(s: Scheduler, h: nat, r: real)
    requires Valid(s) && h in s.inFlight && IsDraw(r)
    ensures var after := Complete(Shutdown(s), h, r);
      !after.running && after.scheduled != map[]
  {
    var stopped := Shutdown(s);
    var after := Complete(stopped, h, r);
    assert after.timers[s.inFlight[h].id].handle in after.scheduled;
  }

  /** Completion that re-arms only while running and only an instance the
      table still holds. */
  function CompleteGuarded(s: Scheduler, h: nat, r: real): (s': Scheduler)
    requires Valid(s) && h in s.inFlight && IsDraw(r)
    ensures Valid(s')
    ensures h !in s'.inFlight
    ensures s'.timers.Keys == s.timers.Keys
    ensures !s.running ==> s'.scheduled == s.scheduled
    ensures s.running && s.inFlight[h].id in s.timers ==> s'.timers[s.inFlight[h].id].handle in s'.scheduled
  {
    var done := s.(inFlight := s.inFlight - {h});
    if s.running && s.inFlight[h].id in s.timers then StartInstanceTimer(done, s.inFlight[h], r) else done
  }

  /** With the guard, the table keeps exactly the ids of the last
      reconciliation, and nothing is set after shutdown. */
  lemma GuardedCompletionKeepsReconciliation(s: Scheduler, h: nat, live: seq<WuzapiInstance>, draws: seq<real>, r: real)
    requires Valid(s) && h in s.inFlight && IsDraw(r)
    requires |live| >= 2 && |draws| >= |live| && forall d | d in draws :: IsDraw(d)
    ensures var reconciled := ManageInstances(s, Ok(live), draws);
      CompleteGuarded(reconciled, h, r).timers.Keys == LiveIds(live)
    ensures CompleteGuarded(Shutdown(s), h, r).scheduled == map[]
  {
  }
}
