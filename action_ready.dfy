/**
 * XCoordActionReadyCommand: for one coordinator job, mark as many READY actions
 * SUBMITTED as the job's concurrency allows and queue a start command for each.
 *
 * Which READY actions the store returns, and in which order (FIFO, LIFO,
 * LAST_ONLY), is decided by a store query that is not part of this model; the
 * command only cuts the returned list at the number of free slots.
 */
module ActionReady {
  import opened Oozie
  import opened Runtime

  /** The value of numActionsToStart that means "start every action returned". */
  const START_ALL: int := -1

  /** Delay, in milliseconds, of every queued start command. */
  const START_DELAY: int := 100

  /** How many more actions a job may start, given how many run or are submitted. */
  function FreeSlots(concurrency: int, running: nat): (n: nat)
    requires concurrency >= 0
    ensures n <= concurrency
    ensures n == 0 <==> running >= concurrency
    ensures n > 0 ==> n + running == concurrency
  {
    if concurrency - running < 0 then 0 else concurrency - running
  }

  /** How many of the `available` returned actions the loop marks before its counter reaches `limit`. */
  function MarkedCount(limit: int, available: nat): (m: nat)
    ensures m <= available
    ensures limit < 0 ==> m == available
    ensures limit >= 0 ==> m <= limit && (m < limit ==> m == available)
  {
    if limit < 0 || available < limit then available else limit
  }

  function Submitted(action: CoordAction): CoordAction {
    action.(status := ActionStatus.SUBMITTED)
  }

  /** What marking one action does: queue its start command, then persist it as SUBMITTED. */
  function StartStep(action: CoordAction, user: string, authToken: string): seq<Effect> {
    [Queued(ActionStart(action.id, user, authToken), START_DELAY),
     Executed(CoordActionUpdate(Submitted(action)))]
  }

  function StartSteps(actions: seq<CoordAction>, user: string, authToken: string): (e: seq<Effect>)
    ensures |e| == 2 * |actions|
  {
    if actions == [] then []
    else StartSteps(actions[..|actions| - 1], user, authToken) + StartStep(actions[|actions| - 1], user, authToken)
  }

  /** The first action whose SUBMITTED record the store refuses to persist, or |actions| if none is refused. */
  function FirstRejected(actions: seq<CoordAction>, jpa: JpaService): (k: nat)
    ensures k <= |actions|
    ensures forall i :: 0 <= i < k ==> jpa.actionUpdate(Submitted(actions[i])).Success?
    ensures k < |actions| ==> jpa.actionUpdate(Submitted(actions[k])).Failure?
  {
    if actions == [] then 0
    else if jpa.actionUpdate(Submitted(actions[0])).Failure? then 0
    else 1 + FirstRejected(actions[1..], jpa)
  }

  /** The marking loop over the returned READY actions, cut at `limit` unless it is START_ALL. */
  function Dispatch(actions: seq<CoordAction>, limit: int, user: string, authToken: string, jpa: JpaService): (r: Run)
    ensures r.outcome.Fail? ==> r.outcome.error.CommandException?
    ensures |r.effects| <= 2 * MarkedCount(limit, |actions|)
  {
    var m := MarkedCount(limit, |actions|);
    var k := FirstRejected(actions[..m], jpa);
    if k < m then
      Run(Fail(AsCommandException(jpa.actionUpdate(Submitted(actions[k])).error)),
          StartSteps(actions[..k + 1], user, authToken))
    else
      Run(Pass, StartSteps(actions[..m], user, authToken))
  }

  /** Fetch the READY actions with the given limit and run the marking loop over them. */
  function Fetch(jobId: string, limit: int, job: CoordJob, jpa: JpaService, before: seq<Effect>): Run {
    var fetched := before + [Executed(CoordJobGetReadyActions(jobId, limit, job.execution))];
    match jpa.readyActions(jobId, limit, job.execution)
    case Failure(ex) => Run(Fail(AsCommandException(ex)), fetched)
    case Success(actions) =>
      var d := Dispatch(actions, limit, job.user, job.authToken, jpa);
      Run(d.outcome, fetched + d.effects)
  }

  /** One execution of the readiness command for `jobId` against the store `jpa`. */
  function ReadyRun(jobId: string, jpa: JpaService): (r: Run)
    ensures |r.effects| >= 1 && r.effects[0] == Executed(CoordJobGet(jobId))
    ensures r.outcome.Fail? ==> r.outcome.error.CommandException?
    ensures jpa.coordJob(jobId).Failure? ==> r.effects == [Executed(CoordJobGet(jobId))]
  {
    var loaded := [Executed(CoordJobGet(jobId))];
    match jpa.coordJob(jobId)
    case Failure(ex) => Run(Fail(AsCommandException(ex)), loaded)
    case Success(job) =>
      if job.concurrency < 0 then Fetch(jobId, START_ALL, job, jpa, loaded)
      else
        var counted := loaded + [Executed(CoordJobRunningActionsCountGet(jobId))];
        match jpa.runningActionsCount(jobId)
        case Failure(ex) => Run(Fail(AsCommandException(ex)), counted)
        case Success(running) =>
          var n := FreeSlots(job.concurrency, running);
          if n == 0 then Run(Pass, counted) else Fetch(jobId, n, job, jpa, counted)
  }

  datatype XCoordActionReadyCommand = XCoordActionReadyCommand(jobId: string) {

    /** The command asks for the lock but names no entity to lock. */
    function EntityKey(): Option<string> {
      None
    }

    predicate IsLockRequired() {
      true
    }

    method Execute(svc: Services) returns (r: Outcome)
      requires svc.jpaService.Some?
      modifies svc
      ensures r == ReadyRun(jobId, svc.jpaService.value).outcome
      ensures svc.effects == old(svc.effects) + ReadyRun(jobId, svc.jpaService.value).effects
    {
      ghost var jpa := svc.jpaService.value;
      var numActionsToStart := START_ALL;
      var loaded := svc.GetCoordJob(jobId);
      if loaded.Failure? {
        return Fail(AsCommandException(loaded.error));
      }
      var coordJob := loaded.value;
      ghost var before := svc.effects;
      if coordJob.concurrency >= 0 {
        var numRunningJobs := svc.CountRunningActions(jobId);
        if numRunningJobs.Failure? {
          return Fail(AsCommandException(numRunningJobs.error));
        }
        numActionsToStart := coordJob.concurrency - numRunningJobs.value;
        if numActionsToStart < 0 {
          numActionsToStart := 0;
        }
        assert numActionsToStart == FreeSlots(coordJob.concurrency, numRunningJobs.value);
        if numActionsToStart == 0 {
          return Pass;
        }
        before := svc.effects;
        assert ReadyRun(jobId, jpa) == Fetch(jobId, numActionsToStart, coordJob, jpa, before[|old(svc.effects)|..]);
      } else {
        assert ReadyRun(jobId, jpa) == Fetch(jobId, START_ALL, coordJob, jpa, before[|old(svc.effects)|..]);
      }
      var ready := svc.GetReadyActions(jobId, numActionsToStart, coordJob.execution);
      if ready.Failure? {
        return Fail(AsCommandException(ready.error));
      }
      var user, authToken := coordJob.user, coordJob.authToken;
      r := StartReadyActions(svc, ready.value, numActionsToStart, user, authToken);
    }
  }

  /** The loop of XCoordActionReadyCommand.execute over the READY actions the store returned. */
  method StartReadyActions(svc: Services, actions: seq<CoordAction>, numActionsToStart: int, user: string, authToken: string)
    returns (r: Outcome)
    requires svc.jpaService.Some?
    modifies svc
    ensures r == Dispatch(actions, numActionsToStart, user, authToken, svc.jpaService.value).outcome
    ensures svc.effects == old(svc.effects) + Dispatch(actions, numActionsToStart, user, authToken, svc.jpaService.value).effects
  {
    ghost var jpa := svc.jpaService.value;
    ghost var m := MarkedCount(numActionsToStart, |actions|);
    var counter := 0;
    for i := 0 to |actions|
      invariant counter == i <= m
      invariant svc.effects == old(svc.effects) + StartSteps(actions[..i], user, authToken)
      invariant forall j :: 0 <= j < i ==> jpa.actionUpdate(Submitted(actions[j])).Success?
    {
      if numActionsToStart < 0 || counter < numActionsToStart {
        var action := actions[i].(status := ActionStatus.SUBMITTED);
        svc.Queue(ActionStart(action.id, user, authToken), START_DELAY);
        var persisted := svc.UpdateAction(action);
        assert actions[..i + 1][..i] == actions[..i];
        if persisted.Failure? {
          assert FirstRejected(actions[..m], jpa) == i;
          return Fail(AsCommandException(persisted.error));
        }
      } else {
        break;
      }
      counter := counter + 1;
    }
    assert counter == m;
    assert FirstRejected(actions[..m], jpa) == m;
    return Pass;
  }

  /** The readiness command asks the executor for a lock yet reports no entity key to lock. */
  lemma ReadyLockWithoutKey(cmd: XCoordActionReadyCommand)
    ensures cmd.IsLockRequired() && cmd.EntityKey() == None
  {
  }

  // ---------------------------------------------------------------------------
  // What one execution of the readiness command does.

  lemma {:induction false} StartStepsAt(actions: seq<CoordAction>, user: string, authToken: string, i: nat)
    requires i < |actions|
    ensures StartSteps(actions, user, authToken)[2 * i] == Queued(ActionStart(actions[i].id, user, authToken), START_DELAY)
    ensures StartSteps(actions, user, authToken)[2 * i + 1] == Executed(CoordActionUpdate(Submitted(actions[i])))
    decreases |actions|
  {
    var front := actions[..|actions| - 1];
    if i < |actions| - 1 {
      StartStepsAt(front, user, authToken, i);
    }
  }

  /** Marking one action neither queries the store, nor writes the job, nor writes an SLA event. */
  lemma StartStepKinds(action: CoordAction, user: string, authToken: string)
    ensures var e := StartStep(action, user, authToken);
      && Only(e, IsQuery) == [] && Only(e, IsJobWrite) == [] && Only(e, IsSlaWrite) == []
      && Only(e, IsActionWrite) == [e[1]] && Only(e, IsQueued) == [e[0]]
  {
    var e := StartStep(action, user, authToken);
    assert e[..1] == [e[0]];
    assert e[..1][..0] == [];
  }

  /** The marking loop neither queries the store, nor writes the job, nor writes an SLA event. */
  lemma {:induction false} StartStepsWriteNoJobNorSla(actions: seq<CoordAction>, user: string, authToken: string)
    ensures var e := StartSteps(actions, user, authToken);
      Only(e, IsQuery) == [] && Only(e, IsJobWrite) == [] && Only(e, IsSlaWrite) == []
    decreases |actions|
  {
    if actions != [] {
      var front := actions[..|actions| - 1];
      var last := actions[|actions| - 1];
      StartStepsWriteNoJobNorSla(front, user, authToken);
      StartStepKinds(last, user, authToken);
      var a := StartSteps(front, user, authToken);
      var b := StartStep(last, user, authToken);
      OnlyConcat(a, b, IsQuery);
      OnlyConcat(a, b, IsJobWrite);
      OnlyConcat(a, b, IsSlaWrite);
    }
  }

  /** The marking loop writes one SUBMITTED record per marked action, in list order, and no other action record. */
  lemma {:induction false} StartStepsPersist(actions: seq<CoordAction>, user: string, authToken: string)
    ensures var w := Only(StartSteps(actions, user, authToken), IsActionWrite);
      && |w| == |actions|
      && forall i :: 0 <= i < |actions| ==> w[i] == Executed(CoordActionUpdate(Submitted(actions[i])))
    decreases |actions|
  {
    if actions != [] {
      var front := actions[..|actions| - 1];
      var last := actions[|actions| - 1];
      StartStepsPersist(front, user, authToken);
      StartStepKinds(last, user, authToken);
      var a := StartSteps(front, user, authToken);
      var b := StartStep(last, user, authToken);
      OnlyConcat(a, b, IsActionWrite);
      var w := Only(StartSteps(actions, user, authToken), IsActionWrite);
      assert w == Only(a, IsActionWrite) + [b[1]];
      forall i | 0 <= i < |actions| ensures w[i] == Executed(CoordActionUpdate(Submitted(actions[i]))) {
        if i < |front| {
          assert w[i] == Only(a, IsActionWrite)[i];
          assert front[i] == actions[i];
        }
      }
    }
  }

  /** The marking loop queues one start command per marked action, in list order, and nothing else. */
  lemma {:induction false} StartStepsQueue(actions: seq<CoordAction>, user: string, authToken: string)
    ensures var q := Only(StartSteps(actions, user, authToken), IsQueued);
      && |q| == |actions|
      && forall i :: 0 <= i < |actions| ==> q[i] == Queued(ActionStart(actions[i].id, user, authToken), START_DELAY)
    decreases |actions|
  {
    if actions != [] {
      var front := actions[..|actions| - 1];
      var last := actions[|actions| - 1];
      StartStepsQueue(front, user, authToken);
      StartStepKinds(last, user, authToken);
      var a := StartSteps(front, user, authToken);
      var b := StartStep(last, user, authToken);
      OnlyConcat(a, b, IsQueued);
      var q := Only(StartSteps(actions, user, authToken), IsQueued);
      assert q == Only(a, IsQueued) + [b[0]];
      forall i | 0 <= i < |actions| ensures q[i] == Queued(ActionStart(actions[i].id, user, authToken), START_DELAY) {
        if i < |front| {
          assert q[i] == Only(a, IsQueued)[i];
          assert front[i] == actions[i];
        }
      }
    }
  }

  /** The store commands the readiness command issues before it fetches READY actions. */
  function Prelude(jobId: string, job: CoordJob): seq<Effect> {
    [Executed(CoordJobGet(jobId))] + (if job.concurrency < 0 then [] else [Executed(CoordJobRunningActionsCountGet(jobId))])
  }

  /** Fetching and marking adds one READY query to the queries made before, and writes neither the job nor an SLA event. */
  lemma FetchEffects(jobId: string, limit: int, job: CoordJob, jpa: JpaService, before: seq<Effect>)
    ensures var e := Fetch(jobId, limit, job, jpa, before).effects;
      && Only(e, IsQuery) == Only(before, IsQuery) + [Executed(CoordJobGetReadyActions(jobId, limit, job.execution))]
      && Only(e, IsJobWrite) == Only(before, IsJobWrite)
      && Only(e, IsSlaWrite) == Only(before, IsSlaWrite)
  {
    var get := [Executed(CoordJobGetReadyActions(jobId, limit, job.execution))];
    match jpa.readyActions(jobId, limit, job.execution)
    case Failure(_) =>
      QueriesThenSteps(before, get, [], job.user, job.authToken);
      assert before + get + StartSteps([], job.user, job.authToken) == before + get;
    case Success(actions) =>
      var m := MarkedCount(limit, |actions|);
      var k := FirstRejected(actions[..m], jpa);
      FetchSteps(jobId, limit, job, jpa, before, actions);
      QueriesThenSteps(before, get, actions[..if k < m then k + 1 else m], job.user, job.authToken);
  }

  /** One query, then marking steps: the query is the only one added, and no job or SLA write is. */
  lemma QueriesThenSteps(before: seq<Effect>, get: seq<Effect>, marked: seq<CoordAction>, user: string, authToken: string)
    requires |get| == 1 && IsQuery(get[0])
    ensures var e := before + get + StartSteps(marked, user, authToken);
      && Only(e, IsQuery) == Only(before, IsQuery) + get
      && Only(e, IsJobWrite) == Only(before, IsJobWrite)
      && Only(e, IsSlaWrite) == Only(before, IsSlaWrite)
  {
    var steps := StartSteps(marked, user, authToken);
    OnlyConcat(before, get, IsQuery);
    OnlyConcat(before, get, IsJobWrite);
    OnlyConcat(before, get, IsSlaWrite);
    OnlyAll(get, IsQuery);
    OnlyNone(get, IsJobWrite);
    OnlyNone(get, IsSlaWrite);
    StartStepsWriteNoJobNorSla(marked, user, authToken);
    OnlyConcat(before + get, steps, IsQuery);
    OnlyConcat(before + get, steps, IsJobWrite);
    OnlyConcat(before + get, steps, IsSlaWrite);
  }

  /** With negative concurrency the running-action count is never asked for, and READY actions are fetched without a limit. */
  lemma UnlimitedConcurrencySkipsCount(jobId: string, jpa: JpaService, job: CoordJob)
    requires jpa.coordJob(jobId) == Success(job) && job.concurrency < 0
    ensures Only(ReadyRun(jobId, jpa).effects, IsQuery)
         == [Executed(CoordJobGet(jobId)), Executed(CoordJobGetReadyActions(jobId, START_ALL, job.execution))]
  {
    var loaded := [Executed(CoordJobGet(jobId))];
    FetchEffects(jobId, START_ALL, job, jpa, loaded);
    OnlyAll(loaded, IsQuery);
  }

  /** With concurrency c >= 0 and r actions running or submitted, READY actions are fetched with limit c - r when r < c. */
  lemma FreeSlotsLimitTheFetch(jobId: string, jpa: JpaService, job: CoordJob, running: nat)
    requires jpa.coordJob(jobId) == Success(job) && job.concurrency >= 0
    requires jpa.runningActionsCount(jobId) == Success(running) && running < job.concurrency
    ensures Only(ReadyRun(jobId, jpa).effects, IsQuery)
         == [Executed(CoordJobGet(jobId)), Executed(CoordJobRunningActionsCountGet(jobId)),
             Executed(CoordJobGetReadyActions(jobId, job.concurrency - running, job.execution))]
  {
    var counted := [Executed(CoordJobGet(jobId)), Executed(CoordJobRunningActionsCountGet(jobId))];
    LimitedRunIsFetch(jobId, jpa, job, running);
    FetchQueriesAfter(jobId, job.concurrency - running, job, jpa, counted);
  }

  lemma FetchQueriesAfter(jobId: string, limit: int, job: CoordJob, jpa: JpaService, before: seq<Effect>)
    requires forall i :: 0 <= i < |before| ==> IsQuery(before[i])
    ensures Only(Fetch(jobId, limit, job, jpa, before).effects, IsQuery)
         == before + [Executed(CoordJobGetReadyActions(jobId, limit, job.execution))]
  {
    FetchEffects(jobId, limit, job, jpa, before);
    OnlyAll(before, IsQuery);
  }

  lemma LimitedRunIsFetch(jobId: string, jpa: JpaService, job: CoordJob, running: nat)
    requires jpa.coordJob(jobId) == Success(job) && job.concurrency >= 0
    requires jpa.runningActionsCount(jobId) == Success(running) && running < job.concurrency
    ensures ReadyRun(jobId, jpa)
         == Fetch(jobId, job.concurrency - running, job, jpa,
                  [Executed(CoordJobGet(jobId)), Executed(CoordJobRunningActionsCountGet(jobId))])
  {
    assert [Executed(CoordJobGet(jobId))] + [Executed(CoordJobRunningActionsCountGet(jobId))]
        == [Executed(CoordJobGet(jobId)), Executed(CoordJobRunningActionsCountGet(jobId))];
  }

  /** When no slot is free the command stops after counting: nothing is fetched, written or queued. */
  lemma NoFreeSlotIsNoop(jobId: string, jpa: JpaService, job: CoordJob, running: nat)
    requires jpa.coordJob(jobId) == Success(job) && job.concurrency >= 0
    requires jpa.runningActionsCount(jobId) == Success(running) && running >= job.concurrency
    ensures ReadyRun(jobId, jpa)
         == Run(Pass, [Executed(CoordJobGet(jobId)), Executed(CoordJobRunningActionsCountGet(jobId))])
  {
  }

  /** Whatever the store answers, the readiness command never writes the job and never writes an SLA event. */
  lemma ReadyNeverWritesJob(jobId: string, jpa: JpaService)
    ensures Only(ReadyRun(jobId, jpa).effects, IsJobWrite) == []
    ensures Only(ReadyRun(jobId, jpa).effects, IsSlaWrite) == []
  {
    var loaded := [Executed(CoordJobGet(jobId))];
    var counted := loaded + [Executed(CoordJobRunningActionsCountGet(jobId))];
    OnlyNone(loaded, IsJobWrite);
    OnlyNone(loaded, IsSlaWrite);
    OnlyNone(counted, IsJobWrite);
    OnlyNone(counted, IsSlaWrite);
    match jpa.coordJob(jobId)
    case Failure(_) =>
    case Success(job) =>
      if job.concurrency < 0 {
        FetchEffects(jobId, START_ALL, job, jpa, loaded);
      } else {
        match jpa.runningActionsCount(jobId)
        case Failure(_) =>
        case Success(running) =>
          var n := FreeSlots(job.concurrency, running);
          if n != 0 {
            FetchEffects(jobId, n, job, jpa, counted);
          }
      }
  }

  /** Once READY actions were fetched with some limit, the run is the prelude, the fetch and the marking loop with that limit. */
  lemma {:induction false} FetchedWith(jobId: string, jpa: JpaService, job: CoordJob, limit: int)
    requires jpa.coordJob(jobId) == Success(job)
    requires Executed(CoordJobGetReadyActions(jobId, limit, job.execution)) in ReadyRun(jobId, jpa).effects
    ensures ReadyRun(jobId, jpa) == Fetch(jobId, limit, job, jpa, Prelude(jobId, job))
  {
    var fetch := Executed(CoordJobGetReadyActions(jobId, limit, job.execution));
    OnlyKeeps(ReadyRun(jobId, jpa).effects, IsQuery, fetch);
    if job.concurrency < 0 {
      UnlimitedConcurrencySkipsCount(jobId, jpa, job);
    } else {
      LimitedFetchedWith(jobId, jpa, job, limit);
    }
  }

  /** With a concurrency limit, a fetch can only follow a successful count below the limit. */
  lemma {:induction false} LimitedFetchedWith(jobId: string, jpa: JpaService, job: CoordJob, limit: int)
    requires jpa.coordJob(jobId) == Success(job) && job.concurrency >= 0
    requires Executed(CoordJobGetReadyActions(jobId, limit, job.execution)) in Only(ReadyRun(jobId, jpa).effects, IsQuery)
    ensures ReadyRun(jobId, jpa) == Fetch(jobId, limit, job, jpa, Prelude(jobId, job))
  {
    match jpa.runningActionsCount(jobId)
    case Failure(_) =>
      assert false;
    case Success(running) =>
      if running < job.concurrency {
        FreeSlotsLimitTheFetch(jobId, jpa, job, running);
        LimitedRunIsFetch(jobId, jpa, job, running);
      } else {
        assert false;
      }
  }

  /**
   * The actions marked SUBMITTED are a prefix of the fetched list, in its order: min(limit, |list|)
   * of them, or all with START_ALL, cut short just after the first record the store refuses.
   * Each gets one SUBMITTED record (the returned action with only its status changed) and one
   * start command with the job's user and auth token and delay 100; no other action is touched.
   */
  lemma {:induction false} ReadyMarksPrefix(jobId: string, jpa: JpaService, job: CoordJob, limit: int, actions: seq<CoordAction>)
    requires jpa.coordJob(jobId) == Success(job)
    requires Executed(CoordJobGetReadyActions(jobId, limit, job.execution)) in ReadyRun(jobId, jpa).effects
    requires jpa.readyActions(jobId, limit, job.execution) == Success(actions)
    ensures var run := ReadyRun(jobId, jpa);
      var m := MarkedCount(limit, |actions|);
      var k := FirstRejected(actions[..m], jpa);
      var p := if k < m then k + 1 else m;
      && (run.outcome == Pass <==> k == m)
      && |Only(run.effects, IsActionWrite)| == p
      && (forall i :: 0 <= i < p ==>
            Only(run.effects, IsActionWrite)[i] == Executed(CoordActionUpdate(Submitted(actions[i]))))
      && |Only(run.effects, IsQueued)| == p
      && (forall i :: 0 <= i < p ==>
            Only(run.effects, IsQueued)[i] == Queued(ActionStart(actions[i].id, job.user, job.authToken), START_DELAY))
  {
    FetchedWith(jobId, jpa, job, limit);
    FetchMarksPrefix(jobId, limit, job, jpa, actions);
  }

  lemma FetchMarksPrefix(jobId: string, limit: int, job: CoordJob, jpa: JpaService, actions: seq<CoordAction>)
    requires jpa.readyActions(jobId, limit, job.execution) == Success(actions)
    ensures var run := Fetch(jobId, limit, job, jpa, Prelude(jobId, job));
      var m := MarkedCount(limit, |actions|);
      var k := FirstRejected(actions[..m], jpa);
      var p := if k < m then k + 1 else m;
      && (run.outcome == Pass <==> k == m)
      && |Only(run.effects, IsActionWrite)| == p
      && (forall i :: 0 <= i < p ==>
            Only(run.effects, IsActionWrite)[i] == Executed(CoordActionUpdate(Submitted(actions[i]))))
      && |Only(run.effects, IsQueued)| == p
      && (forall i :: 0 <= i < p ==>
            Only(run.effects, IsQueued)[i] == Queued(ActionStart(actions[i].id, job.user, job.authToken), START_DELAY))
  {
    var m := MarkedCount(limit, |actions|);
    var k := FirstRejected(actions[..m], jpa);
    var p := if k < m then k + 1 else m;
    var fetched := Prelude(jobId, job) + [Executed(CoordJobGetReadyActions(jobId, limit, job.execution))];
    FetchSteps(jobId, limit, job, jpa, Prelude(jobId, job), actions);
    MarkedAfterQueries(fetched, actions, p, job.user, job.authToken);
  }

  /** After queries only, the writes and queued starts are those of the first p actions, in order. */
  lemma MarkedAfterQueries(before: seq<Effect>, actions: seq<CoordAction>, p: nat, user: string, authToken: string)
    requires p <= |actions|
    requires forall i :: 0 <= i < |before| ==> IsQuery(before[i])
    ensures var e := before + StartSteps(actions[..p], user, authToken);
      && |Only(e, IsActionWrite)| == p
      && (forall i :: 0 <= i < p ==> Only(e, IsActionWrite)[i] == Executed(CoordActionUpdate(Submitted(actions[i]))))
      && |Only(e, IsQueued)| == p
      && (forall i :: 0 <= i < p ==> Only(e, IsQueued)[i] == Queued(ActionStart(actions[i].id, user, authToken), START_DELAY))
  {
    OnlyNone(before, IsActionWrite);
    OnlyNone(before, IsQueued);
    AfterQueries(before, actions[..p], user, authToken);
  }

  /** After a successful fetch, the run is the fetch followed by the steps of the marked prefix. */
  lemma FetchSteps(jobId: string, limit: int, job: CoordJob, jpa: JpaService, before: seq<Effect>, actions: seq<CoordAction>)
    requires jpa.readyActions(jobId, limit, job.execution) == Success(actions)
    ensures var run := Fetch(jobId, limit, job, jpa, before);
      var m := MarkedCount(limit, |actions|);
      var k := FirstRejected(actions[..m], jpa);
      && (run.outcome == Pass <==> k == m)
      && run.effects == before + [Executed(CoordJobGetReadyActions(jobId, limit, job.execution))]
                        + StartSteps(actions[..if k < m then k + 1 else m], job.user, job.authToken)
  {
    DispatchSteps(actions, limit, job.user, job.authToken, jpa);
  }

  lemma DispatchSteps(actions: seq<CoordAction>, limit: int, user: string, authToken: string, jpa: JpaService)
    ensures var m := MarkedCount(limit, |actions|);
      var k := FirstRejected(actions[..m], jpa);
      Dispatch(actions, limit, user, authToken, jpa).effects == StartSteps(actions[..if k < m then k + 1 else m], user, authToken)
  {
  }

  lemma AfterQueries(before: seq<Effect>, marked: seq<CoordAction>, user: string, authToken: string)
    requires Only(before, IsActionWrite) == [] && Only(before, IsQueued) == []
    ensures var e := before + StartSteps(marked, user, authToken);
      && |Only(e, IsActionWrite)| == |marked|
      && (forall i :: 0 <= i < |marked| ==> Only(e, IsActionWrite)[i] == Executed(CoordActionUpdate(Submitted(marked[i]))))
      && |Only(e, IsQueued)| == |marked|
      && (forall i :: 0 <= i < |marked| ==> Only(e, IsQueued)[i] == Queued(ActionStart(marked[i].id, user, authToken), START_DELAY))
  {
    OnlyConcat(before, StartSteps(marked, user, authToken), IsActionWrite);
    OnlyConcat(before, StartSteps(marked, user, authToken), IsQueued);
    StartStepsPersist(marked, user, authToken);
    StartStepsQueue(marked, user, authToken);
  }

  /**
   * For each marked action, `queue` is called for its start command immediately before its
   * SUBMITTED record is written; so when the store refuses that record, the run fails with
   * the `queue` call for that action already made.
   */
  lemma {:induction false} StartQueuedBeforeUpdate(jobId: string, jpa: JpaService, job: CoordJob, limit: int, actions: seq<CoordAction>)
    requires jpa.coordJob(jobId) == Success(job)
    requires Executed(CoordJobGetReadyActions(jobId, limit, job.execution)) in ReadyRun(jobId, jpa).effects
    requires jpa.readyActions(jobId, limit, job.execution) == Success(actions)
    requires FirstRejected(actions[..MarkedCount(limit, |actions|)], jpa) < MarkedCount(limit, |actions|)
    ensures var run := ReadyRun(jobId, jpa);
      var k := FirstRejected(actions[..MarkedCount(limit, |actions|)], jpa);
      && run.outcome.Fail?
      && |run.effects| >= 2
      && run.effects[|run.effects| - 2] == Queued(ActionStart(actions[k].id, job.user, job.authToken), START_DELAY)
      && run.effects[|run.effects| - 1] == Executed(CoordActionUpdate(Submitted(actions[k])))
      && jpa.actionUpdate(Submitted(actions[k])).Failure?
  {
    FetchedWith(jobId, jpa, job, limit);
    var m := MarkedCount(limit, |actions|);
    var k := FirstRejected(actions[..m], jpa);
    var fetched := Prelude(jobId, job) + [Executed(CoordJobGetReadyActions(jobId, limit, job.execution))];
    var steps := StartSteps(actions[..k + 1], job.user, job.authToken);
    assert ReadyRun(jobId, jpa).effects == fetched + steps;
    StartStepsAt(actions[..k + 1], job.user, job.authToken, k);
  }
}
