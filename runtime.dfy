/**
 * What the coordinator commands see of the rest of the server: the JPA service
 * that answers their store commands, the command queue, and the SLA event store.
 *
 * The store's queries are not part of this model: their answers are given by the
 * functions of a `JpaService` value. Everything a command does to the outside is
 * appended, in order, to one log of effects.
 */
module Runtime {
  import opened Oozie

  /** The store commands handed to JPAService.execute. */
  datatype JpaCommand =
    | CoordJobGet(jobId: string)
    | CoordJobRunningActionsCountGet(jobId: string)
    | CoordJobGetReadyActions(jobId: string, numResults: int, execution: Execution)
    | CoordActionGetForExternalId(externalId: string)
    | CoordActionsSubsetGetForJob(jobId: string, start: int, len: int)
    | CoordActionUpdate(action: CoordAction)
    | CoordJobUpdate(job: CoordJob)

  /** The commands a command queues for later execution, by their constructor arguments. */
  datatype QueuedCommand =
    | ActionStart(actionId: string, user: string, authToken: string)  // XCoordActionStartCommand
    | CoordActionReady(jobId: string)                                // XCoordActionReadyCommand

  /** The arguments of one SLADbOperations.writeStausEvent call. */
  datatype SlaStatusEvent = SlaStatusEvent(slaXml: string, id: string, status: SlaStatus, appType: SlaAppType)

  datatype Effect =
    | Executed(command: JpaCommand)
    | Queued(queued: QueuedCommand, delay: int)
    | SlaWritten(event: SlaStatusEvent)

  predicate IsQuery(e: Effect) {
    e.Executed? && !e.command.CoordActionUpdate? && !e.command.CoordJobUpdate?
  }

  predicate IsActionWrite(e: Effect) {
    e.Executed? && e.command.CoordActionUpdate?
  }

  predicate IsJobWrite(e: Effect) {
    e.Executed? && e.command.CoordJobUpdate?
  }

  predicate IsQueued(e: Effect) {
    e.Queued?
  }

  predicate IsSlaWrite(e: Effect) {
    e.SlaWritten?
  }

  /** What one execution of a command returns or throws, and what it did, in order. */
  datatype Run = Run(outcome: Outcome, effects: seq<Effect>)

  /** The effects of one kind, in the order they happened. */
  function Only(effects: seq<Effect>, keep: Effect -> bool): (r: seq<Effect>)
    ensures |r| <= |effects|
  {
    if effects == [] then []
    else
      var last := effects[|effects| - 1];
      Only(effects[..|effects| - 1], keep) + (if keep(last) then [last] else [])
  }

  lemma {:induction false} OnlyConcat(a: seq<Effect>, b: seq<Effect>, keep: Effect -> bool)
    ensures Only(a + b, keep) == Only(a, keep) + Only(b, keep)
    decreases |b|
  {
    if b == [] {
      assert a + b == a;
    } else {
      var front := b[..|b| - 1];
      assert (a + b)[..|a + b| - 1] == a + front;
      assert (a + b)[|a + b| - 1] == b[|b| - 1];
      OnlyConcat(a, front, keep);
    }
  }

  lemma {:induction false} OnlyKeeps(effects: seq<Effect>, keep: Effect -> bool, e: Effect)
    requires e in effects && keep(e)
    ensures e in Only(effects, keep)
    decreases |effects|
  {
    var front := effects[..|effects| - 1];
    if e != effects[|effects| - 1] {
      assert effects == front + [effects[|effects| - 1]];
      OnlyKeeps(front, keep, e);
    }
  }

  lemma {:induction false} OnlyNone(effects: seq<Effect>, keep: Effect -> bool)
    requires forall i :: 0 <= i < |effects| ==> !keep(effects[i])
    ensures Only(effects, keep) == []
    decreases |effects|
  {
    if effects != [] {
      OnlyNone(effects[..|effects| - 1], keep);
    }
  }

  lemma {:induction false} OnlyAll(effects: seq<Effect>, keep: Effect -> bool)
    requires forall i :: 0 <= i < |effects| ==> keep(effects[i])
    ensures Only(effects, keep) == effects
    decreases |effects|
  {
    if effects != [] {
      OnlyAll(effects[..|effects| - 1], keep);
    }
  }

  /** The store's answer to each store command; a failure is the XException it raises. */
  datatype JpaService = JpaService(
    coordJob: string -> Result<CoordJob, XException>,
    runningActionsCount: string -> Result<nat, XException>,
    readyActions: (string, int, Execution) -> Result<seq<CoordAction>, XException>,
    actionForExternalId: string -> Result<Option<CoordAction>, XException>,
    actionsSubset: (string, int, int) -> Result<seq<CoordAction>, XException>,
    actionUpdate: CoordAction -> Result<(), XException>)

  /** The services registry as the commands use it, with the log of what they did. */
  class Services {
    const jpaService: Option<JpaService>
    var effects: seq<Effect>

    constructor (jpaService: Option<JpaService>)
      ensures this.jpaService == jpaService && effects == []
    {
      this.jpaService := jpaService;
      effects := [];
    }

    method GetCoordJob(jobId: string) returns (r: Result<CoordJob, XException>)
      requires jpaService.Some?
      modifies this
      ensures effects == old(effects) + [Executed(CoordJobGet(jobId))]
      ensures r == jpaService.value.coordJob(jobId)
    {
      effects := effects + [Executed(CoordJobGet(jobId))];
      r := jpaService.value.coordJob(jobId);
    }

    method CountRunningActions(jobId: string) returns (r: Result<nat, XException>)
      requires jpaService.Some?
      modifies this
      ensures effects == old(effects) + [Executed(CoordJobRunningActionsCountGet(jobId))]
      ensures r == jpaService.value.runningActionsCount(jobId)
    {
      effects := effects + [Executed(CoordJobRunningActionsCountGet(jobId))];
      r := jpaService.value.runningActionsCount(jobId);
    }

    method GetReadyActions(jobId: string, numResults: int, execution: Execution)
      returns (r: Result<seq<CoordAction>, XException>)
      requires jpaService.Some?
      modifies this
      ensures effects == old(effects) + [Executed(CoordJobGetReadyActions(jobId, numResults, execution))]
      ensures r == jpaService.value.readyActions(jobId, numResults, execution)
    {
      effects := effects + [Executed(CoordJobGetReadyActions(jobId, numResults, execution))];
      r := jpaService.value.readyActions(jobId, numResults, execution);
    }

    method GetActionForExternalId(externalId: string) returns (r: Result<Option<CoordAction>, XException>)
      requires jpaService.Some?
      modifies this
      ensures effects == old(effects) + [Executed(CoordActionGetForExternalId(externalId))]
      ensures r == jpaService.value.actionForExternalId(externalId)
    {
      effects := effects + [Executed(CoordActionGetForExternalId(externalId))];
      r := jpaService.value.actionForExternalId(externalId);
    }

    method GetActionsSubset(jobId: string, start: int, len: int) returns (r: Result<seq<CoordAction>, XException>)
      requires jpaService.Some?
      modifies this
      ensures effects == old(effects) + [Executed(CoordActionsSubsetGetForJob(jobId, start, len))]
      ensures r == jpaService.value.actionsSubset(jobId, start, len)
    {
      effects := effects + [Executed(CoordActionsSubsetGetForJob(jobId, start, len))];
      r := jpaService.value.actionsSubset(jobId, start, len);
    }

    method UpdateAction(action: CoordAction) returns (r: Result<(), XException>)
      requires jpaService.Some?
      modifies this
      ensures effects == old(effects) + [Executed(CoordActionUpdate(action))]
      ensures r == jpaService.value.actionUpdate(action)
    {
      effects := effects + [Executed(CoordActionUpdate(action))];
      r := jpaService.value.actionUpdate(action);
    }

    /** XCommand.queue(command, delay) */
    method Queue(command: QueuedCommand, delay: int)
      modifies this
      ensures effects == old(effects) + [Queued(command, delay)]
    {
      effects := effects + [Queued(command, delay)];
    }

    /** SLADbOperations.writeStausEvent */
    method WriteStatusEvent(slaXml: string, id: string, status: SlaStatus, appType: SlaAppType)
      modifies this
      ensures effects == old(effects) + [SlaWritten(SlaStatusEvent(slaXml, id, status, appType))]
    {
      effects := effects + [SlaWritten(SlaStatusEvent(slaXml, id, status, appType))];
    }
  }
}
