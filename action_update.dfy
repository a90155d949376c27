/**
 * XCoordActionUpdateCommand: carry the status of a finished or running workflow
 * back to the coordinator action that started it, write the SLA event of a
 * terminal status, and queue the readiness command of the action's job.
 */
module ActionUpdate {
  import opened Oozie
  import opened Runtime

  /** What a workflow status does to its coordinator action. */
  datatype Reaction =
    | Refresh                                          // still running or suspended
    | Unexpected                                       // any other status: logged as unexpected
    | Terminal(status: ActionStatus, sla: SlaStatus)   // the action ends like its workflow

  function ReactionTo(wf: WorkflowStatus): (r: Reaction)
    ensures r == Refresh <==> wf == WorkflowStatus.RUNNING || wf == WorkflowStatus.SUSPENDED
    ensures r.Terminal? <==> wf == WorkflowStatus.SUCCEEDED || wf == WorkflowStatus.FAILED || wf == WorkflowStatus.KILLED
    ensures wf == WorkflowStatus.SUCCEEDED ==> r == Terminal(ActionStatus.SUCCEEDED, SlaStatus.SUCCEEDED)
    ensures wf == WorkflowStatus.FAILED ==> r == Terminal(ActionStatus.FAILED, SlaStatus.FAILED)
    ensures wf == WorkflowStatus.KILLED ==> r == Terminal(ActionStatus.KILLED, SlaStatus.KILLED)
  {
    if wf == WorkflowStatus.RUNNING || wf == WorkflowStatus.SUSPENDED then Refresh
    else if wf == WorkflowStatus.SUCCEEDED then Terminal(ActionStatus.SUCCEEDED, SlaStatus.SUCCEEDED)
    else if wf == WorkflowStatus.FAILED then Terminal(ActionStatus.FAILED, SlaStatus.FAILED)
    else if wf == WorkflowStatus.KILLED then Terminal(ActionStatus.KILLED, SlaStatus.KILLED)
    else Unexpected
  }

  /** The action record the command persists: the new status on a terminal reaction, and the time of the update. */
  function Reconciled(action: CoordAction, reaction: Reaction, now: int): (r: CoordAction)
    ensures r.(status := action.status, lastModifiedTime := action.lastModifiedTime) == action
    ensures r.lastModifiedTime == now
    ensures reaction.Terminal? ==> r.status == reaction.status
    ensures !reaction.Terminal? ==> r.status == action.status
  {
    match reaction
    case Terminal(status, _) => action.(status := status, lastModifiedTime := now)
    case _ => action.(lastModifiedTime := now)
  }

  /** One execution of the update command, and the value of its `caction` field afterwards. */
  datatype Reconciliation = Reconciliation(run: Run, caction: Option<CoordAction>)

  function UpdateRun(caction: Option<CoordAction>, workflow: WorkflowJob, jpa: JpaService, now: int): (u: Reconciliation)
    ensures 1 <= |u.run.effects| <= 4 && u.run.effects[0] == Executed(CoordActionGetForExternalId(workflow.id))
    ensures u.run.outcome.Fail? ==> u.run.outcome.error.CommandException?
    ensures u.caction != caction ==> jpa.actionForExternalId(workflow.id).Success?
    ensures jpa.actionForExternalId(workflow.id).Success? ==>
      (u.caction.Some? <==> jpa.actionForExternalId(workflow.id).value.Some?)
    ensures jpa.actionForExternalId(workflow.id).Success? && u.caction.Some? ==> u.caction.value.lastModifiedTime == now
  {
    var looked := [Executed(CoordActionGetForExternalId(workflow.id))];
    match jpa.actionForExternalId(workflow.id)
    case Failure(ex) => Reconciliation(Run(Fail(AsCommandException(ex)), looked), caction)
    case Success(None) => Reconciliation(Run(Pass, looked), None)
    case Success(Some(action)) =>
      var reaction := ReactionTo(workflow.status);
      var updated := Reconciled(action, reaction, now);
      var persisted := looked + [Executed(CoordActionUpdate(updated))];
      match jpa.actionUpdate(updated)
      case Failure(ex) => Reconciliation(Run(Fail(AsCommandException(ex)), persisted), Some(updated))
      case Success(_) =>
        if reaction.Terminal? then
          var sla := SlaWritten(SlaStatusEvent(updated.slaXml, updated.id, reaction.sla, COORDINATOR_ACTION));
          Reconciliation(Run(Pass, persisted + [sla, Queued(CoordActionReady(updated.jobId), 0)]), Some(updated))
        else
          Reconciliation(Run(Pass, persisted), Some(updated))
  }

  class XCoordActionUpdateCommand {
    const workflow: WorkflowJob
    var caction: Option<CoordAction>

    constructor (workflow: WorkflowJob)
      ensures this.workflow == workflow && caction == None
    {
      this.workflow := workflow;
      caction := None;
    }

    /** The command asks for the lock but names no entity to lock. */
    function EntityKey(): Option<string> {
      None
    }

    predicate IsLockRequired() {
      true
    }

    /** `now` stands for the clock reading `new Date()`. */
    method Execute(svc: Services, now: int) returns (r: Outcome)
      requires svc.jpaService.Some?
      modifies this, svc
      ensures var u := UpdateRun(old(caction), workflow, svc.jpaService.value, now);
        && r == u.run.outcome
        && svc.effects == old(svc.effects) + u.run.effects
        && caction == u.caction
    {
      var found := svc.GetActionForExternalId(workflow.id);
      if found.Failure? {
        return Fail(AsCommandException(found.error));
      }
      caction := found.value;
      if caction.None? {
        return Pass;
      }
      if workflow.status == WorkflowStatus.RUNNING || workflow.status == WorkflowStatus.SUSPENDED {
        caction := Some(caction.value.(lastModifiedTime := now));
        var persisted := svc.UpdateAction(caction.value);
        if persisted.Failure? {
          return Fail(AsCommandException(persisted.error));
        }
        return Pass;
      }
      var slaStatus: Option<SlaStatus> := None;
      if workflow.status == WorkflowStatus.SUCCEEDED {
        caction := Some(caction.value.(status := ActionStatus.SUCCEEDED));
        slaStatus := Some(SlaStatus.SUCCEEDED);
      } else if workflow.status == WorkflowStatus.FAILED {
        caction := Some(caction.value.(status := ActionStatus.FAILED));
        slaStatus := Some(SlaStatus.FAILED);
      } else if workflow.status == WorkflowStatus.KILLED {
        caction := Some(caction.value.(status := ActionStatus.KILLED));
        slaStatus := Some(SlaStatus.KILLED);
      } else {
        caction := Some(caction.value.(lastModifiedTime := now));
        var persisted := svc.UpdateAction(caction.value);
        if persisted.Failure? {
          return Fail(AsCommandException(persisted.error));
        }
        return Pass;
      }
      caction := Some(caction.value.(lastModifiedTime := now));
      var persisted := svc.UpdateAction(caction.value);
      if persisted.Failure? {
        return Fail(AsCommandException(persisted.error));
      }
      if slaStatus.Some? {
        svc.WriteStatusEvent(caction.value.slaXml, caction.value.id, slaStatus.value, COORDINATOR_ACTION);
      }
      svc.Queue(CoordActionReady(caction.value.jobId), 0);
      return Pass;
    }
  }

  /** The update command asks the executor for a lock yet reports no entity key to lock. */
  lemma UpdateLockWithoutKey(cmd: XCoordActionUpdateCommand)
    ensures cmd.IsLockRequired() && cmd.EntityKey() == None
  {
  }

  // ---------------------------------------------------------------------------
  // What one execution of the update command does.

  /** A workflow that no coordinator action started is ignored: one lookup and nothing else. */
  lemma NoActionNoUpdate(caction: Option<CoordAction>, workflow: WorkflowJob, jpa: JpaService, now: int)
    requires jpa.actionForExternalId(workflow.id) == Success(None)
    ensures var u := UpdateRun(caction, workflow, jpa, now);
      && u.run == Run(Pass, [Executed(CoordActionGetForExternalId(workflow.id))])
      && u.caction == None
  {
  }

  /** Every execution that finds the action persists it exactly once. */
  lemma {:induction false} FoundActionPersistedOnce(caction: Option<CoordAction>, workflow: WorkflowJob, jpa: JpaService, now: int, action: CoordAction)
    requires jpa.actionForExternalId(workflow.id) == Success(Some(action))
    ensures var u := UpdateRun(caction, workflow, jpa, now);
      Only(u.run.effects, IsActionWrite) == [Executed(CoordActionUpdate(Reconciled(action, ReactionTo(workflow.status), now)))]
  {
    var u := UpdateRun(caction, workflow, jpa, now);
    var updated := Reconciled(action, ReactionTo(workflow.status), now);
    var persisted := [Executed(CoordActionGetForExternalId(workflow.id)), Executed(CoordActionUpdate(updated))];
    assert [Executed(CoordActionGetForExternalId(workflow.id))] + [Executed(CoordActionUpdate(updated))] == persisted;
    assert Only(persisted, IsActionWrite) == [Executed(CoordActionUpdate(updated))] by {
      assert persisted[..1] == [persisted[0]];
      assert persisted[..1][..0] == [];
    }
    var tail := u.run.effects[|persisted|..];
    assert u.run.effects == persisted + tail;
    OnlyNone(tail, IsActionWrite);
    OnlyConcat(persisted, tail, IsActionWrite);
  }

  /**
   * A running, suspended or unexpected workflow status leaves the action's status as it was:
   * only its last-modified time is refreshed and persisted, no SLA event is written and
   * nothing is queued.
   */
  lemma {:induction false} NonTerminalOnlyRefreshes(caction: Option<CoordAction>, workflow: WorkflowJob, jpa: JpaService, now: int, action: CoordAction)
    requires jpa.actionForExternalId(workflow.id) == Success(Some(action))
    requires !ReactionTo(workflow.status).Terminal?
    ensures var u := UpdateRun(caction, workflow, jpa, now);
      && u.caction == Some(action.(lastModifiedTime := now))
      && u.caction.value.status == action.status
      && Only(u.run.effects, IsActionWrite) == [Executed(CoordActionUpdate(action.(lastModifiedTime := now)))]
      && Only(u.run.effects, IsSlaWrite) == []
      && Only(u.run.effects, IsQueued) == []
  {
    var u := UpdateRun(caction, workflow, jpa, now);
    FoundActionPersistedOnce(caction, workflow, jpa, now, action);
    OnlyNone(u.run.effects, IsSlaWrite);
    OnlyNone(u.run.effects, IsQueued);
  }

  /**
   * A terminal workflow status gives the action the same-named status; the command then
   * persists the action, writes one SLA event of type COORDINATOR_ACTION with the same-named
   * SLA status, and queues the readiness command of the action's job, in that order.
   */
  lemma TerminalPersistsThenSlaThenReady(caction: Option<CoordAction>, workflow: WorkflowJob, jpa: JpaService, now: int, action: CoordAction)
    requires jpa.actionForExternalId(workflow.id) == Success(Some(action))
    requires ReactionTo(workflow.status).Terminal?
    requires jpa.actionUpdate(Reconciled(action, ReactionTo(workflow.status), now)).Success?
    ensures var u := UpdateRun(caction, workflow, jpa, now);
      var status := ReactionTo(workflow.status).status;
      var updated := action.(status := status, lastModifiedTime := now);
      && u.caction == Some(updated)
      && u.run == Run(Pass, [Executed(CoordActionGetForExternalId(workflow.id)),
                             Executed(CoordActionUpdate(updated)),
                             SlaWritten(SlaStatusEvent(action.slaXml, action.id, ReactionTo(workflow.status).sla, COORDINATOR_ACTION)),
                             Queued(CoordActionReady(action.jobId), 0)])
  {
  }

  /**
   * The new status depends on the workflow status alone: a callback repeated after the action
   * already reached that status persists the same record and writes the SLA event again.
   */
  lemma {:induction false} RepeatedCallbackWritesSlaAgain(workflow: WorkflowJob, jpa1: JpaService, jpa2: JpaService, now1: int, now2: int, action: CoordAction)
    requires ReactionTo(workflow.status).Terminal?
    requires jpa1.actionForExternalId(workflow.id) == Success(Some(action))
    requires jpa1.actionUpdate(Reconciled(action, ReactionTo(workflow.status), now1)).Success?
    requires jpa2.actionForExternalId(workflow.id) == Success(UpdateRun(None, workflow, jpa1, now1).caction)
    requires jpa2.actionUpdate(Reconciled(action, ReactionTo(workflow.status), now2)).Success?
    ensures var first := UpdateRun(None, workflow, jpa1, now1);
      var second := UpdateRun(first.caction, workflow, jpa2, now2);
      && second.caction == Some(Reconciled(action, ReactionTo(workflow.status), now2))
      && Only(first.run.effects + second.run.effects, IsSlaWrite)
         == [SlaWritten(SlaStatusEvent(action.slaXml, action.id, ReactionTo(workflow.status).sla, COORDINATOR_ACTION)),
             SlaWritten(SlaStatusEvent(action.slaXml, action.id, ReactionTo(workflow.status).sla, COORDINATOR_ACTION))]
  {
    var reaction := ReactionTo(workflow.status);
    var first := UpdateRun(None, workflow, jpa1, now1);
    var again := Reconciled(action, reaction, now1);
    assert Reconciled(again, reaction, now2) == Reconciled(action, reaction, now2);
    TerminalPersistsThenSlaThenReady(None, workflow, jpa1, now1, action);
    TerminalPersistsThenSlaThenReady(first.caction, workflow, jpa2, now2, again);
    var second := UpdateRun(first.caction, workflow, jpa2, now2);
    var sla := SlaWritten(SlaStatusEvent(action.slaXml, action.id, reaction.sla, COORDINATOR_ACTION));
    assert first.run.effects == first.run.effects[..2] + [sla] + first.run.effects[3..];
    assert second.run.effects == second.run.effects[..2] + [sla] + second.run.effects[3..];
    SlaOnce(first.run.effects[..2], sla, first.run.effects[3..]);
    SlaOnce(second.run.effects[..2], sla, second.run.effects[3..]);
    OnlyConcat(first.run.effects, second.run.effects, IsSlaWrite);
  }

  /**
   * A store failure is rethrown as a CommandException with the store's error code: a failed
   * lookup writes nothing, and a refused update writes no SLA event and queues nothing.
   */
  lemma {:induction false} StoreErrorsRethrown(caction: Option<CoordAction>, workflow: WorkflowJob, jpa: JpaService, now: int)
    ensures var u := UpdateRun(caction, workflow, jpa, now);
      && (jpa.actionForExternalId(workflow.id).Failure? ==>
            u.run == Run(Fail(CommandException(jpa.actionForExternalId(workflow.id).error.code)),
                         [Executed(CoordActionGetForExternalId(workflow.id))])
            && u.caction == caction)
      && (jpa.actionForExternalId(workflow.id).Success? && jpa.actionForExternalId(workflow.id).value.Some? ==>
            var updated := Reconciled(jpa.actionForExternalId(workflow.id).value.value, ReactionTo(workflow.status), now);
            jpa.actionUpdate(updated).Failure? ==>
              && u.run.outcome == Fail(CommandException(jpa.actionUpdate(updated).error.code))
              && Only(u.run.effects, IsSlaWrite) == []
              && Only(u.run.effects, IsQueued) == [])
  {
    var u := UpdateRun(caction, workflow, jpa, now);
    var found := jpa.actionForExternalId(workflow.id);
    if found.Success? && found.value.Some? {
      var updated := Reconciled(found.value.value, ReactionTo(workflow.status), now);
      if jpa.actionUpdate(updated).Failure? {
        assert u.run.effects == [Executed(CoordActionGetForExternalId(workflow.id)), Executed(CoordActionUpdate(updated))];
        OnlyNone(u.run.effects, IsSlaWrite);
        OnlyNone(u.run.effects, IsQueued);
      }
    }
  }

  lemma SlaOnce(before: seq<Effect>, sla: Effect, after: seq<Effect>)
    requires sla.SlaWritten?
    requires forall i :: 0 <= i < |before| ==> !before[i].SlaWritten?
    requires forall i :: 0 <= i < |after| ==> !after[i].SlaWritten?
    ensures Only(before + [sla] + after, IsSlaWrite) == [sla]
  {
    OnlyNone(before, IsSlaWrite);
    OnlyNone(after, IsSlaWrite);
    OnlyAll([sla], IsSlaWrite);
    OnlyConcat(before, [sla], IsSlaWrite);
    OnlyConcat(before + [sla], after, IsSlaWrite);
  }
}
