/**
 * CoordJobXCommand: load a coordinator job and, when asked, a window of its actions.
 * The command reads the store and changes nothing in it, so it takes no lock.
 */
module CoordJobInfo {
  import opened Oozie
  import opened Runtime

  /** The command's fields, fixed at construction. */
  datatype CoordJobXCommand = CoordJobXCommand(id: string, getActionInfo: bool, start: int, len: int) {

    predicate IsLockRequired() {
      false
    }

    /** The job id names the entity the command works on. */
    function EntityKey(): Option<string> {
      Some(id)
    }

    /** `svc.jpaService` is absent when no JPA service is registered. */
    method Execute(svc: Services) returns (r: Result<Option<CoordJob>, Error>)
      modifies svc
      ensures var l := Loaded(this, svc.jpaService);
        r == l.result && svc.effects == old(svc.effects) + l.effects
    {
      if svc.jpaService.None? {
        return Success(None);
      }
      var coordJob := svc.GetCoordJob(id);
      if coordJob.Failure? {
        return Failure(AsCommandException(coordJob.error));
      }
      var job := coordJob.value;
      if getActionInfo {
        var coordActions := svc.GetActionsSubset(id, start, len);
        if coordActions.Failure? {
          return Failure(AsCommandException(coordActions.error));
        }
        job := job.(actions := coordActions.value);
      }
      return Success(Some(job));
    }
  }

  /** `ParamChecker.notEmpty`: a missing (null) or empty id is an illegal argument. */
  function NotEmpty(id: Option<string>): (r: Result<string, Error>)
    ensures r.Success? <==> id.Some? && id.value != ""
    ensures r.Success? ==> r.value == id.value
    ensures r.Failure? ==> r.error == IllegalArgument("id")
  {
    if id.Some? && id.value != "" then Success(id.value) else Failure(IllegalArgument("id"))
  }

  /** `new CoordJobXCommand(id, start, length)`: the given window, with the actions loaded. */
  function WithRange(id: Option<string>, start: int, length: int): (r: Result<CoordJobXCommand, Error>)
    ensures r.Failure? <==> id.None? || id.value == ""
    ensures r.Failure? ==> r.error == IllegalArgument("id")
    ensures r.Success? ==> r.value.id == id.value && r.value.getActionInfo
    ensures r.Success? ==> r.value.start == start && r.value.len == length
  {
    match NotEmpty(id)
    case Failure(e) => Failure(e)
    case Success(checked) => Success(CoordJobXCommand(checked, true, start, length))
  }

  /** `new CoordJobXCommand(id)`: the whole action list, from action 1. */
  function ForJob(id: Option<string>): (r: Result<CoordJobXCommand, Error>)
    ensures r.Failure? <==> id.None? || id.value == ""
    ensures r.Failure? ==> r.error == IllegalArgument("id")
    ensures r.Success? ==> r.value.id == id.value && r.value.getActionInfo
    ensures r.Success? ==> r.value.start == 1 && r.value.len == INT_MAX
  {
    WithRange(id, 1, INT_MAX)
  }

  /** `new CoordJobXCommand(id, getActionInfo)`: the field defaults give the window 1 / Integer.MAX_VALUE. */
  function WithActionInfo(id: Option<string>, getActionInfo: bool): (r: Result<CoordJobXCommand, Error>)
    ensures r.Failure? <==> id.None? || id.value == ""
    ensures r.Failure? ==> r.error == IllegalArgument("id")
    ensures r.Success? ==> r.value.id == id.value && r.value.getActionInfo == getActionInfo
    ensures r.Success? ==> r.value.start == 1 && r.value.len == INT_MAX
  {
    match NotEmpty(id)
    case Failure(e) => Failure(e)
    case Success(checked) => Success(CoordJobXCommand(checked, getActionInfo, 1, INT_MAX))
  }

  /** What one execution returns, and the store commands it ran. */
  datatype Load = Load(result: Result<Option<CoordJob>, Error>, effects: seq<Effect>)

  function Loaded(cmd: CoordJobXCommand, jpa: Option<JpaService>): (l: Load)
    ensures l.result == Success(None) <==> jpa.None?
    ensures |l.effects| <= 2
    ensures l.result.Failure? ==> l.result.error.CommandException?
    ensures l.result.Success? && l.result.value.Some? ==>
      && jpa.Some? && jpa.value.coordJob(cmd.id).Success?
      && l.result.value.value == jpa.value.coordJob(cmd.id).value.(actions := l.result.value.value.actions)
  {
    if jpa.None? then Load(Success(None), [])
    else
      var got := [Executed(CoordJobGet(cmd.id))];
      match jpa.value.coordJob(cmd.id)
      case Failure(ex) => Load(Failure(AsCommandException(ex)), got)
      case Success(job) =>
        if !cmd.getActionInfo then Load(Success(Some(job)), got)
        else
          var both := got + [Executed(CoordActionsSubsetGetForJob(cmd.id, cmd.start, cmd.len))];
          match jpa.value.actionsSubset(cmd.id, cmd.start, cmd.len)
          case Failure(ex) => Load(Failure(AsCommandException(ex)), both)
          case Success(actions) => Load(Success(Some(job.(actions := actions))), both)
  }

  // ---------------------------------------------------------------------------
  // What the command promises.

  /** The job-info query takes no lock and reports its job id as entity key. */
  lemma InfoLockFreeKeyedById(cmd: CoordJobXCommand)
    ensures !cmd.IsLockRequired() && cmd.EntityKey() == Some(cmd.id)
  {
  }

  /** Without a JPA service the command returns no job and runs nothing. */
  lemma NoServiceNoJob(cmd: CoordJobXCommand)
    ensures Loaded(cmd, None) == Load(Success(None), [])
  {
  }

  /**
   * The job comes back as the store holds it, except that its actions are replaced by the
   * subset for (id, start, len) exactly when `getActionInfo` is set; that subset is only
   * queried then.
   */
  lemma {:induction false} ActionsAttachedOnlyWhenAsked(cmd: CoordJobXCommand, jpa: JpaService, job: CoordJob)
    requires jpa.coordJob(cmd.id) == Success(job)
    ensures var l := Loaded(cmd, Some(jpa));
      && (!cmd.getActionInfo ==> l == Load(Success(Some(job)), [Executed(CoordJobGet(cmd.id))]))
      && (cmd.getActionInfo && jpa.actionsSubset(cmd.id, cmd.start, cmd.len).Success? ==>
            l.result == Success(Some(job.(actions := jpa.actionsSubset(cmd.id, cmd.start, cmd.len).value))))
      && (CoordActionsSubsetGetForJob(cmd.id, cmd.start, cmd.len) in Commands(l.effects) <==> cmd.getActionInfo)
  {
    var l := Loaded(cmd, Some(jpa));
    var get := Executed(CoordJobGet(cmd.id));
    var subset := Executed(CoordActionsSubsetGetForJob(cmd.id, cmd.start, cmd.len));
    if cmd.getActionInfo {
      assert l.effects == [get, subset];
      assert Commands(l.effects)[1] == subset.command;
    } else {
      assert l.effects == [get];
      assert Commands(l.effects) == [get.command];
    }
  }

  /** The store commands of a log of effects, in order. */
  function Commands(effects: seq<Effect>): (r: seq<JpaCommand>)
    ensures |r| <= |effects|
    ensures forall c :: c in r ==> Executed(c) in effects
  {
    if effects == [] then []
    else
      var rest := Commands(effects[1..]);
      assert forall c :: c in rest ==> Executed(c) in effects;
      (if effects[0].Executed? then [effects[0].command] else []) + rest
  }

  /** A store failure is rethrown as a CommandException with the store's error code; no job is returned. */
  lemma StoreErrorsRethrown(cmd: CoordJobXCommand, jpa: JpaService)
    requires jpa.coordJob(cmd.id).Failure? ||
             (cmd.getActionInfo && jpa.coordJob(cmd.id).Success? && jpa.actionsSubset(cmd.id, cmd.start, cmd.len).Failure?)
    ensures var l := Loaded(cmd, Some(jpa));
      l.result.Failure? && l.result.error.CommandException?
      && l.result.error.code == (if jpa.coordJob(cmd.id).Failure? then jpa.coordJob(cmd.id).error.code
                                 else jpa.actionsSubset(cmd.id, cmd.start, cmd.len).error.code)
  {
  }

  /** The command only reads: it never updates an action or a job. */
  lemma {:induction false} InfoOnlyReads(cmd: CoordJobXCommand, jpa: Option<JpaService>)
    ensures var l := Loaded(cmd, jpa);
      Only(l.effects, IsActionWrite) == [] && Only(l.effects, IsJobWrite) == []
  {
    var l := Loaded(cmd, jpa);
    OnlyNone(l.effects, IsActionWrite);
    OnlyNone(l.effects, IsJobWrite);
  }

  /** An empty or missing id is refused by all three constructors alike. */
  lemma EveryConstructorChecksId(id: Option<string>, start: int, length: int, getActionInfo: bool)
    ensures ForJob(id).Failure? <==> WithRange(id, start, length).Failure?
    ensures WithRange(id, start, length).Failure? <==> WithActionInfo(id, getActionInfo).Failure?
  {
  }

  /** The one-argument constructor is the action-loading boolean constructor. */
  lemma ForJobLoadsAllActions(id: Option<string>)
    ensures ForJob(id) == WithActionInfo(id, true)
  {
  }
}
