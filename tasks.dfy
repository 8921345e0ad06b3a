/** The base class of background tasks (src/base/Task.php): the status
    values and validation rules, the description fallback, progress from the
    step counters, and running a subtask through the tasks service. */
module Tasks {
  import opened Php

  datatype Status = Pending | Running | Error

  const STATUS_PENDING := "pending"
  const STATUS_RUNNING := "running"
  const STATUS_ERROR := "error"

  function StatusName(s: Status): string {
    match s
    case Pending => STATUS_PENDING
    case Running => STATUS_RUNNING
    case Error => STATUS_ERROR
  }

  /** The status a stored status string stands for, if it is one of the three. */
  function ParseStatus(name: string): (r: Option<Status>)
    ensures r.Some? <==> name in [STATUS_PENDING, STATUS_RUNNING, STATUS_ERROR]
    ensures r.Some? ==> StatusName(r.value) == name
  {
    if name == STATUS_PENDING then Some(Pending)
    else if name == STATUS_RUNNING then Some(Running)
    else if name == STATUS_ERROR then Some(Error)
    else None
  }

  lemma StatusRoundTrip(s: Status)
    ensures ParseStatus(StatusName(s)) == Some(s)
  {
  }

  // ---------------------------------------------------------------------
  // Validation rules

  datatype Attribute = IdAttr | CurrentStepAttr | TotalStepsAttr | StatusAttr

  /** The attribute values the rules are checked against. */
  datatype Attributes = Attributes(id: Scalar, currentStep: Scalar, totalSteps: Scalar, status: Option<string>)

  /** A validator skips an empty value (null or ""). */
  predicate IsEmptyValue(v: Scalar) {
    v == Null || v == Str("")
  }

  /** The `number` rule with `integerOnly`: booleans are not numbers, and a
      value must print as an integer. */
  predicate PassesIntegerRule(v: Scalar) {
    IsEmptyValue(v) ||
    match v
    case Int(_) => true
    case Str(s) => IsIntegerText(s)
    case _ => false
  }

  /** The `in` rule over the three status names. */
  predicate PassesStatusRule(status: Option<string>) {
    status.None? || status.value == "" || ParseStatus(status.value).Some?
  }

  /** The attributes that fail the rules. */
  function Validate(a: Attributes): (errors: set<Attribute>)
    ensures errors == {} <==>
      PassesIntegerRule(a.id) && PassesIntegerRule(a.currentStep) &&
      PassesIntegerRule(a.totalSteps) && PassesStatusRule(a.status)
  {
    (if PassesIntegerRule(a.id) then {} else {IdAttr})
    + (if PassesIntegerRule(a.currentStep) then {} else {CurrentStepAttr})
    + (if PassesIntegerRule(a.totalSteps) then {} else {TotalStepsAttr})
    + (if PassesStatusRule(a.status) then {} else {StatusAttr})
  }

  /** A non-empty status validates exactly when it is one of the three names. */
  lemma StatusRuleAcceptsExactlyTheStatuses(a: Attributes)
    requires a.status.Some? && a.status.value != ""
    ensures StatusAttr !in Validate(a) <==> exists s :: a.status.value == StatusName(s)
  {
    if StatusAttr !in Validate(a) {
      assert a.status.value == StatusName(ParseStatus(a.status.value).value);
    }
  }

  /** Counters posted as the decimal text of an integer pass the integer rule,
      just as integers do. */
  lemma PrintedCountersValidate(id: Option<int>, currentStep: int, totalSteps: int, s: Status)
    ensures Validate(Attributes(
      if id.Some? then Str(IntText(id.value)) else Null,
      Str(IntText(currentStep)), Str(IntText(totalSteps)), Some(StatusName(s)))) == {}
  {
    var idValue := if id.Some? then Str(IntText(id.value)) else Null;
    assert PassesIntegerRule(idValue) by {
      if id.Some? { IntTextIsIntegerText(id.value); }
    }
    assert PassesIntegerRule(Str(IntText(currentStep))) by {
      IntTextIsIntegerText(currentStep);
    }
    assert PassesIntegerRule(Str(IntText(totalSteps))) by {
      IntTextIsIntegerText(totalSteps);
    }
    assert PassesStatusRule(Some(StatusName(s))) by {
      StatusRoundTrip(s);
    }
  }

  /** A boolean counter is never accepted. */
  lemma BooleanCounterRejected(a: Attributes, b: bool)
    requires a.currentStep == Bool(b)
    ensures CurrentStepAttr in Validate(a)
  {
  }

  /** The attributes of a task object: counters are integers or null, so
      only the status can fail the rules. */
  lemma TaskAttributesValidate(t: Task)
    ensures Validate(t.AttributeValues()) == {} <==> PassesStatusRule(t.status)
  {
  }

  // ---------------------------------------------------------------------
  // Progress

  /** `$currentStep / $totalSteps`, or the division by zero PHP reports. */
  datatype Progress = Fraction(value: real) | DivisionByZero

  function OptionScalar(v: Option<int>): Scalar {
    if v.Some? then Int(v.value) else Null
  }

  // ---------------------------------------------------------------------
  // The task object

  class Task {
    var id: Option<int>
    var parentId: Option<int>
    var status: Option<string>
    var currentStep: Option<int>
    var totalSteps: Option<int>
    var description: Option<string>
    /** `static::displayName()` of the task's class. */
    const displayName: string

    constructor(displayName: string, description: Option<string>)
      ensures this.displayName == displayName && this.description == description
      ensures id == None && parentId == None && status == None
      ensures currentStep == None && totalSteps == None
    {
      this.displayName := displayName;
      this.description := description;
      id, parentId, status := None, None, None;
      currentStep, totalSteps := None, None;
    }

    function AttributeValues(): Attributes
      reads this
    {
      Attributes(OptionScalar(id), OptionScalar(currentStep), OptionScalar(totalSteps), status)
    }

    /** `$this->description ?: $this->defaultDescription()` */
    function Description(): (d: string)
      reads this
      ensures OptionTruthy(description) ==> d == description.value
      ensures !OptionTruthy(description) ==> d == displayName
    {
      if description.Some? && Truthy(description.value) then description.value else displayName
    }

    /** The base class expects no steps. */
    function TotalSteps(): (n: int)
      ensures n == 0
    {
      0
    }

    /** The base class's step does nothing and succeeds. */
    function RunStep(step: int): (ok: bool)
      ensures ok
    {
      true
    }

    /** Progress exactly as computed: the quotient when both counters are
        set, else 0; a zero total with a set current step divides by zero. */
    function Progress(): (p: Progress)
      reads this
      ensures p.DivisionByZero? <==> currentStep.Some? && totalSteps == Some(0)
      ensures (currentStep.None? || totalSteps.None?) ==> p == Fraction(0.0)
      ensures p.Fraction? && currentStep.Some? && totalSteps.Some? ==>
                p.value * totalSteps.value as real == currentStep.value as real
    {
      if totalSteps.Some? && currentStep.Some? then
        if totalSteps.value == 0 then DivisionByZero
        else Fraction(currentStep.value as real / totalSteps.value as real)
      else Fraction(0.0)
    }

    /** The corrected progress: 0 for a zero total, the quotient otherwise. */
    function GuardedProgress(): (p: real)
      reads this
      ensures Progress().Fraction? ==> p == Progress().value
      ensures totalSteps == Some(0) ==> p == 0.0
      ensures (currentStep.Some? && totalSteps.Some? && 0 <= currentStep.value <= totalSteps.value)
                ==> 0.0 <= p <= 1.0
    {
      if totalSteps.Some? && currentStep.Some? && totalSteps.value != 0 then
        currentStep.value as real / totalSteps.value as real
      else 0.0
    }

    /** Sets the subtask's parent to this task, saves it, and runs it only
        when saving succeeded. */
    method RunSubTask(arg: SubTask, service: TasksService) returns (ok: bool, ghost sub: Task)
      modifies service, if arg.Instance? then {arg.task} else {}
      ensures id == old(id)
      ensures arg.Instance? ==> sub == arg.task
      ensures arg.Spec? ==> fresh(sub) && sub.displayName == service.displayNameOf(arg.config.taskType)
      ensures sub.parentId == old(id)
      ensures arg.Instance? ==> unchanged(arg.task`id, arg.task`status, arg.task`currentStep,
                                          arg.task`totalSteps, arg.task`description)
      ensures service.calls ==
                old(service.calls)
                + (if arg.Spec? then [CreateCall(arg.config)] else [])
                + [SaveCall(sub, old(id))]
                + (if service.saveSucceeds(sub) then [RunCall(sub)] else [])
      ensures ok == (service.saveSucceeds(sub) && service.runSucceeds(sub))
    {
      var task: Task;
      if arg.Instance? {
        task := arg.task;
      } else {
        task := service.CreateTask(arg.config);
      }
      sub := task;
      task.parentId := id;
      var saved := service.SaveTask(task);
      if saved {
        ok := service.RunTask(task);
        return;
      }
      ok := false;
    }
  }

  /** What `runSubTask` is given: a task object, or the type and settings of
      one for the service to create. */
  datatype SubTask = Instance(task: Task) | Spec(config: TaskConfig)

  datatype TaskConfig = TaskConfig(taskType: string, settings: map<string, Scalar>)

  /** A call made on the tasks service, with the parent ID the task had when
      it was saved. */
  datatype ServiceCall =
    | CreateCall(config: TaskConfig)
    | SaveCall(task: Task, parentId: Option<int>)
    | RunCall(task: Task)

  /** The tasks service, reduced to a log of the calls it receives and
      oracles for what saving and running report. */
  class TasksService {
    var calls: seq<ServiceCall>
    const displayNameOf: string -> string
    const saveSucceeds: Task -> bool
    const runSucceeds: Task -> bool

    constructor(displayNameOf: string -> string, saveSucceeds: Task -> bool, runSucceeds: Task -> bool)
      ensures calls == []
      ensures this.displayNameOf == displayNameOf
      ensures this.saveSucceeds == saveSucceeds && this.runSucceeds == runSucceeds
    {
      calls := [];
      this.displayNameOf := displayNameOf;
      this.saveSucceeds := saveSucceeds;
      this.runSucceeds := runSucceeds;
    }

    method CreateTask(config: TaskConfig) returns (t: Task)
      modifies this
      ensures fresh(t) && t.displayName == displayNameOf(config.taskType)
      ensures calls == old(calls) + [CreateCall(config)]
    {
      t := new Task(displayNameOf(config.taskType), None);
      calls := calls + [CreateCall(config)];
    }

    method SaveTask(t: Task) returns (ok: bool)
      modifies this
      ensures ok == saveSucceeds(t)
      ensures calls == old(calls) + [SaveCall(t, t.parentId)]
    {
      ok := saveSucceeds(t);
      calls := calls + [SaveCall(t, t.parentId)];
    }

    method RunTask(t: Task) returns (ok: bool)
      modifies this
      ensures ok == runSucceeds(t)
      ensures calls == old(calls) + [RunCall(t)]
    {
      ok := runSucceeds(t);
      calls := calls + [RunCall(t)];
    }
  }

  /** A task whose total was taken from the base class's step count (0) and
      whose current step is set cannot report progress: the division is not
      guarded. */
  lemma ZeroStepTaskDividesByZero(t: Task)
    requires t.totalSteps == Some(t.TotalSteps()) && t.currentStep == Some(0)
    ensures t.Progress() == DivisionByZero
    ensures t.GuardedProgress() == 0.0
  {
  }
}
