/** HardeningService.Create: choosing a strategy, freezing it into the new task, and handing the task to the
    repository. */
module HardeningService {
  import opened Wrappers
  import opened Strategy
  import opened Tables
  import opened ObjectKeys
  import opened Pipeline
  import opened Invariants
  import opened Theorems
  import opened StrategyLibrary
  import opened Creation
  import Repository
  import Reads

  datatype CreateInput = CreateInput(appId: nat, strategyId: nat, strategyName: string, snapshot: Option<Strategy>)

  datatype CreateTaskError = AppMissing | StrategyMissing | AppBusy | Internal

  datatype CreateResult = Started(id: nat) | Refused(error: CreateTaskError)

  /** The strategy a request asks for: a library row, a strategy sent along, or the current default. */
  function Chosen(lib: Library, input: CreateInput, fault: bool): Outcome<(Strategy, string)> {
    if input.strategyId > 0 then Resolved(lib, input.strategyId, fault)
    else if input.snapshot.Some? then Ok((input.snapshot.value, input.strategyName))
    else Resolved(lib, 0, fault)
  }

  /** What is copied into the task row. */
  function Frozen(chosen: (Strategy, string), defaultRules: string): (Strategy, string) {
    (chosen.0.(vmpRulesText := NormalizeVmpRules(chosen.0.vmpRulesText, defaultRules)),
     if chosen.1 == "" then DEFAULT_NAME else chosen.1)
  }

  function NewRow(frozen: (Strategy, string), appId: nat, taskNo: string, now: int): TaskRow {
    TaskRow(taskNo, appId, Queued, frozen.1, frozen.0, NO_ARTIFACTS, "", now)
  }

  /** A task row keeps a strategy and its name: the name falls back to the default one, the rule text loses
      its outer white space or, if it has nothing else, falls back to the configured rules. */
  ghost predicate Keeps(row: TaskRow, s: Strategy, name: string, defaultRules: string) {
    && row.snapshot == s.(vmpRulesText := row.snapshot.vmpRulesText)
    && (if AllSpace(s.vmpRulesText) then row.snapshot.vmpRulesText == defaultRules
        else row.snapshot.vmpRulesText != "" && IsMiddle(row.snapshot.vmpRulesText, s.vmpRulesText))
    && row.strategyName == if name == "" then DEFAULT_NAME else name
  }

  /** The strategy a row keeps is the library row asked for; else the one sent along; else the default. */
  ghost predicate KeepsChoice(row: TaskRow, lib: Library, input: CreateInput, fault: bool, defaultRules: string) {
    if input.strategyId > 0 then
      && input.strategyId in lib.rows
      && var chosen := lib.rows[input.strategyId];
         Keeps(row, chosen.content, if chosen.isDefault then DEFAULT_NAME else chosen.name, defaultRules)
    else if input.snapshot.Some? then Keeps(row, input.snapshot.value, input.strategyName, defaultRules)
    else
      && var current := Perform(lib, GetCurrent(fault)).1;
         current.Ok? && Keeps(row, current.value.1.content, DEFAULT_NAME, defaultRules)
  }

  lemma NewRowKeepsChoice(lib: Library, input: CreateInput, fault: bool, defaultRules: string, taskNo: string, now: int)
    ensures Chosen(lib, input, fault).Ok? <==>
      if input.strategyId > 0 then input.strategyId in lib.rows
      else input.snapshot.Some? || Perform(lib, GetCurrent(fault)).1.Ok?
    ensures Chosen(lib, input, fault).Ok? ==>
      var row := NewRow(Frozen(Chosen(lib, input, fault).value, defaultRules), input.appId, taskNo, now);
      && KeepsChoice(row, lib, input, fault, defaultRules)
      && row.taskNo == taskNo && row.appId == input.appId && row.createdAt == now
      && row.status == Queued && row.artifacts == NO_ARTIFACTS && row.errorSummary == ""
  {
    hide GettingCurrent;
    hide NormalizeVmpRules;
    hide AllSpace;
    hide IsMiddle;
  }

  lemma InsertedRow(db: Db, app: nat, id: nat, row: TaskRow, steps: seq<StepRow>)
    requires app in db.apps
    ensures var db' := InsertCommitted(db, app, id, row, steps);
      && id in db'.tasks && db'.tasks[id] == row && id in db'.steps && db'.steps[id] == steps
      && app in db'.apps && db'.apps[app] == db.apps[app].(status := AppProcessing)
  {
  }

  class HardeningService {
    const repo: Repository.HardeningRepository
    const strategies: StrategyService
    const defaultRules: string

    constructor (repo: Repository.HardeningRepository, strategies: StrategyService, defaultRules: string)
      ensures this.repo == repo && this.strategies == strategies && this.defaultRules == defaultRules
    {
      this.repo, this.strategies, this.defaultRules := repo, strategies, defaultRules;
    }

    method Choose(input: CreateInput, fault: bool) returns (r: Outcome<(Strategy, string)>)
      modifies strategies
      ensures r == Chosen(old(strategies.Contents()), input, fault)
      ensures strategies.Contents() ==
        if input.strategyId == 0 && input.snapshot.None?
        then Perform(old(strategies.Contents()), GetCurrent(fault)).0 else old(strategies.Contents())
    {
      if input.strategyId > 0 {
        r := strategies.ResolveForHardening(input.strategyId, fault);
      } else if input.snapshot.Some? {
        r := Ok((input.snapshot.value, input.strategyName));
      } else {
        r := strategies.ResolveForHardening(0, fault);
      }
    }

    /** `fault` is an error while resolving the default strategy, `faultAt` one of the transaction. */
    method Create(input: CreateInput, day: string, nanos: int, fault: bool, faultAt: Option<nat>)
      returns (r: CreateResult)
      modifies repo, strategies
      ensures r.Refused? ==>
        repo.Contents() == old(repo.Contents()).(nextTask := repo.nextTask) && old(repo.nextTask) <= repo.nextTask
      ensures r.Started? ==>
        var lib, db := old(strategies.Contents()), old(repo.Contents());
        var chosen := Chosen(lib, input, fault);
        && chosen.Ok? && r.id == db.nextTask && input.appId in db.apps && !HasActiveTask(db, input.appId)
        && repo.Contents() ==
           InsertCommitted(db.(nextTask := db.nextTask + 1), input.appId, r.id,
                           NewRow(Frozen(chosen.value, defaultRules), input.appId, GenerateTaskNo(day, nanos), nanos),
                           DefaultSteps(6))
      ensures r.Started? ==>
        && r.id in repo.tasks
        && var row := repo.tasks[r.id];
           && row.taskNo == GenerateTaskNo(day, nanos) && row.appId == input.appId && row.createdAt == nanos
           && row.status == Queued && row.artifacts == NO_ARTIFACTS && row.errorSummary == ""
           && KeepsChoice(row, old(strategies.Contents()), input, fault, defaultRules)
      ensures r.Started? ==>
        input.appId in repo.apps && repo.apps[input.appId] == old(repo.apps)[input.appId].(status := AppProcessing)
      ensures strategies.Contents() ==
        if input.appId in old(repo.apps) && input.strategyId == 0 && input.snapshot.None?
        then Perform(old(strategies.Contents()), GetCurrent(fault)).0 else old(strategies.Contents())
      ensures r == Refused(AppMissing) <== input.appId !in old(repo.apps)
      ensures input.appId in old(repo.apps) ==>
        (r == Refused(StrategyMissing) <==> input.strategyId > 0 && input.strategyId !in old(strategies.rows))
      ensures faultAt.None? && input.appId in old(repo.apps) && Chosen(old(strategies.Contents()), input, fault).Ok? ==>
        (r == Refused(AppBusy) <==> HasActiveTask(old(repo.Contents()), input.appId))
      ensures faultAt.None? ==>
        (r.Started? <==>
           && input.appId in old(repo.apps) && Chosen(old(strategies.Contents()), input, fault).Ok?
           && !HasActiveTask(old(repo.Contents()), input.appId)
           && forall t :: t in old(repo.tasks) ==> old(repo.tasks)[t].taskNo != GenerateTaskNo(day, nanos))
    {
      hide GettingCurrent;
      hide Perform;
      hide GenerateTaskNo;
      hide InsertCommitted;
      hide HasActiveTask;
      hide NormalizeVmpRules;
      hide KeepsChoice;
      if input.appId !in repo.apps {
        return Refused(AppMissing);
      }
      var chosen := Choose(input, fault);
      if chosen.Err? {
        return Refused(if input.strategyId > 0 && chosen.error == StrategyNotFound then StrategyMissing else Internal);
      }
      var (strategy, name) := chosen.value;
      if name == "" {
        name := DEFAULT_NAME;
      }
      strategy := strategy.(vmpRulesText := NormalizeVmpRules(strategy.vmpRulesText, defaultRules));
      var row := TaskRow(GenerateTaskNo(day, nanos), input.appId, Queued, name, strategy, NO_ARTIFACTS, "", nanos);
      var created := repo.CreateTaskWithStepsForApp(row, faultAt);
      match created
      case Err(ActiveTaskExists) => r := Refused(AppBusy);
      case Err(AppNotFound) => r := Refused(AppMissing);
      case Err(CreateFailed) => r := Refused(Internal);
      case Ok(id) =>
        NewRowKeepsChoice(old(strategies.Contents()), input, fault, defaultRules, row.taskNo, nanos);
        InsertedRow(old(repo.Contents()).(nextTask := old(repo.nextTask) + 1), input.appId, id, row, DefaultSteps(6));
        assert repo.steps[id] == DefaultSteps(6);
        r := Started(id);
    }
  }

  // ---------------------------------------------------------------- what becomes of the new task

  /** What Create promises of the tables is what the small steps of the pipeline do: no other call needs
      to run, and from there every theorem about runs applies. */
  lemma CreateRunsInThePipeline(run: seq<Action>, lib: Library, input: CreateInput, defaultRules: string,
                                day: string, nanos: int, fault: bool) returns (run': seq<Action>)
    requires ValidRun(INIT, run) && '/' !in day
    requires Chosen(lib, input, fault).Ok?
    requires var s := Exec(INIT, run);
      && input.appId in s.db.apps && input.appId !in s.txs && !HasActiveTask(s.db, input.appId)
      && TaskNoFree(s, input.appId, GenerateTaskNo(day, nanos))
    ensures run <= run' && ValidRun(INIT, run')
    ensures var s, s' := Exec(INIT, run), Exec(INIT, run');
      var row := NewRow(Frozen(Chosen(lib, input, fault).value, defaultRules), input.appId, GenerateTaskNo(day, nanos), nanos);
      && s'.db == InsertCommitted(s.db.(nextTask := s.db.nextTask + 1), input.appId, s.db.nextTask, row, DefaultSteps(6))
      && s'.objects == s.objects && s'.pc == s.pc && s'.txs == s.txs
  {
    hide ValidRun;
    hide Exec;
    hide GenerateTaskNo;
    hide IsTaskNo;
    hide HasActiveTask;
    hide TaskNoFree;
    hide DefaultSteps;
    hide InsertCommitted;
    hide NormalizeVmpRules;
    GeneratedTaskNo(day, nanos);
    var row := NewRow(Frozen(Chosen(lib, input, fault).value, defaultRules), input.appId, GenerateTaskNo(day, nanos), nanos);
    run' := CreationIsARun(run, input.appId, row);
  }

  /** The library and the pipeline side by side. */
  datatype System = System(lib: Library, state: State)

  datatype Event = Edit(call: Call) | Step(action: Action)

  ghost predicate Possible(sys: System, e: Event) { e.Step? ==> Enabled(sys.state, e.action) }

  ghost function After(sys: System, e: Event): System
    requires Possible(sys, e)
  {
    match e
    case Edit(call) => sys.(lib := Perform(sys.lib, call).0)
    case Step(a) => sys.(state := Apply(sys.state, a))
  }

  ghost predicate History(sys: System, events: seq<Event>, sys': System)
    decreases |events|
  {
    if events == [] then sys' == sys
    else Possible(sys, events[0]) && History(After(sys, events[0]), events[1..], sys')
  }

  /** Whatever is edited in the library, and whatever else happens: a task keeps the strategy it was created
      with, and once it is completed its report shows the risk level of that strategy. */
  lemma {:induction false} EditsNeverReachTasks(sys: System, events: seq<Event>, sys': System, t: nat)
    requires Inv(sys.state) && LibraryOk(sys.lib) && History(sys, events, sys') && t in sys.state.db.tasks
    ensures Inv(sys'.state) && LibraryOk(sys'.lib) && t in sys'.state.db.tasks
    ensures var row, row' := sys.state.db.tasks[t], sys'.state.db.tasks[t];
      && row'.snapshot == row.snapshot && row'.strategyName == row.strategyName
      && (row'.status == Completed ==>
            Reads.GetReport(sys'.state.db, t).Ok?
            && Reads.GetReport(sys'.state.db, t).value.riskLevel == ResolveRiskLevel(row.snapshot))
    decreases |events|
  {
    hide Inv;
    hide LibraryOk;
    hide Enabled;
    hide Apply;
    hide Perform;
    hide AfterScore;
    hide RiskLevelForScore;
    hide ResolveEffectiveFlags;
    hide Reads.ArtifactFileName;
    if events != [] {
      var next := After(sys, events[0]);
      match events[0] {
        case Edit(call) => CallKeepsLibraryOk(sys.lib, call);
        case Step(a) =>
          ActionFollows(sys.state, a, t);
          StepKeepsInv(sys.state, a);
      }
      EditsNeverReachTasks(next, events[1..], sys', t);
    }
  }
}
