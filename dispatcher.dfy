/** gui/main_window.py: the console's operation buttons. `run_operation` refuses a second
    operation while one is in progress and otherwise records it and starts a worker;
    `_execute_operation` (the worker) routes the operation to its module, reports how it
    ended and clears the in-progress marker. */
module Dispatcher {
  import opened Wrappers
  import opened Text
  import opened Host
  import Evidence
  import Isolation
  import Forensics
  import Reporting

  /** The categories `_execute_operation` knows. */
  datatype Category = EvidenceCat | IsolationCat | ForensicsCat | ReportsCat

  function CategoryName(c: Category): string
  {
    match c
    case EvidenceCat => "evidence"
    case IsolationCat => "isolation"
    case ForensicsCat => "forensics"
    case ReportsCat => "reports"
  }

  /** The category a name selects, if any. */
  function CategoryNamed(name: string): (r: Option<Category>)
    ensures r.Some? ==> CategoryName(r.value) == name
    ensures r.None? ==> forall c :: CategoryName(c) != name
  {
    if name == "evidence" then Some(EvidenceCat)
    else if name == "isolation" then Some(IsolationCat)
    else if name == "forensics" then Some(ForensicsCat)
    else if name == "reports" then Some(ReportsCat)
    else None
  }

  /** `f"{category}_{operation}"`: never empty, so always truthy. */
  function OperationId(category: string, operation: string): (id: string)
    ensures id != [] && |id| == |category| + 1 + |operation|
    ensures id[..|category|] == category && id[|category|] == '_' && id[|category| + 1..] == operation
  {
    category + "_" + operation
  }

  /** The status label's text for `update_status(s)`. */
  function StatusText(s: string): string
  {
    "STATUS: " + Upper(s)
  }

  /** The label shows an operation in progress. */
  predicate Running(status: string)
  {
    StartsWith(status, "STATUS: RUNNING ")
  }

  /** The label `run_operation` sets reads as running; the two the worker leaves behind
      do not. */
  lemma StatusLabels(operation: string)
    ensures Running(StatusText("RUNNING " + Upper(operation)))
    ensures !Running(StatusText("READY")) && !Running(StatusText("ERROR"))
  {
    var s := StatusText("RUNNING " + Upper(operation));
    assert forall i :: 0 <= i < 16 ==> s[i] == "STATUS: RUNNING "[i];
    assert StatusText("READY")[9] == 'E' != "STATUS: RUNNING "[9];
    assert StatusText("ERROR")[8] == 'E' != "STATUS: RUNNING "[8];
  }

  function StartedLine(category: string, operation: string): string
  {
    "Starting " + Upper(category) + " operation: " + Upper(operation)
  }

  function CompletedLine(operation: string): string
  {
    "Operation " + Upper(operation) + " completed"
  }

  /** What the body of the `try` yields: construct the category's module and run the
      operation on it. Only evidence collection lets an error escape; an unknown category
      gives a message as its result. `lines` are the modelled messages the module logs. */
  predicate Routed(env: Env, platform: string, config: Config, category: string, operation: string,
                   outcome: Outcome<string>, lines: seq<string>)
  {
    && (CategoryNamed(category) == Some(EvidenceCat) && Evidence.OpNamed(operation).Some? ==>
          outcome == Evidence.Expected(env, platform, OutputDir(config), Evidence.OpNamed(operation).value) && lines == [])
    && (CategoryNamed(category) == Some(EvidenceCat) && Evidence.OpNamed(operation).None? ==>
          outcome == Returned(None) && lines == ["Unknown evidence operation: " + operation])
    && (CategoryNamed(category) == Some(IsolationCat) ==>
          outcome.Returned?
          && (Isolation.OpNamed(operation).None? ==> outcome.value.None? && lines == ["Unknown isolation operation: " + operation]))
    && (CategoryNamed(category) == Some(IsolationCat) && Isolation.OpNamed(operation) == Some(Isolation.WhitelistOp) ==>
          outcome == Returned(Some(PathJoin(OutputDir(config), "whitelist_ips.json"))))
    && (CategoryNamed(category) == Some(ForensicsCat) ==>
          outcome.Returned?
          && (Forensics.OpNamed(operation).None? ==> outcome.value.None? && lines == ["Unknown forensics operation: " + operation]))
    && (CategoryNamed(category) == Some(ReportsCat) && Reporting.OpNamed(operation).Some? ==>
          outcome == Returned(Some(Reporting.OutputPath(Reporting.OpNamed(operation).value, OutputDir(config), env.stamp)))
          && lines == [])
    && (CategoryNamed(category) == Some(ReportsCat) && Reporting.OpNamed(operation).None? ==>
          outcome == Returned(None) && lines == ["Unknown reporting operation: " + operation])
    && (CategoryNamed(category).None? ==> outcome == Returned(Some("Unknown category: " + category)) && lines == [])
  }

  /** The body of the `try`, as `Routed` describes it. */
  method Route(env: Env, platform: string, config: Config, category: string, operation: string)
    returns (outcome: Outcome<string>, lines: seq<string>)
    ensures Routed(env, platform, config, category, operation, outcome, lines)
  {
    match CategoryNamed(category)
    case Some(EvidenceCat) =>
      outcome, lines := Evidence.RunOperation(env, platform, config, operation);
    case Some(IsolationCat) =>
      var result;
      result, lines := Isolation.RunOperation(env, platform, config, operation);
      outcome := Returned(result);
    case Some(ForensicsCat) =>
      var result;
      result, lines := Forensics.RunOperation(env, platform, config, operation);
      outcome := Returned(result);
    case Some(ReportsCat) =>
      var result;
      result, lines := Reporting.RunOperation(env, platform, config, operation);
      outcome := Returned(result);
    case None =>
      outcome, lines := Returned(Some("Unknown category: " + category)), [];
  }

  /** The console's operation state: `current_operation`, the status label's text and the
      terminal's lines (without their clock prefix). */
  class MainWindow {
    var currentOperation: Option<string>
    var status: string
    var log: seq<string>

    /** `current_operation` only ever holds an operation id, and it is set exactly while
        the label shows an operation running. */
    predicate Valid()
      reads this
    {
      (currentOperation.Some? ==> currentOperation.value != [])
      && (currentOperation.Some? <==> Running(status))
    }

    /** `if self.current_operation:`: set and not empty. */
    predicate Busy()
      reads this
    {
      currentOperation.Some? && currentOperation.value != []
    }

    /** The state `__init__` leaves: nothing running, `STATUS: READY`, the greeting lines. */
    constructor (platform: string)
      ensures Valid() && !Busy()
      ensures currentOperation == None && status == StatusText("READY")
      ensures log == ["IRIS SYSTEM INITIALIZED", "Platform: " + Upper(platform), "Ready for incident response operations..."]
    {
      StatusLabels("");
      currentOperation := None;
      status := StatusText("READY");
      log := ["IRIS SYSTEM INITIALIZED", "Platform: " + Upper(platform), "Ready for incident response operations..."];
    }

    /** `run_operation`: while an operation is in progress nothing changes (the source
        shows a warning box); otherwise the operation is marked in progress, the status
        and terminal say so, and the worker is started (`started`). */
    method RunOperation(category: string, operation: string) returns (started: bool)
      requires Valid()
      modifies this
      ensures Valid()
      ensures started <==> old(currentOperation).None?
      ensures Running(status)
      ensures !started ==> currentOperation == old(currentOperation) && status == old(status) && log == old(log)
      ensures started ==>
        (currentOperation == Some(OperationId(category, operation))
         && status == StatusText("RUNNING " + Upper(operation))
         && log == old(log) + [StartedLine(category, operation)])
    {
      if Busy() {
        return false;
      }
      StatusLabels(operation);
      currentOperation := Some(OperationId(category, operation));
      status := StatusText("RUNNING " + Upper(operation));
      log := log + [StartedLine(category, operation)];
      started := true;
    }

    /** `_execute_operation`: the routed operation's messages, then `completed` and
        `READY` when it returns, or `ERROR: <reason>` and `ERROR` when it raises; in every
        case the in-progress marker is cleared. Which of the two happens, and which lines
        are logged, is what `Routed` fixes for the category and operation. */
    method ExecuteOperation(env: Env, platform: string, config: Config, category: string, operation: string)
      returns (outcome: Outcome<string>, lines: seq<string>)
      modifies this
      ensures Valid() && !Busy() && currentOperation == None && !Running(status)
      ensures outcome.Returned? ==> status == StatusText("READY") && log == old(log) + lines + [CompletedLine(operation)]
      ensures outcome.Raised? ==> status == StatusText("ERROR") && log == old(log) + lines + ["ERROR: " + outcome.reason]
      ensures outcome.Raised? ==> CategoryNamed(category) == Some(EvidenceCat)
      ensures Routed(env, platform, config, category, operation, outcome, lines)
    {
      StatusLabels(operation);
      outcome, lines := Route(env, platform, config, category, operation);
      log := log + lines;
      match outcome {
        case Returned(_) =>
          log := log + [CompletedLine(operation)];
          status := StatusText("READY");
        case Raised(reason) =>
          log := log + ["ERROR: " + reason];
          status := StatusText("ERROR");
      }
      currentOperation := None;
    }
  }

  /** One button press run to its end: the press is accepted when the console is idle,
      and once the worker has finished the console is idle again and accepts the next. */
  method PressAndFinish(w: MainWindow, env: Env, platform: string, config: Config, category: string, operation: string)
    returns (accepted: bool, again: bool)
    requires w.Valid() && !w.Busy()
    modifies w
    ensures accepted && again
    ensures w.currentOperation == Some(OperationId(category, operation))
  {
    accepted := w.RunOperation(category, operation);
    var outcome, lines := w.ExecuteOperation(env, platform, config, category, operation);
    again := w.RunOperation(category, operation);
  }
}
