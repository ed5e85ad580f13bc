/** The action code "ENFORCE PHASE COMPLETE RULES": run before a Phase is
    saved, it refuses a move to PHASE COMPLETE or SHOP DONE while one of the
    Phase's inspections is OPEN or PENDING. The script keeps an in-memory log;
    in its `finally` block the lines logged so far go to the event log. */
module EnforcePhaseUpdateRules {
  import opened PhaseRules
  import opened Host

  /** The lines the script writes. */
  const Starting: string := "STARTING"
  const Stopping: string := "STOPPING - COMPLETED WITHOUT FATAL ERRORS"
  const NothingToDo: string := "Phase processed - nothing to do."
  const CheckingInspections: string := "Phase's status is marked as 'complete' - let's ensure its inspection is closed."
  const Satisfied: string := "Phase processed - satisfied all business requirements."
  const ScriptErrorPrefix: string := "Error running script logic: \n"

  /** The fixed pieces of the line announcing the Phase. */
  const ProcessingHead: string := "Processing "
  const MovingTo: string := " moving to Status: "

  /** The first line of every run names the Phase and its target status. */
  function ProcessingLine(key: PhaseKey, phaseStatus: string): (line: string)
    ensures |line| == |ProcessingHead| + |KeyText(key)| + |MovingTo| + |phaseStatus|
    ensures line[..|ProcessingHead|] == ProcessingHead
    ensures line[|ProcessingHead|..|ProcessingHead| + |KeyText(key)|] == KeyText(key)
    ensures line[|line| - |phaseStatus|..] == phaseStatus
  {
    ProcessingHead + KeyText(key) + MovingTo + phaseStatus
  }

  /** The fixed pieces of the debug line for a rejection. */
  const NotClosedHead: string := "ERROR: This Phase's inspection, "
  const NotClosedTail: string := ", is not CLOSED."

  /** The debug line for a rejection names the offending inspection's number. */
  function NotClosedLine(inspectionNo: string): (line: string)
    ensures |line| == |NotClosedHead| + |inspectionNo| + |NotClosedTail|
    ensures line[|NotClosedHead|..|NotClosedHead| + |inspectionNo|] == inspectionNo
  {
    NotClosedHead + inspectionNo + NotClosedTail
  }

  /** The lines a `logIfDebug` call adds: all of them in debug mode, none otherwise. */
  function IfDebug(debug: bool, lines: seq<string>): seq<string>
  {
    if debug then lines else []
  }

  /** The error attached to the Phase when `message` rejects it. */
  function RejectionError(message: string): (e: ErrorMessage)
    ensures e.attribute == StatusCode && e.severity == Hard
    ensures e.text == [message]
  {
    ErrorMessage(StatusCode, ScriptError, Hard, [message])
  }

  /** How `runScript` ends: it returns a boolean, or an exception escapes it. */
  datatype Outcome = Returned(value: bool) | Raised(exception: string)

  /** One run of `runScript`: its outcome, the lines it logs and the errors the
      document carries afterwards. */
  datatype RunTrace = RunTrace(outcome: Outcome, log: seq<string>, errors: seq<ErrorMessage>)

  /** What `runScript` does for a Phase with key `key` moving to `phaseStatus`,
      when the inspection query would answer `query`. */
  function RunScriptSpec(debug: bool, key: PhaseKey, phaseStatus: string, query: QueryResult): RunTrace
  {
    var processing := [ProcessingLine(key, phaseStatus)];
    if !IsProhibited(phaseStatus) then
      RunTrace(Returned(true), processing + IfDebug(debug, [NothingToDo]), [])
    else
      var head := processing + IfDebug(debug, [CheckingInspections]);
      match query
      case Threw(e) => RunTrace(Raised(e), head, [])
      case Found(inspections) =>
        match Evaluate(phaseStatus, inspections)
        case Allowed => RunTrace(Returned(true), head + IfDebug(debug, [Satisfied]), [])
        case Blocked(_, offender, message) =>
          RunTrace(Returned(false), head + IfDebug(debug, [NotClosedLine(offender.inspectionNo)]), [RejectionError(message)])
  }

  /** What a run of `runScript` promises, for the trace `t` it produces. */
  lemma RunScriptSpecProperties(debug: bool, key: PhaseKey, phaseStatus: string, query: QueryResult, t: RunTrace)
    requires t == RunScriptSpec(debug, key, phaseStatus, query)
    // not a gated status: allowed, no error
    ensures !IsProhibited(phaseStatus) ==> t.outcome == Returned(true) && t.errors == []
    // an exception escapes exactly when the query is made and throws
    ensures t.outcome.Raised? <==> IsProhibited(phaseStatus) && query.Threw?
    ensures t.outcome.Raised? ==> t.outcome.exception == query.exception
    // a rejection happens exactly when a gated Phase has an open or pending inspection
    ensures t.outcome == Returned(false) <==>
      IsProhibited(phaseStatus) && query.Found? && !AllClosed(query.inspections)
    // the document carries exactly one error after a rejection, none otherwise,
    // and that error names the first offending inspection's status
    ensures t.errors != [] <==> t.outcome == Returned(false)
    ensures t.errors != [] ==>
      query.Found? && FirstBlocking(query.inspections).Some? &&
      t.errors == [RejectionError(RejectionPrefix + query.inspections[FirstBlocking(query.inspections).value].status)]
    // the first line always announces the Phase; without debug it is the only one
    ensures |t.log| >= 1 && t.log[0] == ProcessingLine(key, phaseStatus)
    ensures !debug ==> t.log == [ProcessingLine(key, phaseStatus)]
    // the closing line of the whole invocation is never logged by runScript
    ensures forall i :: 0 <= i < |t.log| ==> t.log[i] != Stopping
  {
    ClosingLineIsDistinct(Returned(true));
  }

  /** The trace of `runScript` along each of its four paths. A status that is
      not gated logs "nothing to do" and allows the save. */
  lemma NotGatedTrace(debug: bool, key: PhaseKey, phaseStatus: string, query: QueryResult)
    requires !IsProhibited(phaseStatus)
    ensures RunScriptSpec(debug, key, phaseStatus, query) ==
      RunTrace(Returned(true), [ProcessingLine(key, phaseStatus)] + IfDebug(debug, [NothingToDo]), [])
  {
  }

  /** A gated status whose inspection query throws lets the exception escape
      after the "let's ensure" line, with no error attached. */
  lemma ThrewTrace(debug: bool, key: PhaseKey, phaseStatus: string, exception: string)
    requires IsProhibited(phaseStatus)
    ensures RunScriptSpec(debug, key, phaseStatus, Threw(exception)) ==
      RunTrace(Raised(exception), [ProcessingLine(key, phaseStatus)] + IfDebug(debug, [CheckingInspections]), [])
  {
  }

  /** A gated status whose inspections are all closed is allowed, with no error. */
  lemma SatisfiedTrace(debug: bool, key: PhaseKey, phaseStatus: string, inspections: seq<Inspection>)
    requires IsProhibited(phaseStatus) && AllClosed(inspections)
    ensures RunScriptSpec(debug, key, phaseStatus, Found(inspections)) ==
      RunTrace(Returned(true), [ProcessingLine(key, phaseStatus)] + IfDebug(debug, [CheckingInspections]) + IfDebug(debug, [Satisfied]), [])
  {
  }

  /** A gated status is rejected at the first open or pending inspection `i`:
      its number is logged and one error names its status. */
  lemma RejectedTrace(debug: bool, key: PhaseKey, phaseStatus: string, inspections: seq<Inspection>, i: nat)
    requires IsProhibited(phaseStatus) && i < |inspections| && IsBlocking(inspections[i].status)
    requires forall j :: 0 <= j < i ==> !IsBlocking(inspections[j].status)
    ensures RunScriptSpec(debug, key, phaseStatus, Found(inspections)) ==
      RunTrace(Returned(false),
               [ProcessingLine(key, phaseStatus)] + IfDebug(debug, [CheckingInspections]) + IfDebug(debug, [NotClosedLine(inspections[i].inspectionNo)]),
               [RejectionError(RejectionPrefix + inspections[i].status)])
  {
    assert FirstBlocking(inspections) == Some(i);
  }

  /** Appending lines one call at a time builds the same log as appending them together. */
  lemma AppendAssociates(a: seq<string>, b: seq<string>, c: seq<string>)
    ensures a + (b + c) == a + b + c
  {
  }

  /** An entry of the event log: its kind ("E") and its message. */
  datatype EventRecord = EventRecord(kind: string, message: string)

  /** What the script hands to the event log: a title naming the Phase and one
      record per log line. */
  datatype EventBatch = EventBatch(title: string, records: seq<EventRecord>)

  /** The fixed text in front of the Phase key in the event-log title, up to
      and including the opening bracket. */
  const TitleHead: string := "Enforce Phase Complete Rules ["

  /** The event-log title names the Phase key between brackets. */
  function BatchTitle(key: PhaseKey): (title: string)
    ensures |title| == |TitleHead| + |KeyText(key)| + 1
    ensures title[|TitleHead| - 1] == '[' && title[|title| - 1] == ']'
    ensures title[|TitleHead|..|title| - 1] == KeyText(key)
  {
    TitleHead + KeyText(key) + "]"
  }

  function EventRecords(lines: seq<string>): seq<EventRecord>
  {
    seq(|lines|, i requires 0 <= i < |lines| => EventRecord("E", lines[i]))
  }

  /** The whole invocation: the overall `success`, every line logged, the batch
      handed to the event log in the `finally` block, and the document's errors. */
  datatype ScriptResult = ScriptResult(success: bool, log: seq<string>, batch: EventBatch, errors: seq<ErrorMessage>)

  /** What the whole invocation does for a Phase with key `key` moving to
      `phaseStatus`, when the inspection query would answer `query`. */
  function ScriptSpec(debug: bool, key: PhaseKey, phaseStatus: string, query: QueryResult): ScriptResult
  {
    var t := RunScriptSpec(debug, key, phaseStatus, query);
    var success := t.outcome == Returned(true);
    var beforeFinally := [Starting] + t.log + (if t.outcome.Raised? then [ScriptErrorPrefix + t.outcome.exception] else []);
    ScriptResult(success,
                 beforeFinally + (if success then [Stopping] else []),
                 EventBatch(BatchTitle(key), EventRecords(beforeFinally)),
                 t.errors)
  }

  /** What a whole invocation promises, for the result `s` it produces. */
  lemma ScriptSpecProperties(debug: bool, key: PhaseKey, phaseStatus: string, query: QueryResult, s: ScriptResult)
    requires s == ScriptSpec(debug, key, phaseStatus, query)
    // the save succeeds exactly when the Phase is not gated, or its inspections were fetched and all are closed
    ensures s.success <==> !IsProhibited(phaseStatus) || (query.Found? && AllClosed(query.inspections))
    ensures |s.log| >= 1 && s.log[0] == Starting
    // an exception leaves success false and is logged as the last line
    ensures IsProhibited(phaseStatus) && query.Threw? ==>
      !s.success && s.log[|s.log| - 1] == ScriptErrorPrefix + query.exception
    // the closing line is logged only on success, after the batch was taken, and nowhere else
    ensures s.success <==> s.log[|s.log| - 1] == Stopping
    ensures forall i :: 0 <= i < |s.log| - 1 ==> s.log[i] != Stopping
    ensures |s.batch.records| == if s.success then |s.log| - 1 else |s.log|
    ensures forall i :: 0 <= i < |s.batch.records| ==> s.batch.records[i] == EventRecord("E", s.log[i])
    ensures s.batch.title == BatchTitle(key)
    ensures s.errors == RunScriptSpec(debug, key, phaseStatus, query).errors
  {
    var t := RunScriptSpec(debug, key, phaseStatus, query);
    RunScriptSpecProperties(debug, key, phaseStatus, query, t);
    ClosingLineIsDistinct(t.outcome);
  }

  /** The lines that can end a run are distinct from the closing line. */
  lemma ClosingLineIsDistinct(outcome: Outcome)
    ensures outcome.Raised? ==> ScriptErrorPrefix + outcome.exception != Stopping
    ensures Starting != Stopping
    ensures forall key, status :: ProcessingLine(key, status) != Stopping
    ensures NothingToDo != Stopping && CheckingInspections != Stopping && Satisfied != Stopping
    ensures forall no :: NotClosedLine(no) != Stopping
  {
    if outcome.Raised? {
      assert (ScriptErrorPrefix + outcome.exception)[0] == 'E' != Stopping[0];
    }
    forall key, status ensures ProcessingLine(key, status) != Stopping {
      assert ProcessingLine(key, status)[1] == 'r' != Stopping[1];
    }
    forall no ensures NotClosedLine(no) != Stopping {
      assert NotClosedLine(no)[0] == 'E' != Stopping[0];
    }
    assert |NothingToDo| != |Stopping|;
    assert |CheckingInspections| != |Stopping|;
    assert |Satisfied| != |Stopping|;
  }

  /** One invocation of the action code on the document `doc`. */
  class PhaseCompleteRules {
    const debug: bool
    const doc: PhaseDocument
    const facade: AssetMgtFacade
    var logRecords: seq<string>

    /** The script's module state as it is set up before `log("STARTING")`. */
    constructor (debug: bool, doc: PhaseDocument, facade: AssetMgtFacade)
      ensures this.debug == debug && this.doc == doc && this.facade == facade
      ensures logRecords == []
    {
      this.debug := debug;
      this.doc := doc;
      this.facade := facade;
      logRecords := [];
    }

    method Log(message: string)
      modifies this`logRecords
      ensures logRecords == old(logRecords) + [message]
    {
      logRecords := logRecords + [message];
    }

    method LogIfDebug(message: string)
      modifies this`logRecords
      ensures logRecords == old(logRecords) + IfDebug(debug, [message])
    {
      if debug {
        Log(message);
      }
    }

    /** `runScript`: clear the document's errors, and for a gated status scan
        the Phase's inspections, rejecting at the first open or pending one. */
    method RunScript() returns (outcome: Outcome)
      modifies this`logRecords, doc`errors, facade`calls
      ensures var t := RunScriptSpec(debug, doc.Key(), doc.statusCode, facade.Answer(doc.Key()));
        outcome == t.outcome && doc.errors == t.errors && logRecords == old(logRecords) + t.log
      ensures facade.calls == old(facade.calls) + (if IsProhibited(doc.statusCode) then 1 else 0)
    {
      doc.ClearErrors();
      var key := doc.Key();
      var phaseStatus := doc.statusCode;
      Log(ProcessingLine(key, phaseStatus));
      ghost var processing := [ProcessingLine(key, phaseStatus)];
      if phaseStatus != PhaseComplete && phaseStatus != ShopDone {
        LogIfDebug(NothingToDo);
        NotGatedTrace(debug, key, phaseStatus, facade.Answer(key));
        AppendAssociates(old(logRecords), processing, IfDebug(debug, [NothingToDo]));
      } else {
        LogIfDebug(CheckingInspections);
        ghost var head := processing + IfDebug(debug, [CheckingInspections]);
        AppendAssociates(old(logRecords), processing, IfDebug(debug, [CheckingInspections]));
        var query := facade.FindByDto(key);
        if query.Threw? {
          ThrewTrace(debug, key, phaseStatus, query.exception);
          return Raised(query.exception);
        }
        var inspections := query.inspections;
        for i := 0 to |inspections|
          invariant forall j :: 0 <= j < i ==> !IsBlocking(inspections[j].status)
          invariant doc.errors == [] && logRecords == old(logRecords) + head
          invariant facade.calls == old(facade.calls) + 1
        {
          var inspectionStatus := inspections[i].status;
          if inspectionStatus == Open || inspectionStatus == Pending {
            LogIfDebug(NotClosedLine(inspections[i].inspectionNo));
            AppendAssociates(old(logRecords), head, IfDebug(debug, [NotClosedLine(inspections[i].inspectionNo)]));
            var errorText := [RejectionPrefix + inspectionStatus];
            doc.AddError(ErrorMessage(StatusCode, ScriptError, Hard, errorText));
            RejectedTrace(debug, key, phaseStatus, inspections, i);
            return Returned(false);
          }
        }
        LogIfDebug(Satisfied);
        AppendAssociates(old(logRecords), head, IfDebug(debug, [Satisfied]));
        SatisfiedTrace(debug, key, phaseStatus, inspections);
      }
      return Returned(true);
    }

    /** `writeToBatchEvent`: one "E" record per log line, in order, under a
        title naming the Phase. */
    method WriteToBatchEvent() returns (batch: EventBatch)
      ensures batch.title == BatchTitle(doc.Key())
      ensures |batch.records| == |logRecords|
      ensures forall i :: 0 <= i < |logRecords| ==> batch.records[i] == EventRecord("E", logRecords[i])
      ensures batch == EventBatch(BatchTitle(doc.Key()), EventRecords(logRecords))
    {
      var records := [];
      for i := 0 to |logRecords|
        invariant |records| == i
        invariant forall j :: 0 <= j < i ==> records[j] == EventRecord("E", logRecords[j])
      {
        records := records + [EventRecord("E", logRecords[i])];
      }
      batch := EventBatch(BatchTitle(doc.Key()), records);
    }

    /** The top level of the script: log the start, run the rule inside
        try/catch, hand the log to the event log, and log the stop on success. */
    method Execute() returns (success: bool, batch: EventBatch)
      requires logRecords == []
      modifies this`logRecords, doc`errors, facade`calls
      ensures var s := ScriptSpec(debug, doc.Key(), doc.statusCode, facade.Answer(doc.Key()));
        success == s.success && batch == s.batch && logRecords == s.log && doc.errors == s.errors
      ensures facade.calls == old(facade.calls) + (if IsProhibited(doc.statusCode) then 1 else 0)
    {
      ghost var key, status, query := doc.Key(), doc.statusCode, facade.Answer(doc.Key());
      ghost var t := RunScriptSpec(debug, key, status, query);
      ghost var beforeFinally := [Starting] + t.log + (if t.outcome.Raised? then [ScriptErrorPrefix + t.outcome.exception] else []);
      Log(Starting);
      success := false;
      var outcome := RunScript();
      assert outcome == t.outcome && doc.errors == t.errors && logRecords == [Starting] + t.log;
      match outcome {
        case Returned(b) =>
          success := b;
          assert logRecords == beforeFinally;
        case Raised(e) =>
          Log(ScriptErrorPrefix + e);
          assert logRecords == beforeFinally;
      }
      batch := WriteToBatchEvent();
      if success {
        Log(Stopping);
      }
      assert logRecords == beforeFinally + (if success then [Stopping] else []);
      assert doc.Key() == key && doc.statusCode == status && facade.Answer(key) == query;
    }
  }

  /** Errors left on the document by an earlier run never survive: running
      the rule twice gives the same outcome and the same errors. */
  method RunTwice(rules: PhaseCompleteRules) returns (first: Outcome, second: Outcome)
    modifies rules`logRecords, rules.doc`errors, rules.facade`calls
    ensures var t := RunScriptSpec(rules.debug, rules.doc.Key(), rules.doc.statusCode, rules.facade.Answer(rules.doc.Key()));
      first == second == t.outcome && rules.doc.errors == t.errors &&
      rules.logRecords == old(rules.logRecords) + t.log + t.log
    ensures rules.facade.calls == old(rules.facade.calls) + (if IsProhibited(rules.doc.statusCode) then 2 else 0)
  {
    first := rules.RunScript();
    second := rules.RunScript();
  }
}
