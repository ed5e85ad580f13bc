/** The host objects the action code works on: the Phase document being saved,
    the error it can carry, and the asset-management facade that looks up the
    Phase's inspections. */
module Host {
  import opened PhaseRules

  /** A Phase is identified by its proposal (work order) and sort code. */
  datatype PhaseKey = PhaseKey(proposal: string, sortCode: string)

  /** The key as it appears in log lines: proposal, a dash, the sort code. */
  function KeyText(key: PhaseKey): (t: string)
    ensures |t| == |key.proposal| + 1 + |key.sortCode|
    ensures t[..|key.proposal|] == key.proposal
    ensures t[|key.proposal|] == '-'
    ensures t[|key.proposal| + 1..] == key.sortCode
  {
    key.proposal + "-" + key.sortCode
  }

  /** The single values of the host enumerations that the rule uses. */
  datatype AttributeName = StatusCode
  datatype ErrorCode = ScriptError
  datatype ErrorType = Hard

  /** An error as attached to a document: the field it refers to, its code, its
      severity, and its lines of text. */
  datatype ErrorMessage = ErrorMessage(attribute: AttributeName, code: ErrorCode, severity: ErrorType, text: seq<string>)

  /** The Phase document being saved. Only its error list is changed by the rule. */
  class PhaseDocument {
    var proposal: string
    var sortCode: string
    var statusCode: string
    var errors: seq<ErrorMessage>

    constructor (proposal: string, sortCode: string, statusCode: string, errors: seq<ErrorMessage>)
      ensures this.proposal == proposal && this.sortCode == sortCode
      ensures this.statusCode == statusCode && this.errors == errors
    {
      this.proposal := proposal;
      this.sortCode := sortCode;
      this.statusCode := statusCode;
      this.errors := errors;
    }

    function Key(): PhaseKey
      reads this`proposal, this`sortCode
    {
      PhaseKey(proposal, sortCode)
    }

    method ClearErrors()
      modifies this`errors
      ensures errors == []
    {
      errors := [];
    }

    method AddError(e: ErrorMessage)
      modifies this`errors
      ensures errors == old(errors) + [e]
    {
      errors := errors + [e];
    }
  }

  /** What the inspection query does: return the inspections, or throw. */
  datatype QueryResult = Found(inspections: seq<Inspection>) | Threw(exception: string)

  /** The facade's inspection query over a fixed snapshot of the data store.
      `calls` counts the queries issued. */
  class AssetMgtFacade {
    var byPhase: map<PhaseKey, QueryResult>
    var calls: nat

    constructor (byPhase: map<PhaseKey, QueryResult>)
      ensures this.byPhase == byPhase && calls == 0
    {
      this.byPhase := byPhase;
      calls := 0;
    }

    /** The answer the store gives for a Phase; a Phase with no inspections
        on record gets an empty list. */
    function Answer(key: PhaseKey): QueryResult
      reads this`byPhase
    {
      if key in byPhase then byPhase[key] else Found([])
    }

    /** findByDTO with an inspection DTO carrying the Phase's key. */
    method FindByDto(key: PhaseKey) returns (r: QueryResult)
      modifies this`calls
      ensures r == Answer(key)
      ensures calls == old(calls) + 1
    {
      r := Answer(key);
      calls := calls + 1;
    }
  }
}
