# Enforce phase complete rules — a Dafny model

This project models `enforcePhaseUpdateRules.js`, an action-code script of a
CMMS (maintenance-management) application. The host runs the script before
a Phase record of a work order is saved. When the Phase is moving to
`PHASE COMPLETE` or `SHOP DONE`, the script looks up the Phase's inspections.
At the first inspection whose status is exactly `OPEN` or `PENDING`, it
attaches a hard error to the document and returns `false`. Otherwise it
returns `true`. As it goes, the script appends lines to the in-memory log
`logRecords`: the start, the Phase being processed, an exception if one is
caught, and extra lines when `DEBUG` is set. In the `finally` block, the
lines logged so far are written to the event log. The closing `STOPPING`
line is logged after that, so it never reaches the event log.

Files and modules:

- `phase_rules.dfy`, module `PhaseRules`: the rule as pure functions. It has
  the gated statuses, the blocking statuses, the first-offender scan
  `FirstBlocking` and the decision `Evaluate`, plus the lemmas about them.
- `host.dfy`, module `Host`: the host objects.
  - `PhaseDocument` is the Phase being saved. It has `proposal`, `sortCode`,
    `statusCode` and `errors`, with `ClearErrors` and `AddError`.
  - `AssetMgtFacade` answers the inspection query from a snapshot map.
    A `calls` counter records how many queries were issued.
- `enforce_phase_update_rules.dfy`, module `EnforcePhaseUpdateRules`: the
  script. The class `PhaseCompleteRules` holds `DEBUG`, the document, the
  facade and `logRecords`. Its methods are `Log`, `LogIfDebug`, `RunScript`,
  `WriteToBatchEvent` and `Execute` (the top level with try/catch/finally).
  Each state-changing method is proved equal to a pure function:
  `RunScriptSpec` for `runScript` and `ScriptSpec` for the whole invocation.
  What these functions promise is proved in the lemmas
  `RunScriptSpecProperties` and `ScriptSpecProperties`. The lemmas
  `NotGatedTrace`, `ThrewTrace`, `SatisfiedTrace` and `RejectedTrace` give the
  trace along each of the script's four paths.

The rejection message is built from the status of the offending inspection
(`enforcePhaseUpdateRules.js:76`), not from the Phase's target status. So it
always ends in `OPEN` or `PENDING`. `RejectionNamesInspectionStatus` and
`ShopDoneWithPendingInspection` state this.

## Model

| member | source | states |
|---|---|---|
| `PhaseRules.IsProhibited` | enforcePhaseUpdateRules.js:30-31 | Only PHASE COMPLETE and SHOP DONE are gated (the negation of the test at :63). A gated status is never OPEN or PENDING. |
| `PhaseRules.IsBlocking` | enforcePhaseUpdateRules.js:74 | The match is exact and case-sensitive: a blocking status consists of upper-case letters only, so any status with a lower-case letter never blocks. |
| `PhaseRules.RejectionText` | enforcePhaseUpdateRules.js:76 | The message is the fixed prefix followed by the inspection's status. The status can be read back from the message after the prefix. |
| `Host.KeyText` | enforcePhaseUpdateRules.js:60 | The Phase key as logged: the proposal, then a dash, and the sort code starts right after the dash that follows the proposal. |
| `EnforcePhaseUpdateRules.ProcessingLine` | enforcePhaseUpdateRules.js:62 | The first line of a run starts with "Processing ", then names the Phase key, and ends with the Phase's target status. |
| `EnforcePhaseUpdateRules.NotClosedLine` | enforcePhaseUpdateRules.js:75 | The debug line for a rejection names the offending inspection's number right after its fixed opening text. |
| `EnforcePhaseUpdateRules.RejectionError` | enforcePhaseUpdateRules.js:77-81 | The attached error is a hard error on the status-code field, and its only line of text is the rejection message. |
| `EnforcePhaseUpdateRules.BatchTitle` | enforcePhaseUpdateRules.js:104-105 | The event-log title names the Phase key between square brackets. |
| `PhaseRules.FirstBlocking` | enforcePhaseUpdateRules.js:72-85 | The scan's result is "none" exactly when no inspection is OPEN or PENDING. Otherwise it is an index whose inspection blocks, and every inspection before it does not. |
| `PhaseRules.Evaluate` | enforcePhaseUpdateRules.js:63-88 | Allowed exactly when the status is neither PHASE COMPLETE nor SHOP DONE, or no inspection blocks. Blocked names the first blocking inspection in order, and its message is the fixed prefix followed by that inspection's status. |
| `PhaseRules.RejectionNamesInspectionStatus` | enforcePhaseUpdateRules.js:74-76 | A rejection message always ends in OPEN or PENDING and never in the Phase's own target status. |
| `PhaseRules.FirstBlockingAppend` | enforcePhaseUpdateRules.js:72-85 | Scanning a + b gives the first offender of a if there is one; otherwise it gives the first offender of b, shifted by the length of a. |
| `PhaseRules.EvaluateAppend` | enforcePhaseUpdateRules.js:72-85 | Inspections after the first offender never change the verdict. Appending closed inspections to an allowed list keeps it allowed. |
| `PhaseRules.CaseSensitiveMatching` | enforcePhaseUpdateRules.js:74 | "open" and "Pending" do not block. "PENDING" after "open" blocks, and it is reported. |
| `PhaseRules.FirstOffenderIsReported` | enforcePhaseUpdateRules.js:72-83 | For [CLOSED, OPEN, PENDING] the second inspection is reported, with message prefix + "OPEN". |
| `PhaseRules.NonGatedStatusIgnoresInspections` | enforcePhaseUpdateRules.js:63-65 | A Phase moving to IN PROGRESS is allowed whatever its inspections are. |
| `PhaseRules.ShopDoneWithPendingInspection` | enforcePhaseUpdateRules.js:74-83 | SHOP DONE with one PENDING inspection is rejected. The message ends in "PENDING". |
| `EnforcePhaseUpdateRules.RunScriptSpecProperties` | enforcePhaseUpdateRules.js:53-89 | A non-gated status returns true with no error. An exception escapes exactly when the query is made and throws. The result is false exactly when a gated Phase has an OPEN/PENDING inspection. In that case the document carries exactly one error, naming the first offender's status; otherwise it carries none. The first log line announces the Phase, and without DEBUG it is the only one. No line of a run is the closing STOPPING line. |
| `EnforcePhaseUpdateRules.NotGatedTrace` | enforcePhaseUpdateRules.js:62-65 | A Phase that is not moving to a gated status logs the Processing line and, with DEBUG, "nothing to do"; it returns true with no error, whatever the query would answer. |
| `EnforcePhaseUpdateRules.ThrewTrace` | enforcePhaseUpdateRules.js:66-71 | For a gated status whose query throws, the exception escapes after the Processing line and the DEBUG "let's ensure" line, and no error is attached. |
| `EnforcePhaseUpdateRules.SatisfiedTrace` | enforcePhaseUpdateRules.js:66-88 | For a gated status whose inspections are all closed, the run logs the Processing line and the DEBUG "let's ensure" and "satisfied" lines, and returns true with no error. |
| `EnforcePhaseUpdateRules.RejectedTrace` | enforcePhaseUpdateRules.js:72-83 | For a gated status whose first open or pending inspection is the i-th, the run logs that inspection's number (with DEBUG), attaches one error naming its status, and returns false. |
| `EnforcePhaseUpdateRules.ScriptSpecProperties` | enforcePhaseUpdateRules.js:34-51 | `success` holds exactly when the Phase is not gated, or its inspections were fetched and all are closed. A thrown exception leaves `success` false and its "Error running script logic" line ends the log. The closing STOPPING line ends the log exactly on success and appears nowhere else in the log. The event-log batch holds one "E" record per line logged before the finally block, in order. |
| `EnforcePhaseUpdateRules.ClosingLineIsDistinct` | enforcePhaseUpdateRules.js:41-50 | No line the script logs before the finally block equals the closing line, so the last line tells success from failure. |
| `EnforcePhaseUpdateRules.PhaseCompleteRules.Log` | enforcePhaseUpdateRules.js:92-95 | Appends the message to the end of `logRecords` and changes nothing else. |
| `EnforcePhaseUpdateRules.PhaseCompleteRules.LogIfDebug` | enforcePhaseUpdateRules.js:96-100 | Appends the message when DEBUG is set and leaves `logRecords` unchanged otherwise. |
| `EnforcePhaseUpdateRules.PhaseCompleteRules.RunScript` | enforcePhaseUpdateRules.js:53-89 | The outcome, the document's errors and the lines appended to `logRecords` are those of `RunScriptSpec` for the document's key and status and the facade's answer. Errors from before the run never survive. The query is issued once for a gated status and never otherwise. |
| `EnforcePhaseUpdateRules.PhaseCompleteRules.WriteToBatchEvent` | enforcePhaseUpdateRules.js:102-111 | The batch is titled with the Phase key and holds one "E" record per log line, in order; it is the batch `ScriptSpec` describes for that log. |
| `EnforcePhaseUpdateRules.PhaseCompleteRules.Execute` | enforcePhaseUpdateRules.js:34-51 | `success`, the event-log batch, the whole log and the document's errors are those of `ScriptSpec`. The inspection query is issued once for a gated status and never otherwise. |
| `EnforcePhaseUpdateRules.RunTwice` | enforcePhaseUpdateRules.js:54-57 | Running the rule twice on the same document gives the same outcome both times. The errors are those of one run, not accumulated. The log grows by the lines of one run, twice over, and each run issues its own query for a gated status. |
| `Host.PhaseDocument.ClearErrors` | enforcePhaseUpdateRules.js:57 | The document's error list is empty afterwards. |
| `Host.PhaseDocument.AddError` | enforcePhaseUpdateRules.js:82 | The error is appended to the document's error list. |
| `Host.AssetMgtFacade.FindByDto` | enforcePhaseUpdateRules.js:68-71 | Returns the store's answer for the Phase key (an empty list for a Phase with no inspections on record) and counts one query. |

## Left out

- Bootstrapping and module loading (`bootStrapRequire`, `load`, `require` of the configuration and logger modules, :12-17, 25-26, 119-123): host plumbing. `DEBUG` is a constructor parameter. How it is read from the configuration (:18) is not modelled.
- Console and system logging through `LOG_MESSAGE.getInstance().logMessage` (:93, 107), and the logger prefix constants (:22-24): output only. `Log` models only the append to `logRecords`.
- The actual write to the event log in `writeToBatchEvent` (:103-108): I/O. `WriteToBatchEvent` returns the batch it would write. Its `success=true` default parameter and return value (:102, 110) are ignored by the caller and not modelled.
- The Java host objects (`Application.getContext`, `AssetMgtFacade`, `AeAmInspectionEDTO`, `ErrorMessage`, `ErrorCode`, `ErrorType`, :15, 32, 68-71, 77-81): foreign code. The query is a map from Phase key to an answer, and the error is a datatype holding the attribute, code, severity and text.
- Where an exception can arise: only the inspection query is modelled as throwing (`QueryResult.Threw`). A `null` result of the query, which would make the `for…of` loop throw, counts as such a throw. Faults anywhere else (the document getters, any `log` or `logIfDebug` call, the error construction at :77-82, `writeToBatchEvent`) are not modelled.
- The bare `false;` expression at :47: a host convention for showing errors, with no meaning in the model.
- JavaScript's loose `!=` and `==` on host strings, and `null` status codes: statuses are modelled as non-null strings compared exactly.
- Idempotence across separate script invocations (the host loads fresh module state each time): `Execute` requires an empty `logRecords`, as left by the constructor, which models line 27.
