/** The business rule of the "enforce phase complete" action code, as pure
    functions: which target statuses of a Phase are gated, which inspection
    statuses block the gate, and which inspection is reported. */
module PhaseRules {

  datatype Option<T> = None | Some(value: T)

  /** The two Phase statuses whose adoption is gated on the Phase's inspections. */
  const PhaseComplete: string := "PHASE COMPLETE"
  const ShopDone: string := "SHOP DONE"

  /** The two inspection statuses that block the gate (matched exactly). */
  const Open: string := "OPEN"
  const Pending: string := "PENDING"

  /** The fixed text in front of the status named in a rejection. */
  const RejectionPrefix: string := "You must submit this Phase's inspection before changing the status to "

  /** An inspection linked to a Phase, as the query returns it. */
  datatype Inspection = Inspection(inspectionNo: string, status: string)

  /** The gate: only "PHASE COMPLETE" and "SHOP DONE" are gated, and neither is
      itself a blocking inspection status. */
  predicate IsProhibited(phaseStatus: string)
    ensures IsProhibited(phaseStatus) ==> phaseStatus != Open && phaseStatus != Pending
  {
    phaseStatus == PhaseComplete || phaseStatus == ShopDone
  }

  /** Exact, case-sensitive comparison: a status holding any character other
      than an upper-case letter, such as "open" or "Pending", does not block. */
  predicate IsBlocking(inspectionStatus: string)
    ensures IsBlocking(inspectionStatus) ==>
      forall i :: 0 <= i < |inspectionStatus| ==> 'A' <= inspectionStatus[i] <= 'Z'
  {
    inspectionStatus == Open || inspectionStatus == Pending
  }

  /** No inspection of the sequence is open or pending. */
  predicate AllClosed(inspections: seq<Inspection>)
  {
    forall i :: 0 <= i < |inspections| ==> !IsBlocking(inspections[i].status)
  }

  /** The position of the first open or pending inspection, scanning in order. */
  function FirstBlocking(inspections: seq<Inspection>): (r: Option<nat>)
    ensures r.None? <==> AllClosed(inspections)
    ensures r.Some? ==>
      r.value < |inspections| && IsBlocking(inspections[r.value].status) &&
      forall j :: 0 <= j < r.value ==> !IsBlocking(inspections[j].status)
  {
    if |inspections| == 0 then None
    else if IsBlocking(inspections[0].status) then Some(0)
    else
      match FirstBlocking(inspections[1..])
      case None => None
      case Some(k) => Some(k + 1)
  }

  /** The text of the error attached on a rejection: the prefix followed by the
      status of the offending INSPECTION (not of the Phase). */
  function RejectionText(inspectionStatus: string): (text: string)
    ensures |text| == |RejectionPrefix| + |inspectionStatus|
    ensures text[..|RejectionPrefix|] == RejectionPrefix
    ensures text[|RejectionPrefix|..] == inspectionStatus
  {
    RejectionPrefix + inspectionStatus
  }

  /** The decision: allow the save, or block it naming the first offending inspection. */
  datatype Verdict = Allowed | Blocked(index: nat, offender: Inspection, message: string)

  function Evaluate(phaseStatus: string, inspections: seq<Inspection>): (v: Verdict)
    ensures v.Allowed? <==> !IsProhibited(phaseStatus) || AllClosed(inspections)
    ensures v.Blocked? ==>
      IsProhibited(phaseStatus) &&
      v.index < |inspections| && v.offender == inspections[v.index] &&
      IsBlocking(v.offender.status) &&
      (forall j :: 0 <= j < v.index ==> !IsBlocking(inspections[j].status)) &&
      v.message == RejectionPrefix + v.offender.status
  {
    if !IsProhibited(phaseStatus) then Allowed
    else
      match FirstBlocking(inspections)
      case None => Allowed
      case Some(k) => Blocked(k, inspections[k], RejectionText(inspections[k].status))
  }

  /** The rejection message always ends in "OPEN" or "PENDING", and so never
      names the Phase's own target status. */
  lemma RejectionNamesInspectionStatus(phaseStatus: string, inspections: seq<Inspection>)
    requires Evaluate(phaseStatus, inspections).Blocked?
    ensures var m := Evaluate(phaseStatus, inspections).message;
      (m == RejectionPrefix + Open || m == RejectionPrefix + Pending) &&
      m != RejectionPrefix + phaseStatus
  {
  }

  /** Once an offender is found, inspections after it are never consulted; if
      none is found in a prefix, the scan continues into the rest. */
  lemma {:induction false} FirstBlockingAppend(a: seq<Inspection>, b: seq<Inspection>)
    ensures FirstBlocking(a + b) ==
      match FirstBlocking(a)
      case Some(k) => Some(k)
      case None =>
        match FirstBlocking(b)
        case None => None
        case Some(k) => Some(|a| + k)
  {
    if |a| == 0 {
      assert a + b == b;
    } else {
      assert (a + b)[0] == a[0];
      assert (a + b)[1..] == a[1..] + b;
      FirstBlockingAppend(a[1..], b);
    }
  }

  /** Appending inspections to a blocked set changes nothing; appending closed
      inspections to an allowed set changes nothing. */
  lemma {:induction false} EvaluateAppend(phaseStatus: string, a: seq<Inspection>, b: seq<Inspection>)
    ensures Evaluate(phaseStatus, a).Blocked? ==> Evaluate(phaseStatus, a + b) == Evaluate(phaseStatus, a)
    ensures Evaluate(phaseStatus, a).Allowed? && AllClosed(b) ==> Evaluate(phaseStatus, a + b).Allowed?
  {
    FirstBlockingAppend(a, b);
    if IsProhibited(phaseStatus) && FirstBlocking(a).Some? {
      var k := FirstBlocking(a).value;
      assert (a + b)[k] == a[k];
    }
  }

  /** Only the exact upper-case spellings block. */
  lemma CaseSensitiveMatching()
    ensures Evaluate(PhaseComplete, [Inspection("I1", "open"), Inspection("I2", "Pending")]) == Allowed
    ensures Evaluate(ShopDone, [Inspection("I1", "open"), Inspection("I2", "PENDING")])
         == Blocked(1, Inspection("I2", "PENDING"), RejectionPrefix + "PENDING")
  {
  }

  /** With [CLOSED, OPEN, PENDING] the second inspection is reported, not the last. */
  lemma FirstOffenderIsReported()
    ensures Evaluate(PhaseComplete, [Inspection("I1", "CLOSED"), Inspection("I2", "OPEN"), Inspection("I3", "PENDING")])
         == Blocked(1, Inspection("I2", "OPEN"), RejectionPrefix + "OPEN")
  {
  }

  /** A Phase with a non-gated status is allowed whatever its inspections are. */
  lemma NonGatedStatusIgnoresInspections(inspections: seq<Inspection>)
    ensures Evaluate("IN PROGRESS", inspections) == Allowed
  {
  }

  /** A gated Phase with a pending inspection is rejected; the message ends in
      the inspection's status "PENDING", not in "SHOP DONE". */
  lemma ShopDoneWithPendingInspection()
    ensures Evaluate(ShopDone, [Inspection("I2", "PENDING")])
         == Blocked(0, Inspection("I2", "PENDING"),
                    "You must submit this Phase's inspection before changing the status to PENDING")
  {
  }
}
