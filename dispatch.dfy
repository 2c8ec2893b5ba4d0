/**
 * The three ledger writes of `useWhistleblowing` (frontend/app/hooks/useWhistleblowing.ts):
 * the request each one hands to the wallet's `executeTransaction`, how the provisional id is
 * taken from what the wallet returns, and the confirmation that follows.
 */
module Dispatch {
  import opened Wrappers
  import opened Decimal
  import opened FieldCodec
  import opened Tracker

  const ProgramId := "new_whistleblowing_version1.aleo"
  const SubmitFee := 1500000
  const UpdateFee := 50000

  /** The object passed to `executeTransaction`. */
  datatype Request = Request(program: string, functionName: string, inputs: seq<string>, fee: nat, privateFee: bool)

  /** What `executeTransaction` resolves to: an id string, an object that may carry one, or nothing. */
  datatype TxValue = TxText(id: string) | TxRecord(transactionId: Option<string>) | TxMissing

  /** The values `submitReport` reads from its argument object, except the evidence CID. */
  datatype SubmitArgs = SubmitArgs(seed: string, category: nat, severity: nat, contentHash: string,
                                   adminKeyField: string, reviewerKeyField: string, ephemeralKey: string)

  /** `typeof tx === "string" ? tx : tx?.transactionId` */
  function TemporaryId(tx: TxValue): (r: Option<string>)
    ensures r.None? <==> tx.TxMissing? || (tx.TxRecord? && tx.transactionId.None?)
    ensures tx.TxText? ==> r == Some(tx.id)
    ensures tx.TxRecord? ==> r == tx.transactionId
  {
    match tx
    case TxText(id) => Some(id)
    case TxRecord(id) => id
    case TxMissing => None
  }

  /** The id passes `if (!temporaryId)`: present and not the empty string. */
  predicate HasHandle(id: Option<string>)
    ensures HasHandle(id) ==> id.Some? && |id.value| > 0
  {
    id.Some? && id.value != ""
  }

  /** `s` with `suffix` removed from its end, or None when `s` does not end with it. */
  function StripSuffix(s: string, suffix: string): (r: Option<string>)
    ensures r.Some? <==> |suffix| <= |s| && s[|s| - |suffix|..] == suffix
    ensures r.Some? ==> r.value + suffix == s
  {
    if |suffix| <= |s| && s[|s| - |suffix|..] == suffix then Some(s[..|s| - |suffix|]) else None
  }

  /** The `submit_report` request: nine inputs in the program's parameter order. */
  function SubmitRequest(args: SubmitArgs, evidenceField: string): (r: Request)
    ensures r.program == ProgramId && r.functionName == "submit_report"
    ensures r.fee == SubmitFee && !r.privateFee
    ensures |r.inputs| == 9 && r.inputs[4] == r.inputs[5] == evidenceField
    ensures r.inputs[1] == NatToDecimal(args.category) + "u8"
    ensures r.inputs[2] == NatToDecimal(args.severity) + "u8"
  {
    Request(ProgramId, "submit_report",
            [ args.seed + "field",
              NatToDecimal(args.category) + "u8",
              NatToDecimal(args.severity) + "u8",
              args.contentHash,
              evidenceField,  // evidence_hash
              evidenceField,  // encrypted_data, the same CID
              args.adminKeyField + "field",
              args.reviewerKeyField + "field",
              args.ephemeralKey ],
            SubmitFee, false)
  }

  /**
   * How the program reads a `submit_report` input list back into the submitter's values: the
   * typed literals lose their suffix, the `u8` slots must hold canonical numerals (no empty or
   * zero-padded text), and both CID slots must carry the same field.
   */
  function DecodeSubmitInputs(inputs: seq<string>): Option<(SubmitArgs, string)>
  {
    if |inputs| != 9 || inputs[4] != inputs[5] then None
    else
      match (StripSuffix(inputs[0], "field"), StripSuffix(inputs[1], "u8"), StripSuffix(inputs[2], "u8"),
             StripSuffix(inputs[6], "field"), StripSuffix(inputs[7], "field"))
      case (Some(seed), Some(category), Some(severity), Some(admin), Some(reviewer)) =>
        (match (ParseBigInt(category), ParseBigInt(severity))
         case (Some(c), Some(v)) =>
           if NatToDecimal(c) != category || NatToDecimal(v) != severity then None
           else Some((SubmitArgs(seed, c, v, inputs[3], admin, reviewer, inputs[8]), inputs[4]))
         case _ => None)
      case _ => None
  }

  /** Every value `submitReport` sends is recovered, in its slot, from the input list. */
  lemma SubmitInputsRoundTrip(args: SubmitArgs, evidenceField: string)
    ensures DecodeSubmitInputs(SubmitRequest(args, evidenceField).inputs) == Some((args, evidenceField))
  {
    var inputs := SubmitRequest(args, evidenceField).inputs;
    assert StripSuffix(inputs[0], "field") == Some(args.seed);
    assert StripSuffix(inputs[1], "u8") == Some(NatToDecimal(args.category));
    assert StripSuffix(inputs[2], "u8") == Some(NatToDecimal(args.severity));
    assert StripSuffix(inputs[6], "field") == Some(args.adminKeyField);
    assert StripSuffix(inputs[7], "field") == Some(args.reviewerKeyField);
    DecimalRoundTrip(args.category);
    DecimalRoundTrip(args.severity);
  }

  /** The `update_status` request: the report id as given and the status code's decimal text. */
  function StatusRequest(reportId: string, newStatus: int): (r: Request)
    ensures r.program == ProgramId && r.functionName == "update_status"
    ensures r.fee == UpdateFee && !r.privateFee
    ensures |r.inputs| == 2 && r.inputs[0] == reportId
    ensures r.inputs[1] == IntToDecimal(newStatus)
    ensures newStatus >= 0 ==> ParseBigInt(r.inputs[1]) == Some(newStatus)
  {
    Request(ProgramId, "update_status", [reportId, IntToDecimal(newStatus)], UpdateFee, false)
  }

  /** The `add_comment` request: the report id and the encrypted note, both as given. */
  function CommentRequest(reportId: string, encryptedNote: string): (r: Request)
    ensures r.program == ProgramId && r.functionName == "add_comment"
    ensures r.fee == UpdateFee && !r.privateFee
    ensures r.inputs == [reportId, encryptedNote]
  {
    Request(ProgramId, "add_comment", [reportId, encryptedNote], UpdateFee, false)
  }

  /**
   * `submitReport`. `evidenceDigest` is the parsed CID's digest (None when `CID.parse`
   * throws), `dispatched` what `executeTransaction` settles with (Err when it rejects), and
   * `observations` what polling the provisional id observes. No check is made that an id came
   * back: an absent one is polled as it is.
   */
  method SubmitReport(args: SubmitArgs, evidenceDigest: Option<seq<Byte>>, dispatched: Result<TxValue, string>,
                      observations: seq<Observation>)
    returns (request: Request, polled: Option<string>, outcome: Outcome, queries: nat)
    ensures request == SubmitRequest(args, FieldLiteral(CidFieldValue(evidenceDigest)))
    ensures dispatched.Err? ==> outcome == Rejected(Raised(dispatched.error)) && queries == 0
    ensures dispatched.Ok? ==> polled == TemporaryId(dispatched.value) && (outcome, queries) == Track(observations)
  {
    var evidenceField := CidToAleoField(evidenceDigest);
    request := SubmitRequest(args, evidenceField);
    match dispatched
    case Err(e) =>
      polled, outcome, queries := None, Rejected(Raised(e)), 0;
    case Ok(tx) =>
      polled := TemporaryId(tx);
      outcome, queries := PollTransaction(observations);
  }

  /** The confirmation shared by `updateStatus` and `addComment`, which require an id first. */
  method ConfirmWithHandle(dispatched: Result<TxValue, string>, observations: seq<Observation>)
    returns (outcome: Outcome, queries: nat)
    ensures dispatched.Err? ==> outcome == Rejected(Raised(dispatched.error)) && queries == 0
    ensures dispatched.Ok? && !HasHandle(TemporaryId(dispatched.value)) ==>
      outcome == Rejected(ErrorMessage("No transaction ID")) && queries == 0
    ensures dispatched.Ok? && HasHandle(TemporaryId(dispatched.value)) ==>
      (outcome, queries) == Track(observations)
  {
    match dispatched
    case Err(e) =>
      outcome, queries := Rejected(Raised(e)), 0;
    case Ok(tx) =>
      var temporaryId := TemporaryId(tx);
      if !HasHandle(temporaryId) {
        outcome, queries := Rejected(ErrorMessage("No transaction ID")), 0;
      } else {
        outcome, queries := PollTransaction(observations);
      }
  }

  /** `updateStatus`: dispatch the status change, then confirm it. */
  method UpdateStatus(reportId: string, newStatus: int, dispatched: Result<TxValue, string>,
                      observations: seq<Observation>)
    returns (request: Request, outcome: Outcome, queries: nat)
    ensures request == StatusRequest(reportId, newStatus)
    ensures dispatched.Err? ==> outcome == Rejected(Raised(dispatched.error)) && queries == 0
    ensures dispatched.Ok? && !HasHandle(TemporaryId(dispatched.value)) ==>
      outcome == Rejected(ErrorMessage("No transaction ID")) && queries == 0
    ensures dispatched.Ok? && HasHandle(TemporaryId(dispatched.value)) ==>
      (outcome, queries) == Track(observations)
  {
    request := StatusRequest(reportId, newStatus);
    outcome, queries := ConfirmWithHandle(dispatched, observations);
  }

  /** `addComment`: dispatch the encrypted note, then confirm it. */
  method AddComment(reportId: string, encryptedNote: string, dispatched: Result<TxValue, string>,
                    observations: seq<Observation>)
    returns (request: Request, outcome: Outcome, queries: nat)
    ensures request == CommentRequest(reportId, encryptedNote)
    ensures dispatched.Err? ==> outcome == Rejected(Raised(dispatched.error)) && queries == 0
    ensures dispatched.Ok? && !HasHandle(TemporaryId(dispatched.value)) ==>
      outcome == Rejected(ErrorMessage("No transaction ID")) && queries == 0
    ensures dispatched.Ok? && HasHandle(TemporaryId(dispatched.value)) ==>
      (outcome, queries) == Track(observations)
  {
    request := CommentRequest(reportId, encryptedNote);
    outcome, queries := ConfirmWithHandle(dispatched, observations);
  }
}
