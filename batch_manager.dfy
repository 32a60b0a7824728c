/** The two operation handlers (processing/processing_batch_manager.py):
    the download of the cloud batch list into the controller's register
    image, and the load of one selected batch onto both printheads. Each
    works through the status mirror and the collaborators step by step; a
    failure writes an error code and the ERROR state, then is raised again
    as a BatchProcessingException naming the operation. */
module ProcessingBatchManager {
  import opened Base
  import opened Values
  import opened Enums
  import opened Exceptions
  import opened Registers
  import opened DataParser
  import opened Collaborators
  import Status = StatusManager
  import Zanasi
  import FirebaseResponse

  /** What a handler raises: the exception itself, and the one it was raised
      `from` (None when a write in the handler itself raised first). */
  datatype Failure = Failure(raised: Thrown, cause: Option<Thrown>)

  /** `last_zanasi_send` (its timestamp is not modelled). */
  datatype LastSend = LastSend(batchIndex: int, selectedPosition: int)

  // ---------------------------------------------------------- error mapping

  /** The error code and message prefix of the download handler's except clauses. */
  function DownloadErrorCode(e: Thrown): ErrorCode
  {
    if IsInstance(e, Firebase) then FirebaseFail else DataFormatError
  }

  function DownloadMessage(e: Thrown): string
  {
    if IsInstance(e, Firebase) then "Firebase download failed: "
    else if IsInstance(e, DataValidation) then "Data validation failed: "
    else if IsInstance(e, Modbus) then "PLC communication failed: "
    else "Download operation failed: "
  }

  /** The error code and message prefix of the load handler's except clauses. */
  function LoadErrorCode(e: Thrown): ErrorCode
  {
    if IsInstance(e, Zanasi) then ZanasiCommFail
    else if IsInstance(e, DataValidation) then DataFormatError
    else ZanasiCommFail
  }

  function LoadMessage(e: Thrown): string
  {
    if IsInstance(e, Zanasi) then "Zanasi communication failed: "
    else if IsInstance(e, DataValidation) then "Batch validation failed: "
    else "Zanasi load operation failed: "
  }

  /** Only a FirebaseException yields FIREBASE_FAIL; the fetcher's
      RetryExhaustedException, not being one, is reported as a data format error. */
  lemma DownloadCodes(e: Thrown)
    ensures DownloadErrorCode(e) == FirebaseFail <==> IsInstance(e, Firebase)
    ensures DownloadErrorCode(e) != NoError && DownloadErrorCode(e) != ZanasiCommFail
    ensures e.Lakeland? && e.e.kind == RetryExhausted ==> DownloadErrorCode(e) == DataFormatError
  {
  }

  /** Only a DataValidationException yields DATA_FORMAT_ERROR on a load. */
  lemma LoadCodes(e: Thrown)
    ensures LoadErrorCode(e) == DataFormatError <==> IsInstance(e, DataValidation)
    ensures LoadErrorCode(e) != NoError && LoadErrorCode(e) != FirebaseFail
  {
  }

  /** `BatchProcessingException(message, operation=operation)`. The
      operation only names the failing step: with no `details` argument the
      exception's `.details` stays empty. */
  function BatchProcessingError(message: string, operation: string): (t: Thrown)
    ensures IsInstance(t, BatchProcessing) && t.e.errorCode == None && t.e.message == message
  {
    Lakeland(LakelandError(BatchProcessing, message, None, Some(Component.BatchManager), map[]))
  }

  lemma BatchProcessingErrorRaised(message: string, operation: string)
    ensures BatchProcessingError(message, operation) == Raise(message, BatchProcessingCtx(None, Some(operation)), NoKwargs)
  {
    ContextOnlyThroughPassedDetails(message, BatchProcessingCtx(None, Some(operation)), map[]);
  }

  /** `DataValidationException(message, ...)` with the named parameters of the
      raise sites here, none of which reach `.details`. */
  /** The message of the load's validation failure. */
  const InvalidForZanasi: string := "Batch data invalid for Zanasi transmission"

  function DataValidationError(message: string): (t: Thrown)
    ensures IsInstance(t, DataValidation) && t.e.errorCode == Some(DataFormatError) && t.e.message == message
  {
    Lakeland(LakelandError(DataValidation, message, Some(DataFormatError), None, map[]))
  }

  lemma DataValidationErrorRaised(message: string, field: Option<string>, errors: seq<string>)
    ensures DataValidationError(message) == Raise(message, DataValidationCtx(field, None, errors), NoKwargs)
  {
    ContextOnlyThroughPassedDetails(message, DataValidationCtx(field, None, errors), map[]);
  }

  /** The two writes every failure handler makes, in order. */
  function FailureOps(code: ErrorCode): seq<BusOp>
  {
    [WriteOp(ErrorCodeRegister, [code.Code()]), WriteOp(RaspPiStatusRegister, [ProcError.Code()])]
  }

  /** The write of `reset_trigger`. */
  const ResetOp := WriteOp(TriggerRegister, [TriggerIdle.Code()])

  // ------------------------------------------------- download, as a function

  /** `parse_firebase_data` raises DataValidationException. The error lists go
      only to the exception's context, which `.details` ignores here. */
  function ParseFailureThrown(f: ParseFailure): (t: Thrown)
    ensures IsInstance(t, DataValidation)
  {
    match f
    case NotAList => DataValidationError("Firebase data must be a list")
    case AllEntriesFailed(_) => DataValidationError("All Firebase batch entries failed validation")
  }

  /** `BatchStates(status)` in `_merge_existing_batch` raises ValueError. */
  function MergeFailureThrown(e: MergeError): (t: Thrown)
    ensures t.Foreign? && t.typeName == "ValueError"
  {
    Foreign("ValueError", IntToDecimal(e.status) + " is not a valid BatchStates")
  }

  /** `convert_batches_to_registers` raises DataValidationException, wrapping a
      ValueError of the builder. */
  function ConversionFailureThrown(e: ConversionError): (t: Thrown)
    ensures IsInstance(t, DataValidation)
  {
    match e
    case BatchInvalid(k, _) => DataValidationError("Batch " + NatToDecimal(k) + " validation failed")
    case BuildFailed(cause) =>
      var text := match cause
        case Negative(f, v) => f + " cannot be negative: " + IntToDecimal(v)
        case TooLarge(f, v) => f + " too large (max 65535): " + IntToDecimal(v);
      DataValidationError("Error converting batches to registers: " + text)
    case ImageInvalid(_) => DataValidationError("Register array validation failed")
  }

  /** The fetched list as the JSON array `parse_firebase_data` receives. */
  function AsPayload(records: seq<Record>): (p: Payload)
    ensures p.Array? && |p.entries| == |records|
  {
    Array(seq(|records|, i requires 0 <= i < |records| => Object(records[i])))
  }

  /** The controller's slots with each empty one replaced by `_create_empty_batch()`. */
  function WithPlaceholders(current: seq<Option<Batch>>): (r: seq<Batch>)
    ensures |r| == |current|
  {
    seq(|current|, k requires 0 <= k < |current| => if current[k].Some? then current[k].value else EmptyBatch())
  }

  /** What the download does between the fetch and the write: parse, merge with
      the controller's slots, and convert, or the exception that stops it. */
  function DownloadPlan(fetched: seq<Record>, current: seq<Option<Batch>>): (r: Result<(seq<Batch>, seq<int>), Thrown>)
    ensures r.Ok? ==> Conversion(r.value.0) == Ok(r.value.1) && |r.value.1| == 120
    ensures r.Ok? ==> |r.value.0| == 5 && forall j :: 0 <= j < 5 ==> RecordValid(r.value.0[j])
    ensures r.Err? ==> IsInstance(r.error, DataValidation) || r.error.Foreign?
  {
    match ParseAll(AsPayload(fetched))
    case Err(e) => Err(ParseFailureThrown(e))
    case Ok(cloud) =>
      match MapToPositions(cloud, WithPlaceholders(current))
      case Err(e) => Err(MergeFailureThrown(e))
      case Ok(mapped) =>
        MapPositionsSpec(cloud, WithPlaceholders(current), 0);
        match Conversion(mapped)
        case Err(e) => Err(ConversionFailureThrown(e))
        case Ok(image) => Ok((mapped, image))
  }

  /** A download only gets as far as the write when the cloud delivered five
      entries (the most the fetcher returns) and every one of them parsed:
      with fewer, an empty placeholder reaches the conversion and fails it. */
  lemma DownloadNeedsFiveEntries(fetched: seq<Record>, current: seq<Option<Batch>>)
    requires |fetched| <= 5 && DownloadPlan(fetched, current).Ok?
    ensures |fetched| == 5
    ensures ParseAll(AsPayload(fetched)) == Ok(Survivors(AsPayload(fetched).entries))
    ensures |Survivors(AsPayload(fetched).entries)| == 5
  {
    var cloud := ParseAll(AsPayload(fetched)).value;
    if |cloud| < 5 {
      ShortCloudListNotWritten(cloud, WithPlaceholders(current));
      assert false;
    }
  }

  /** The writes and reads of a download that succeeds, in order. */
  const ReadSlotsOps: seq<BusOp> := [
    WriteOp(RaspPiStatusRegister, [Downloading.Code()]), WriteOp(PlcStatusRegister, [TriggeringDownload.Code()]),
    ReadOp(1, TotalRegisters)]

  const FetchOps: seq<BusOp> := [
    WriteOp(RaspPiStatusRegister, [Downloading.Code()]), WriteOp(RaspPiStatusRegister, [ProcessingData.Code()])]

  const PrepareOps: seq<BusOp> := ReadSlotsOps + FetchOps

  /** What the download gathered before transforming: at most five cloud
      records, and the controller's slots decoded from a full image. */
  ghost predicate Gathered(fetched: seq<Record>, current: seq<Option<Batch>>, read: seq<int>)
  {
    |fetched| <= 5 && |read| == TotalRegisters && current == ExtractedBatches(read)
  }

  /** What a download was answered: `read` is the controller's reply to its
      third request, the read of the whole image, and `fetched` the cloud's
      answer to its one fetch. */
  ghost predicate Answered(repliedBefore: seq<Reply>, replied: seq<Reply>,
                           responsesBefore: seq<Result<seq<Record>, Thrown>>,
                           responses: seq<Result<seq<Record>, Thrown>>, fetched: seq<Record>, read: seq<int>)
  {
    RepliedAt(repliedBefore, replied, 2, Words(read)) && responses == responsesBefore + [Ok(fetched)]
  }

  /** The status writes after the image: DATA_RECEIVED, READY_TO_SEND, the
      trigger reset and DISPLAYING. */
  const AnnounceOps: seq<BusOp> := [
    WriteOp(PlcStatusRegister, [DataReceived.Code()]), WriteOp(RaspPiStatusRegister, [ReadyToSend.Code()]),
    ResetOp, WriteOp(PlcStatusRegister, [Displaying.Code()])]

  /** A download's answers stay in place while later writes are appended. */
  lemma AnswersStay(before: seq<Reply>, mid: seq<Reply>, after: seq<Reply>,
                    responsesBefore: seq<Result<seq<Record>, Thrown>>, responses: seq<Result<seq<Record>, Thrown>>,
                    fetched: seq<Record>, read: seq<int>)
    requires Extends(mid, after)
    ensures Answered(before, mid, responsesBefore, responses, fetched, read) ==>
              Answered(before, after, responsesBefore, responses, fetched, read)
  {
    if Answered(before, mid, responsesBefore, responses, fetched, read) {
      RepliedStays(before, mid, after, 2, Words(read));
    }
  }

  function CommitOps(image: seq<int>): seq<BusOp>
  {
    [WriteOp(1, image)] + AnnounceOps
  }

  function DownloadOps(image: seq<int>): seq<BusOp>
  {
    PrepareOps + CommitOps(image)
  }

  /** No request appended since `before` reset the trigger register. */
  predicate NoResetSince(before: seq<BusOp>, after: seq<BusOp>)
  {
    Extends(before, after) && ResetOp !in after[|before|..]
  }

  /** `log` is `done` after `start`, perhaps with `op` as well. */
  lemma NoResetStep(start: seq<BusOp>, done: seq<BusOp>, op: BusOp, log: seq<BusOp>)
    requires ResetOp !in done && op != ResetOp
    requires log == start + done || log == start + done + [op]
    ensures NoResetSince(start, log)
  {
    if log == start + done {
      assert log[|start|..] == done;
    } else {
      assert log[|start|..] == done + [op];
    }
  }

  /** Requests without a reset after `done`, itself free of resets, leave the
      trigger untouched since `start`. */
  lemma NoResetJoin(start: seq<BusOp>, done: seq<BusOp>, log: seq<BusOp>)
    requires ResetOp !in done && NoResetSince(start + done, log)
    ensures NoResetSince(start, log)
  {
    assert log[|start|..] == done + log[|start + done|..];
  }

  /** More requests without a reset keep the trigger untouched. */
  lemma NoResetThen(start: seq<BusOp>, mid: seq<BusOp>, ops: seq<BusOp>)
    requires NoResetSince(start, mid) && ResetOp !in ops
    ensures NoResetSince(start, mid + ops)
  {
    assert (mid + ops)[|start|..] == mid[|start|..] + ops;
  }

  /** No reset between `start` and `mid`, nor between `mid` and `log`. */
  lemma NoResetTrans(start: seq<BusOp>, mid: seq<BusOp>, log: seq<BusOp>)
    requires NoResetSince(start, mid) && NoResetSince(mid, log)
    ensures NoResetSince(start, log)
  {
    assert log[|start|..] == mid[|start|..] + log[|mid|..];
  }

  /** A failed download whose image write was never attempted, or was
      refused, has not reset the trigger once its failure handler ran to the
      end, nor when that handler raised. */
  lemma FailedDownloadNoReset(start: seq<BusOp>, mid: seq<BusOp>, log: seq<BusOp>, image: seq<int>, wrote: bool,
                              e: Thrown, f: Failure)
    requires !wrote ==> NoResetSince(start, mid)
    requires wrote ==> |image| == TotalRegisters
    requires wrote && !BusError(e) ==> mid == start + PrepareOps + [WriteOp(1, image)]
    requires f.cause.Some? ==> log == mid + FailureOps(DownloadErrorCode(e))
    requires f.cause.None? ==> NoResetSince(mid, log)
    ensures !wrote || (f.cause.Some? && !BusError(e)) ==> NoResetSince(start, log)
  {
    if !wrote || (f.cause.Some? && !BusError(e)) {
      if wrote {
        PrepareNoReset();
        NoResetStep(start, PrepareOps, WriteOp(1, image), mid);
      }
      if f.cause.Some? {
        NoResetThen(start, mid, FailureOps(DownloadErrorCode(e)));
      } else {
        NoResetTrans(start, mid, log);
      }
    }
  }

  /** `log` ends with `ops`. */
  predicate EndsWith(log: seq<BusOp>, ops: seq<BusOp>)
  {
    |ops| <= |log| && log[|log| - |ops|..] == ops
  }

  /** Nothing before the image write of a download resets the trigger. */
  lemma PrepareNoReset()
    ensures ResetOp !in PrepareOps
  {
    assert forall k :: 0 <= k < |PrepareOps| ==> PrepareOps[k] != ResetOp;
  }

  // ---------------------------------------------------------------- load

  /** The first register of slot n (`10 + (n - 1) * 20`). */
  function SlotStart(n: int): nat
    requires 1 <= n
  {
    BatchStartRegister + (n - 1) * RegistersPerBatch
  }

  /** The reads that pick the batch to load. */
  function SelectOps(n: int): seq<BusOp>
    requires 1 <= n
  {
    [ReadOp(SelectedBatchRegister, 1), ReadOp(SlotStart(n), RegistersPerBatch)]
  }

  /** What a load was answered: the selected position, to its first request,
      the read of register 7, and the slot's words, to its second. */
  ghost predicate SlotAnswered(before: seq<Reply>, after: seq<Reply>, selected: Option<int>, words: seq<int>)
  {
    selected.Some? && RepliedAt(before, after, 0, Words([selected.value])) && RepliedAt(before, after, 1, Words(words))
  }

  /** After the read of the selected position, the slot read appends its
      request and answer behind it. */
  lemma PickedAnswers(logBefore: seq<BusOp>, logMid: seq<BusOp>, log: seq<BusOp>,
                      before: seq<Reply>, mid: seq<Reply>, after: seq<Reply>, n: int, words: seq<int>)
    requires logMid == logBefore + [ReadOp(SelectedBatchRegister, 1)] && mid == before + [Words([n])]
    requires Extends(mid, after)
    ensures Extends(before, after) && RepliedAt(before, after, 0, Words([n]))
    ensures 1 <= n && log == logMid + [ReadOp(SlotStart(n), RegistersPerBatch)] && after == mid + [Words(words)] ==>
              log == logBefore + SelectOps(n) && after == before + [Words([n]), Words(words)]
  {
    ExtendsTrans(before, mid, after);
    RepliedStays(before, mid, after, 0, Words([n]));
  }

  /** The answers a load was given stay in place while the failure handler
      appends its writes. */
  lemma SlotAnswersStay(before: seq<Reply>, mid: seq<Reply>, after: seq<Reply>, selected: Option<int>, words: seq<int>)
    requires Extends(mid, after)
    ensures selected.Some? && RepliedAt(before, mid, 0, Words([selected.value])) ==>
              RepliedAt(before, after, 0, Words([selected.value]))
    ensures SlotAnswered(before, mid, selected, words) ==> SlotAnswered(before, after, selected, words)
  {
    if selected.Some? && RepliedAt(before, mid, 0, Words([selected.value])) {
      RepliedStays(before, mid, after, 0, Words([selected.value]));
    }
    if SlotAnswered(before, mid, selected, words) {
      RepliedStays(before, mid, after, 1, Words(words));
    }
  }

  /** What the load raises for a selected position outside 1..5. */
  function InvalidSelection(n: int): (t: Thrown)
    ensures IsInstance(t, BatchProcessing) && !BusError(t) && LoadErrorCode(t) == ZanasiCommFail
  {
    BatchProcessingError("Invalid selected batch number: " + IntToDecimal(n), "load_to_zanasi")
  }

  /** What the load raises for an empty slot or a zero batch index. */
  function EmptySlot(n: int): (t: Thrown)
    ensures IsInstance(t, BatchProcessing) && !BusError(t)
  {
    BatchProcessingError("No valid batch data found for batch " + IntToDecimal(n), "load_to_zanasi")
  }

  /** The writes around a send that succeeds. */
  const SendOps: seq<BusOp> :=
    [WriteOp(RaspPiStatusRegister, [SendingToZanasi.Code()]), WriteOp(RaspPiStatusRegister, [Complete.Code()]), ResetOp]

  /** The traffic of a load that succeeds, in order. */
  function LoadOps(n: int): seq<BusOp>
    requires 1 <= n
  {
    SelectOps(n) + SendOps
  }

  /** A double quote, which `sanitize_for_zanasi` would have turned into an
      apostrophe, makes the load fail validation instead. */
  lemma QuoteRejectedNotCleaned(b: Batch)
    requires '"' in b.batchCode
    ensures ZanasiDataErrors(ToRecord(b)) != []
    ensures '"' !in ToStr(Sanitized(ToRecord(b))["batchCode"])
  {
    var r := ToRecord(b);
    ZanasiDataErrorsSpec(r);
    assert "batchCode" in ZanasiFields;
    assert !ZanasiFieldOk(r, "batchCode");
    SanitizedSpec(r);
    SanitizedClean(b.batchCode);
  }

  /** The `results` dict handed to ZanasiException as `details`. */
  function ResultsRecord(results: Zanasi.SendResults): Record
  {
    map["printhead1" := VBool(results.printhead1.success), "printhead2" := VBool(results.printhead2.success),
        "overall_success" := VBool(results.overallSuccess), "batch_index" := results.batchIndex]
  }

  /** `raise ZanasiException(..., details=results)`: a ConnectionException
      subclass receives `details` twice, so what is raised is a TypeError. */
  lemma SendFailureIsTypeError(message: string, results: Zanasi.SendResults)
    ensures Raise(message, ZanasiCtx(None, None, None, None),
                  Kwargs(Omitted, Omitted, Passed(Some(ResultsRecord(results))))) == DuplicateDetails
  {
  }

  // ---------------------------------------------------------------- the class

  class BatchManager
  {
    const bus: RegisterBus
    const cloud: CloudSource
    const zanasi: Zanasi.ZanasiClient
    const status: Status.StatusManager
    var currentBatchData: seq<Batch>
    var operationCount: nat
    var lastZanasiSend: Option<LastSend>

    /** The status mirror talks to the same controller, and every request
        in the bus log has its answer beside it. */
    predicate Valid()
      reads status, zanasi, bus
    {
      status.bus == bus && status.Valid() && zanasi.Valid() && bus.Paired()
    }

    constructor(bus: RegisterBus, cloud: CloudSource, zanasi: Zanasi.ZanasiClient, status: Status.StatusManager)
      requires status.bus == bus && status.Valid() && zanasi.Valid() && bus.Paired()
      ensures Valid() && this.bus == bus && this.cloud == cloud && this.zanasi == zanasi && this.status == status
      ensures currentBatchData == [] && operationCount == 0 && lastZanasiSend == None
    {
      this.bus := bus;
      this.cloud := cloud;
      this.zanasi := zanasi;
      this.status := status;
      currentBatchData := [];
      operationCount := 0;
      lastZanasiSend := None;
    }

    /** The except clauses shared by both handlers: write the error code, then
        ERROR, then raise BatchProcessingException from the caught exception.
        A write that raises ends the handler with that exception instead. */
    method Fail(cause: Thrown, code: ErrorCode, message: string, operation: string) returns (f: Failure)
      requires Valid()
      modifies status, bus
      ensures Valid()
      ensures f.cause.Some? ==> f.cause.value == cause && f.raised == BatchProcessingError(message + ThrownText(cause), operation)
                                && bus.log == old(bus.log) + FailureOps(code) && EndsWith(bus.log, FailureOps(code))
      ensures f.cause.None? ==> BusError(f.raised) && NoResetSince(old(bus.log), bus.log)
      ensures status.trigger == old(status.trigger) && Extends(old(bus.replies), bus.replies)
    {
      ghost var start := bus.log;
      var w1 := status.SetErrorCode(code);
      if w1.Err? {
        NoResetStep(start, [], FailureOps(code)[0], bus.log);
        return Failure(w1.error, None);
      }
      ghost var mid := bus.log;
      var w2 := status.SetProcessingStatus(ProcError);
      if w2.Err? {
        NoResetStep(start, [FailureOps(code)[0]], FailureOps(code)[1], bus.log);
        return Failure(w2.error, None);
      }
      assert bus.log == start + FailureOps(code);
      f := Failure(BatchProcessingError(message + ThrownText(cause), operation), Some(cause));
    }

    /** The download up to the read of the controller's slots: DOWNLOADING,
        TRIGGERING_DOWNLOAD and the read of the whole image. */
    method ReadSlots() returns (r: Result<seq<Option<Batch>>, Thrown>, ghost image: seq<int>)
      requires Valid()
      modifies status, bus
      ensures Valid() && status.trigger == old(status.trigger)
      ensures r.Ok? ==> bus.log == old(bus.log) + ReadSlotsOps && RepliedAt(old(bus.replies), bus.replies, 2, Words(image))
                        && |image| == TotalRegisters && r.value == ExtractedBatches(image)
      ensures r.Err? ==> BusError(r.error) && NoResetSince(old(bus.log), bus.log)
      ensures Extends(old(bus.replies), bus.replies)
    {
      ghost var start := bus.log;
      image := [];
      var s1 := status.SetProcessingStatus(Downloading);
      if s1.Err? {
        NoResetStep(start, [], ReadSlotsOps[0], bus.log);
        r := Err(s1.error);
        return;
      }
      var s2 := status.SetPlcStatus(TriggeringDownload);
      if s2.Err? {
        NoResetStep(start, ReadSlotsOps[..1], ReadSlotsOps[1], bus.log);
        r := Err(s2.error);
        return;
      }
      var words := bus.ReadHoldingRegisters(1, TotalRegisters);
      if words.Err? {
        NoResetStep(start, ReadSlotsOps[..2], ReadSlotsOps[2], bus.log);
        r := Err(words.error);
        return;
      }
      Appended3(start, ReadSlotsOps[0], ReadSlotsOps[1], ReadSlotsOps[2]);
      image := words.value;
      var current := ExtractBatchesFromRegisters(words.value);
      r := Ok(current);
    }

    /** The download from the read to the fetched list: DOWNLOADING again, the
        fetch, and PROCESSING_DATA. */
    method FetchRecords() returns (r: Result<seq<Record>, Thrown>)
      requires Valid()
      modifies status, bus, cloud
      ensures Valid() && status.trigger == old(status.trigger)
      ensures r.Ok? ==> bus.log == old(bus.log) + FetchOps && |r.value| <= 5
                        && cloud.responses == old(cloud.responses) + [Ok(r.value)]
      ensures r.Err? ==> (BusError(r.error) || FetchError(r.error)) && NoResetSince(old(bus.log), bus.log)
      ensures Extends(old(bus.replies), bus.replies) && Extends(old(cloud.responses), cloud.responses)
    {
      ghost var start, answered := bus.log, bus.replies;
      var s3 := status.SetProcessingStatus(Downloading);
      if s3.Err? {
        NoResetStep(start, [], FetchOps[0], bus.log);
        return Err(s3.error);
      }
      var fetched := cloud.FetchBatchData();
      if fetched.Err? {
        NoResetStep(start, FetchOps[..1], FetchOps[0], bus.log);
        return Err(fetched.error);
      }
      ghost var replied := bus.replies;
      var s4 := status.SetProcessingStatus(ProcessingData);
      ExtendsTrans(answered, replied, bus.replies);
      if s4.Err? {
        NoResetStep(start, FetchOps[..1], FetchOps[1], bus.log);
        return Err(s4.error);
      }
      AppendAssoc(start, FetchOps[..1], [FetchOps[1]]);
      r := Ok(fetched.value);
    }

    /** The download up to the fetch: the read of the slots, then the fetch. */
    method Prepare() returns (r: Result<(seq<Option<Batch>>, seq<Record>), Thrown>, ghost image: seq<int>)
      requires Valid()
      modifies status, bus, cloud
      ensures Valid() && status.trigger == old(status.trigger)
      ensures r.Ok? ==> bus.log == old(bus.log) + PrepareOps && |r.value.1| <= 5
                        && |image| == TotalRegisters && r.value.0 == ExtractedBatches(image)
                        && Answered(old(bus.replies), bus.replies, old(cloud.responses), cloud.responses, r.value.1, image)
      ensures r.Err? ==> (BusError(r.error) || FetchError(r.error)) && NoResetSince(old(bus.log), bus.log)
      ensures Extends(old(bus.replies), bus.replies) && Extends(old(cloud.responses), cloud.responses)
    {
      ghost var start := bus.log;
      var slots;
      slots, image := ReadSlots();
      if slots.Err? {
        r := Err(slots.error);
        return;
      }
      ghost var replied := bus.replies;
      var fetched := FetchRecords();
      if fetched.Err? {
        NoResetJoin(start, ReadSlotsOps, bus.log);
        r := Err(fetched.error);
        return;
      }
      AppendAssoc(start, ReadSlotsOps, FetchOps);
      RepliedStays(old(bus.replies), replied, bus.replies, 2, Words(image));
      r := Ok((slots.value, fetched.value));
    }

    /** The status writes of a download once the image is written. */
    method Announce() returns (r: Result<bool, Thrown>)
      requires Valid()
      modifies status, bus
      ensures Valid()
      ensures r.Ok? ==> bus.log == old(bus.log) + AnnounceOps
      ensures r.Err? ==> BusError(r.error)
      ensures Extends(old(bus.replies), bus.replies)
    {
      ghost var start := bus.log;
      var s1 := status.SetPlcStatus(DataReceived);
      if s1.Err? { return Err(s1.error); }
      var s2 := status.SetProcessingStatus(ReadyToSend);
      if s2.Err? { return Err(s2.error); }
      ghost var ready := bus.log;
      var s3 := status.ResetTrigger();
      if s3.Err? { return Err(s3.error); }
      var s4 := status.SetPlcStatus(Displaying);
      if s4.Err? { return Err(s4.error); }
      assert bus.log == start + AnnounceOps;
      r := Ok(true);
    }

    /** The download's closing writes: the image, DATA_RECEIVED, READY_TO_SEND,
        the trigger reset and DISPLAYING. A write of the image that reports
        failure raises BatchProcessingException. */
    method Commit(image: seq<int>) returns (r: Result<bool, Thrown>)
      requires Valid()
      modifies status, bus
      ensures Valid()
      ensures r.Ok? ==> bus.log == old(bus.log) + CommitOps(image)
      ensures r.Err? ==> BusError(r.error) || r.error == BatchProcessingError("Failed to write batch data to PLC", "write_registers")
      ensures r.Err? && !BusError(r.error) ==>
                bus.log == old(bus.log) + [WriteOp(1, image)] && status.trigger == old(status.trigger)
      ensures Extends(old(bus.replies), bus.replies)
    {
      ghost var start := bus.log;
      var w := bus.WriteHoldingRegisters(1, image);
      if w.Err? {
        return Err(w.error);
      }
      if !w.value {
        return Err(BatchProcessingError("Failed to write batch data to PLC", "write_registers"));
      }
      ghost var written := bus.replies;
      var announced := Announce();
      if announced.Err? {
        return Err(announced.error);
      }
      ExtendsTrans(old(bus.replies), written, bus.replies);
      assert bus.log == start + CommitOps(image);
      r := Ok(true);
    }

    /** The download from the first status write to the last: prepare, transform
        the fetched list against the controller's slots, and commit. On success
        the merged batches. `fetched` and `current` are what the cloud and the
        controller delivered, `read` the image the slots were decoded from,
        `image` what was written, and `wrote` whether the write of the image
        was attempted. */
    method Download() returns (r: Result<seq<Batch>, Thrown>, ghost fetched: seq<Record>,
                               ghost current: seq<Option<Batch>>, ghost read: seq<int>,
                               ghost image: seq<int>, ghost wrote: bool)
      requires Valid()
      modifies status, bus, cloud
      ensures Valid()
      ensures r.Ok? ==> wrote && DownloadPlan(fetched, current) == Ok((r.value, image))
                        && bus.log == old(bus.log) + DownloadOps(image)
      ensures wrote ==> Gathered(fetched, current, read)
                        && Answered(old(bus.replies), bus.replies, old(cloud.responses), cloud.responses, fetched, read)
                        && DownloadPlan(fetched, current).Ok? && DownloadPlan(fetched, current).value.1 == image
      ensures wrote && r.Err? ==>
                BusError(r.error) || r.error == BatchProcessingError("Failed to write batch data to PLC", "write_registers")
      ensures wrote && r.Err? && !BusError(r.error) ==>
                bus.log == old(bus.log) + PrepareOps + [WriteOp(1, image)] && status.trigger == old(status.trigger)
      ensures !wrote ==> r.Err? && NoResetSince(old(bus.log), bus.log) && status.trigger == old(status.trigger)
      ensures !wrote ==> BusError(r.error) || FetchError(r.error)
                         || (Gathered(fetched, current, read) && DownloadPlan(fetched, current) == Err(r.error)
                             && Answered(old(bus.replies), bus.replies, old(cloud.responses), cloud.responses, fetched, read)
                             && bus.log == old(bus.log) + PrepareOps)
      ensures Extends(old(bus.replies), bus.replies) && Extends(old(cloud.responses), cloud.responses)
    {
      fetched, current, read, image, wrote := [], [], [], [], false;
      ghost var start := bus.log;
      var prepared;
      prepared, read := Prepare();
      if prepared.Err? {
        return Err(prepared.error), fetched, current, read, image, wrote;
      }
      var slots, records := prepared.value.0, prepared.value.1;
      fetched, current := records, slots;
      var planned := Transform(records, slots);
      if planned.Err? {
        PrepareNoReset();
        NoResetStep(start, PrepareOps, PrepareOps[0], bus.log);
        return Err(planned.error), fetched, current, read, image, wrote;
      }
      var words := planned.value.1;
      image, wrote := words, true;
      ghost var gathered := bus.replies;
      var committed := Commit(words);
      ExtendsTrans(old(bus.replies), gathered, bus.replies);
      RepliedStays(old(bus.replies), gathered, bus.replies, 2, Words(read));
      if committed.Err? {
        return Err(committed.error), fetched, current, read, image, wrote;
      }
      AppendAssoc(start, PrepareOps, CommitOps(words));
      r := Ok(planned.value.0);
    }

    /** The bookkeeping at the end of a download that succeeds: the merged
        batches are kept and the operation counted. */
    method KeepBatches(mapped: seq<Batch>)
      modifies this
      ensures currentBatchData == mapped && operationCount == old(operationCount) + 1
      ensures lastZanasiSend == old(lastZanasiSend)
    {
      currentBatchData := mapped;
      operationCount := operationCount + 1;
    }

    /** `process_download_batch_trigger`. `fetched`, `current`, `read`,
        `image` and `wrote` are as for `Download`. */
    method ProcessDownloadBatchTrigger() returns (r: Result<bool, Failure>, ghost fetched: seq<Record>,
                                                  ghost current: seq<Option<Batch>>, ghost read: seq<int>,
                                                  ghost image: seq<int>, ghost wrote: bool)
      requires Valid()
      modifies this, status, bus, cloud
      ensures Valid() && lastZanasiSend == old(lastZanasiSend)
      ensures r.Ok? ==> r.value && operationCount == old(operationCount) + 1 && wrote
                        && Gathered(fetched, current, read)
                        && Answered(old(bus.replies), bus.replies, old(cloud.responses), cloud.responses, fetched, read)
                        && DownloadPlan(fetched, current) == Ok((currentBatchData, image))
                        && bus.log == old(bus.log) + DownloadOps(image)
      ensures r.Err? ==> operationCount == old(operationCount) && currentBatchData == old(currentBatchData)
      ensures r.Err? && r.error.cause.Some? ==>
                var c := r.error.cause.value;
                r.error.raised == BatchProcessingError(DownloadMessage(c) + ThrownText(c), "download_batch")
                && EndsWith(bus.log, FailureOps(DownloadErrorCode(c)))
      ensures r.Err? && r.error.cause.None? ==> BusError(r.error.raised)
      ensures r.Err? && r.error.cause.Some? ==>
                var c := r.error.cause.value;
                BusError(c) || FetchError(c) || DownloadPlan(fetched, current) == Err(c)
                || c == BatchProcessingError("Failed to write batch data to PLC", "write_registers")
      ensures r.Err? && r.error.cause.Some? && !wrote && !BusError(r.error.cause.value) && !FetchError(r.error.cause.value) ==>
                var c := r.error.cause.value;
                Gathered(fetched, current, read) && DownloadPlan(fetched, current) == Err(c)
                && Answered(old(bus.replies), bus.replies, old(cloud.responses), cloud.responses, fetched, read)
                && bus.log == old(bus.log) + PrepareOps + FailureOps(DownloadErrorCode(c))
      ensures r.Err? && !wrote ==> NoResetSince(old(bus.log), bus.log) && status.trigger == old(status.trigger)
      ensures r.Err? && r.error.cause.Some? && !BusError(r.error.cause.value) ==>
                NoResetSince(old(bus.log), bus.log) && status.trigger == old(status.trigger)
      ensures wrote ==> Answered(old(bus.replies), bus.replies, old(cloud.responses), cloud.responses, fetched, read)
      ensures Extends(old(bus.replies), bus.replies) && Extends(old(cloud.responses), cloud.responses)
    {
      var done;
      done, fetched, current, read, image, wrote := Download();
      if done.Err? {
        var e := done.error;
        ghost var mid, replied := bus.log, bus.replies;
        var f := Fail(e, DownloadErrorCode(e), DownloadMessage(e), "download_batch");
        ExtendsTrans(old(bus.replies), replied, bus.replies);
        AnswersStay(old(bus.replies), replied, bus.replies, old(cloud.responses), cloud.responses, fetched, read);
        FailedDownloadNoReset(old(bus.log), mid, bus.log, image, wrote, e, f);
        return Err(f), fetched, current, read, image, wrote;
      }
      KeepBatches(done.value);
      r := Ok(true);
    }

    /** `_read_batch_from_plc(n)`: read the slot's 20 words, place them in a
        zeroed 120-word image at their own addresses, and decode slot n of it. */
    method ReadBatchFromPlc(n: int) returns (r: Result<Option<Batch>, Thrown>, ghost words: seq<int>)
      requires 1 <= n <= NumBatches
      modifies bus
      ensures r.Ok? ==> bus.log == old(bus.log) + [ReadOp(SlotStart(n), RegistersPerBatch)]
                        && bus.replies == old(bus.replies) + [Words(words)]
                        && |words| == RegistersPerBatch && Ok(r.value) == DecodeSlot(words)
      ensures r.Err? ==> BusError(r.error)
      ensures Extends(old(bus.replies), bus.replies) && |bus.replies| - |bus.log| == old(|bus.replies| - |bus.log|)
    {
      var start := SlotStart(n);
      var read := bus.ReadHoldingRegisters(start, RegistersPerBatch);
      if read.Err? {
        return Err(read.error), [];
      }
      var slotWords := read.value;
      words := slotWords;
      var image := new int[TotalRegisters](_ => 0);
      for i := 0 to |slotWords|
        modifies image
        invariant forall j :: 0 <= j < TotalRegisters ==>
                    image[j] == if start - 1 <= j < start - 1 + i then slotWords[j - start + 1] else 0
      {
        image[start - 1 + i] := slotWords[i];
      }
      assert Slice(image[..], 9 + 20 * (n - 1), 9 + 20 * n) == slotWords;
      var slot := ExtractBatch(image[..], n);
      r := Ok(slot.value);
    }

    /** The batch in slot n, refused when the slot is empty or its batch
        index is 0. `words` are the slot's words as read. */
    method SlotBatch(n: int) returns (r: Result<Batch, Thrown>, ghost words: seq<int>)
      requires 1 <= n <= NumBatches
      modifies bus
      ensures r.Ok? ==> r.value.batchIndex != 0 && bus.log == old(bus.log) + [ReadOp(SlotStart(n), RegistersPerBatch)]
                        && bus.replies == old(bus.replies) + [Words(words)]
                        && |words| == RegistersPerBatch && DecodeSlot(words) == Ok(Some(r.value))
      ensures r.Err? ==> BusError(r.error) || IsInstance(r.error, BatchProcessing)
      ensures r.Err? && !BusError(r.error) ==>
                r.error == EmptySlot(n)
                && bus.log == old(bus.log) + [ReadOp(SlotStart(n), RegistersPerBatch)]
                && bus.replies == old(bus.replies) + [Words(words)]
                && |words| == RegistersPerBatch && DecodeSlot(words).Ok?
                && (DecodeSlot(words).value.None? || DecodeSlot(words).value.value.batchIndex == 0)
      ensures Extends(old(bus.replies), bus.replies) && |bus.replies| - |bus.log| == old(|bus.replies| - |bus.log|)
    {
      var slot;
      slot, words := ReadBatchFromPlc(n);
      if slot.Err? {
        return Err(slot.error), words;
      }
      if slot.value.None? || slot.value.value.batchIndex == 0 {
        return Err(EmptySlot(n)), words;
      }
      r := Ok(slot.value.value);
    }

    /** The selected position and the batch in its slot, as
        `process_load_to_zanasi_trigger` reads them before validating.
        `selected` is the position read, once the read succeeded; `words` the
        slot's words. */
    method PickSlot() returns (r: Result<(int, Batch), Thrown>, ghost selected: Option<int>, ghost words: seq<int>)
      requires Valid()
      modifies status, bus
      ensures Valid() && status.trigger == old(status.trigger)
      ensures r.Ok? ==> 1 <= r.value.0 <= NumBatches && r.value.1.batchIndex != 0
                        && bus.log == old(bus.log) + SelectOps(r.value.0)
                        && selected == Some(r.value.0) && DecodeSlot(words) == Ok(Some(r.value.1))
                        && bus.replies == old(bus.replies) + [Words([r.value.0]), Words(words)]
      ensures r.Err? ==> BusError(r.error) || IsInstance(r.error, BatchProcessing)
      ensures selected.None? ==> r.Err? && BusError(r.error)
      ensures selected.Some? ==> RepliedAt(old(bus.replies), bus.replies, 0, Words([selected.value]))
      ensures selected.Some? && !(1 <= selected.value <= NumBatches) ==>
                r == Err(InvalidSelection(selected.value))
                && bus.log == old(bus.log) + [ReadOp(SelectedBatchRegister, 1)]
      ensures Extends(old(bus.replies), bus.replies)
    {
      selected, words := None, [];
      var position := status.GetSelectedBatch();
      if position.Err? {
        r := Err(position.error);
      } else {
        var n := position.value;
        selected := Some(n);
        ghost var asked, replied := bus.log, bus.replies;
        var slot;
        slot, words := SlotAt(n);
        PickedAnswers(old(bus.log), asked, bus.log, old(bus.replies), replied, bus.replies, n, words);
        r := if slot.Ok? then Ok((n, slot.value)) else Err(slot.error);
      }
    }

    /** The batch at a selected position: a position outside 1..5 is refused
        before any read, otherwise it is the batch in that slot. */
    method SlotAt(n: int) returns (r: Result<Batch, Thrown>, ghost words: seq<int>)
      modifies bus
      ensures r.Ok? ==> 1 <= n <= NumBatches && r.value.batchIndex != 0
                        && bus.log == old(bus.log) + [ReadOp(SlotStart(n), RegistersPerBatch)]
                        && bus.replies == old(bus.replies) + [Words(words)]
                        && DecodeSlot(words) == Ok(Some(r.value))
      ensures r.Err? ==> BusError(r.error) || IsInstance(r.error, BatchProcessing)
      ensures !(1 <= n <= NumBatches) ==>
                r == Err(InvalidSelection(n)) && bus.log == old(bus.log) && bus.replies == old(bus.replies)
      ensures Extends(old(bus.replies), bus.replies) && |bus.replies| - |bus.log| == old(|bus.replies| - |bus.log|)
    {
      if !(1 <= n <= NumBatches) {
        return Err(InvalidSelection(n)), [];
      }
      r, words := SlotBatch(n);
    }

    /** The load up to the send: the selected slot, then the printer-field
        validation. `candidate` is the batch the slot held, once there is one;
        `selected` and `words` are as for `PickSlot`. */
    method Select() returns (r: Result<(int, Batch), Thrown>, ghost candidate: Batch,
                             ghost selected: Option<int>, ghost words: seq<int>)
      requires Valid()
      modifies status, bus
      ensures Valid() && status.trigger == old(status.trigger)
      ensures r.Ok? ==> 1 <= r.value.0 <= NumBatches && bus.log == old(bus.log) + SelectOps(r.value.0)
                        && selected == Some(r.value.0)
      ensures r.Ok? ==> candidate == r.value.1 && ZanasiDataErrors(ToRecord(candidate)) == []
                        && DecodeSlot(words) == Ok(Some(candidate))
      ensures r.Err? ==> BusError(r.error) || IsInstance(r.error, BatchProcessing) || IsInstance(r.error, DataValidation)
      ensures r.Err? && IsInstance(r.error, DataValidation) ==>
                ZanasiDataErrors(ToRecord(candidate)) != [] && DecodeSlot(words) == Ok(Some(candidate))
      ensures r.Ok? || IsInstance(r.error, DataValidation) ==> SlotAnswered(old(bus.replies), bus.replies, selected, words)
      ensures selected.None? ==> r.Err? && BusError(r.error)
      ensures selected.Some? ==> RepliedAt(old(bus.replies), bus.replies, 0, Words([selected.value]))
      ensures selected.Some? && !(1 <= selected.value <= NumBatches) ==>
                r == Err(InvalidSelection(selected.value))
                && bus.log == old(bus.log) + [ReadOp(SelectedBatchRegister, 1)]
      ensures Extends(old(bus.replies), bus.replies)
    {
      candidate := EmptyBatch();
      r, selected, words := PickSlot();
      if r.Ok? {
        candidate := r.value.1;
        var isValid := CheckForZanasi(r.value.1);
        if !isValid {
          r := Err(DataValidationError(InvalidForZanasi));
        }
      }
    }

    /** The load from the send on: SENDING_TO_ZANASI, both printheads, then on
        success COMPLETE and the trigger reset. `contacted` tells whether the
        printheads were called. */
    method Send(b: Batch) returns (r: Result<bool, Thrown>, ghost contacted: bool)
      requires Valid()
      modifies status, bus, zanasi, zanasi.printhead1, zanasi.printhead2
      ensures Valid()
      ensures !contacted ==> zanasi.printhead1.history == old(zanasi.printhead1.history)
                             && zanasi.printhead2.history == old(zanasi.printhead2.history)
      ensures contacted ==> SentToBoth(old(zanasi.printhead1.history), zanasi.printhead1.history,
                                       old(zanasi.printhead2.history), zanasi.printhead2.history, b)
      ensures r.Ok? ==> contacted && bus.log == old(bus.log) + SendOps
                        && Delivered(zanasi.printhead1.history) && Delivered(zanasi.printhead2.history)
      ensures r.Err? ==> BusError(r.error) || r.error == DuplicateDetails
      ensures r.Err? && !BusError(r.error) ==>
                contacted && !(Delivered(zanasi.printhead1.history) && Delivered(zanasi.printhead2.history))
      ensures !contacted ==> r.Err? && BusError(r.error)
      ensures Extends(old(bus.replies), bus.replies)
    {
      contacted := false;
      ghost var start, answered := bus.log, bus.replies;
      var s1 := status.SetProcessingStatus(SendingToZanasi);
      if s1.Err? {
        return Err(s1.error), contacted;
      }
      ghost var sending, replied := bus.log, bus.replies;
      var sanitized := SanitizeForZanasi(ToRecord(b));
      var success, results := zanasi.SendBatchToBothPrintheads(sanitized);
      assert bus.log == sending && bus.replies == replied;
      contacted := true;
      if !success {
        return Err(DuplicateDetails), contacted;
      }
      var s2 := status.SetProcessingStatus(Complete);
      ExtendsTrans(answered, replied, bus.replies);
      if s2.Err? {
        return Err(s2.error), contacted;
      }
      ghost var completed := bus.replies;
      var s3 := status.ResetTrigger();
      ExtendsTrans(answered, completed, bus.replies);
      if s3.Err? {
        return Err(s3.error), contacted;
      }
      Appended3(start, SendOps[0], SendOps[1], SendOps[2]);
      r := Ok(true);
    }

    /** The load from the read of the selected position to the trigger reset:
        select, then send. On success the position and the batch sent; `b` is
        the batch the selected slot held, once one was read; `selected`,
        `words` and `contacted` are as for `Select` and `Send`. */
    method Load() returns (r: Result<(int, Batch), Thrown>, ghost b: Batch, ghost selected: Option<int>,
                           ghost words: seq<int>, ghost contacted: bool)
      requires Valid()
      modifies status, bus, zanasi, zanasi.printhead1, zanasi.printhead2
      ensures Valid()
      ensures r.Ok? ==> 1 <= r.value.0 <= NumBatches && r.value.1 == b
                        && bus.log == old(bus.log) + LoadOps(r.value.0)
                        && selected == Some(r.value.0) && DecodeSlot(words) == Ok(Some(b))
      ensures r.Ok? ==> LoadedOnto(old(zanasi.printhead1.history), zanasi.printhead1.history,
                                   old(zanasi.printhead2.history), zanasi.printhead2.history, b)
      ensures !contacted ==> r.Err?
                             && zanasi.printhead1.history == old(zanasi.printhead1.history)
                             && zanasi.printhead2.history == old(zanasi.printhead2.history)
      ensures r.Ok? || contacted ==> SlotAnswered(old(bus.replies), bus.replies, selected, words)
      ensures contacted ==> DecodeSlot(words) == Ok(Some(b)) && ZanasiDataErrors(ToRecord(b)) == []
                            && SentToBoth(old(zanasi.printhead1.history), zanasi.printhead1.history,
                                          old(zanasi.printhead2.history), zanasi.printhead2.history, b)
      ensures r.Err? ==> BusError(r.error) || IsInstance(r.error, BatchProcessing)
                         || IsInstance(r.error, DataValidation) || r.error == DuplicateDetails
      ensures r.Err? && (IsInstance(r.error, BatchProcessing) || IsInstance(r.error, DataValidation)) ==> !contacted
      ensures r.Err? && IsInstance(r.error, DataValidation) ==>
                ZanasiDataErrors(ToRecord(b)) != [] && DecodeSlot(words) == Ok(Some(b))
                && SlotAnswered(old(bus.replies), bus.replies, selected, words)
      ensures r.Err? && contacted && !BusError(r.error) ==>
                r.error == DuplicateDetails
                && !(Delivered(zanasi.printhead1.history) && Delivered(zanasi.printhead2.history))
      ensures selected.None? ==> r.Err? && BusError(r.error)
      ensures selected.Some? ==> RepliedAt(old(bus.replies), bus.replies, 0, Words([selected.value]))
      ensures selected.Some? && !(1 <= selected.value <= NumBatches) ==>
                r == Err(InvalidSelection(selected.value))
                && bus.log == old(bus.log) + [ReadOp(SelectedBatchRegister, 1)]
      ensures Extends(old(bus.replies), bus.replies)
    {
      contacted := false;
      var chosen;
      chosen, b, selected, words := Select();
      if chosen.Err? {
        return Err(chosen.error), b, selected, words, contacted;
      }
      var n, batch := chosen.value.0, chosen.value.1;
      ghost var replied := bus.replies;
      var sent;
      sent, contacted := Send(batch);
      ExtendsTrans(old(bus.replies), replied, bus.replies);
      RepliedStays(old(bus.replies), replied, bus.replies, 0, Words([n]));
      RepliedStays(old(bus.replies), replied, bus.replies, 1, Words(words));
      if sent.Err? {
        SendErrorKind(sent.error);
        return Err(sent.error), b, selected, words, contacted;
      }
      AppendAssoc(old(bus.log), SelectOps(n), SendOps);
      r := Ok((n, batch));
    }

    /** The bookkeeping at the end of a load that succeeds: the send is
        recorded and the operation counted. */
    method RecordSend(batchIndex: int, position: int)
      modifies this
      ensures lastZanasiSend == Some(LastSend(batchIndex, position)) && operationCount == old(operationCount) + 1
      ensures currentBatchData == old(currentBatchData)
    {
      lastZanasiSend := Some(LastSend(batchIndex, position));
      operationCount := operationCount + 1;
    }

    /** `process_load_to_zanasi_trigger`. `b` is the batch the selected slot
        held, once one was read; `selected` the position read, once the read
        succeeded; `words` the slot's words; `contacted` whether the
        printheads were called. */
    method ProcessLoadToZanasiTrigger() returns (r: Result<bool, Failure>, ghost b: Batch, ghost selected: Option<int>,
                                                 ghost words: seq<int>, ghost contacted: bool)
      requires Valid()
      modifies this, status, bus, zanasi, zanasi.printhead1, zanasi.printhead2
      ensures Valid()
      ensures r.Ok? ==> r.value && operationCount == old(operationCount) + 1
                        && lastZanasiSend.Some? && lastZanasiSend.value.batchIndex == b.batchIndex
                        && 1 <= lastZanasiSend.value.selectedPosition <= NumBatches
                        && selected == Some(lastZanasiSend.value.selectedPosition)
                        && DecodeSlot(words) == Ok(Some(b))
                        && bus.log == old(bus.log) + LoadOps(lastZanasiSend.value.selectedPosition)
                        && SlotAnswered(old(bus.replies), bus.replies, selected, words)
      ensures r.Ok? ==> LoadedOnto(old(zanasi.printhead1.history), zanasi.printhead1.history,
                                   old(zanasi.printhead2.history), zanasi.printhead2.history, b)
      ensures r.Err? ==> operationCount == old(operationCount) && lastZanasiSend == old(lastZanasiSend)
      ensures r.Err? && r.error.cause.Some? ==>
                var c := r.error.cause.value;
                r.error.raised == BatchProcessingError(LoadMessage(c) + ThrownText(c), "load_to_zanasi")
                && EndsWith(bus.log, FailureOps(LoadErrorCode(c)))
      ensures r.Err? && r.error.cause.None? ==> BusError(r.error.raised)
      ensures !contacted ==> r.Err?
                             && zanasi.printhead1.history == old(zanasi.printhead1.history)
                             && zanasi.printhead2.history == old(zanasi.printhead2.history)
      ensures r.Err? && r.error.cause.Some? ==>
                var c := r.error.cause.value;
                (IsInstance(c, BatchProcessing) || IsInstance(c, DataValidation) ==> !contacted)
                && (contacted && !BusError(c) ==>
                      c == DuplicateDetails
                      && !(Delivered(zanasi.printhead1.history) && Delivered(zanasi.printhead2.history)))
      ensures r.Err? && r.error.cause.Some? && IsInstance(r.error.cause.value, DataValidation) ==>
                ZanasiDataErrors(ToRecord(b)) != [] && DecodeSlot(words) == Ok(Some(b))
      ensures contacted || (r.Err? && r.error.cause.Some? && IsInstance(r.error.cause.value, DataValidation)) ==>
                SlotAnswered(old(bus.replies), bus.replies, selected, words)
      ensures selected.Some? ==> RepliedAt(old(bus.replies), bus.replies, 0, Words([selected.value]))
      ensures selected.Some? && !(1 <= selected.value <= NumBatches) ==>
                r.Err? && (r.error.cause.Some? ==>
                  r.error.cause.value == InvalidSelection(selected.value)
                  && bus.log == old(bus.log) + [ReadOp(SelectedBatchRegister, 1)] + FailureOps(ZanasiCommFail))
      ensures currentBatchData == old(currentBatchData)
      ensures Extends(old(bus.replies), bus.replies)
    {
      var loaded;
      loaded, b, selected, words, contacted := Load();
      if loaded.Err? {
        var e := loaded.error;
        ghost var mid, replied := bus.log, bus.replies;
        var f := Fail(e, LoadErrorCode(e), LoadMessage(e), "load_to_zanasi");
        SlotAnswersStay(old(bus.replies), replied, bus.replies, selected, words);
        ExtendsTrans(old(bus.replies), replied, bus.replies);
        if selected.Some? && !(1 <= selected.value <= NumBatches) && f.cause.Some? {
          assert mid == old(bus.log) + [ReadOp(SelectedBatchRegister, 1)] && LoadErrorCode(e) == ZanasiCommFail;
        }
        return Err(f), b, selected, words, contacted;
      }
      RecordSend(loaded.value.1.batchIndex, loaded.value.0);
      r := Ok(true);
    }
  }

  /** What a send raises is neither a batch-processing nor a validation error. */
  lemma SendErrorKind(e: Thrown)
    requires BusError(e) || e == DuplicateDetails
    ensures !IsInstance(e, BatchProcessing) && !IsInstance(e, DataValidation)
  {
  }

  /** Both printheads received, once each, the commands for the sanitised batch. */
  predicate SentToBoth(before1: seq<Zanasi.SendRecord>, after1: seq<Zanasi.SendRecord>,
                       before2: seq<Zanasi.SendRecord>, after2: seq<Zanasi.SendRecord>, b: Batch)
  {
    && Zanasi.CalledOnceWith(before1, after1, Zanasi.BuildBatchCommands(Sanitized(ToRecord(b))))
    && Zanasi.CalledOnceWith(before2, after2, Zanasi.BuildBatchCommands(Sanitized(ToRecord(b))))
  }

  /** What a load that succeeds did with `b`: it passed the printer-field
      check, both printheads received its sanitised commands once each, and
      both calls went through. */
  predicate LoadedOnto(before1: seq<Zanasi.SendRecord>, after1: seq<Zanasi.SendRecord>,
                       before2: seq<Zanasi.SendRecord>, after2: seq<Zanasi.SendRecord>, b: Batch)
  {
    && ZanasiDataErrors(ToRecord(b)) == []
    && SentToBoth(before1, after1, before2, after2, b)
    && Delivered(after1) && Delivered(after2)
  }

  /** The printhead's last call went through. */
  predicate Delivered(history: seq<Zanasi.SendRecord>)
  {
    |history| > 0 && history[|history| - 1].outcome.Ok?
  }

  /** `_validate_batch_for_zanasi`'s check of the batch as read. */
  method CheckForZanasi(b: Batch) returns (ok: bool)
    ensures ok <==> ZanasiDataErrors(ToRecord(b)) == []
  {
    var isValid, errors := ValidateZanasiData(ToRecord(b));
    ZanasiDataErrorsSpec(ToRecord(b));
    ok := isValid;
  }

  /** The decoding-and-validation half of the download, run on values. */
  method Transform(fetched: seq<Record>, current: seq<Option<Batch>>)
    returns (r: Result<(seq<Batch>, seq<int>), Thrown>)
    ensures r == DownloadPlan(fetched, current)
  {
    var parsed := ParseFirebaseData(AsPayload(fetched));
    if parsed.Err? {
      return Err(ParseFailureThrown(parsed.error));
    }
    var plcBatches := PlcBatchesForMapping(current);
    var mapped := MapFirebaseToPlcPositions(parsed.value, plcBatches);
    if mapped.Err? {
      return Err(MergeFailureThrown(mapped.error));
    }
    var image := ConvertBatchesToRegisters(mapped.value);
    if image.Err? {
      return Err(ConversionFailureThrown(image.error));
    }
    r := Ok((mapped.value, image.value));
  }

  /** The loop of `_map_batches_to_plc_positions` that fills empty slots. */
  method PlcBatchesForMapping(current: seq<Option<Batch>>) returns (batches: seq<Batch>)
    ensures batches == WithPlaceholders(current)
    ensures forall k :: 0 <= k < |current| ==> (current[k].None? <==> batches[k] == EmptyBatch()) || current[k] == Some(EmptyBatch())
  {
    batches := [];
    for k := 0 to |current|
      invariant batches == WithPlaceholders(current[..k])
    {
      PrefixSnoc(current, k);
      if current[k].None? {
        batches := batches + [EmptyBatch()];
      } else {
        batches := batches + [current[k].value];
      }
    }
    assert current[..|current|] == current;
  }
}
