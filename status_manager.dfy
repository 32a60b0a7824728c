/** The bridge's mirror of the controller's state registers
    (processing/status_manager.py): four enum fields and the selected batch,
    setters that write one register and update the mirror only when the
    write reports success, a change history capped at fifty entries, the
    processing-state transition table, and the change diff the status
    monitor raises events from. */
module StatusManager {
  import opened Base
  import opened Values
  import opened Enums
  import opened Exceptions
  import opened Collaborators

  const MaxHistoryLength: nat := 50

  /** The four enum fields `_update_internal_state` compares. */
  datatype Snapshot = Snapshot(processing: ProcessingState, plc: PlcState, trigger: TriggerState, error: ErrorCode)

  /** One history entry (its timestamp is not modelled). */
  datatype StateChange = StateChange(oldState: Snapshot, newState: Snapshot)

  /** The state of a freshly constructed manager. */
  const InitialSnapshot := Snapshot(ProcIdle, PlcIdle, TriggerIdle, NoError)

  // ---------------------------------------------------------------- history

  /** `_record_state_change`: append, then drop the oldest entry when the list
      has grown past its cap. */
  function Recorded(h: seq<StateChange>, c: StateChange): (r: seq<StateChange>)
  {
    var appended := h + [c];
    if |appended| > MaxHistoryLength then appended[1..] else appended
  }

  /** The last `n` entries of `h` (all of them when there are fewer). */
  function LastEntries(h: seq<StateChange>, n: nat): (r: seq<StateChange>)
  {
    if |h| <= n then h else h[|h| - n..]
  }

  lemma LastEntriesSpec(h: seq<StateChange>, n: nat)
    ensures |LastEntries(h, n)| == Min(n, |h|)
    ensures forall i :: 0 <= i < |LastEntries(h, n)| ==> LastEntries(h, n)[i] == h[|h| - |LastEntries(h, n)| + i]
  {
  }

  /** Recording the changes `cs` one after the other. */
  function RecordedAll(h: seq<StateChange>, cs: seq<StateChange>): seq<StateChange>
    decreases |cs|
  {
    if cs == [] then h else RecordedAll(Recorded(h, cs[0]), cs[1..])
  }

  /** One recording keeps the newest entries of the list, at most fifty of them. */
  lemma RecordedKeepsNewest(h: seq<StateChange>, c: StateChange)
    requires |h| <= MaxHistoryLength
    ensures Recorded(h, c) == LastEntries(h + [c], MaxHistoryLength)
    ensures |Recorded(h, c)| <= MaxHistoryLength
    ensures Recorded(h, c)[|Recorded(h, c)| - 1] == c
  {
  }

  /** However many changes are recorded, the history is exactly the newest
      fifty of everything recorded, oldest dropped first. */
  lemma {:induction false} RecordedAllKeepsNewest(h: seq<StateChange>, cs: seq<StateChange>)
    requires |h| <= MaxHistoryLength
    ensures RecordedAll(h, cs) == LastEntries(h + cs, MaxHistoryLength)
    decreases |cs|
  {
    if cs != [] {
      RecordedKeepsNewest(h, cs[0]);
      RecordedAllKeepsNewest(Recorded(h, cs[0]), cs[1..]);
      LastOfLast(h + [cs[0]], cs[1..]);
      HeadTail(h, cs);
    }
  }

  lemma HeadTail(h: seq<StateChange>, cs: seq<StateChange>)
    requires cs != []
    ensures h + [cs[0]] + cs[1..] == h + cs
  {
    assert [cs[0]] + cs[1..] == cs;
  }

  /** Trimming to the newest fifty before appending more does not change the
      newest fifty afterwards. */
  lemma LastOfLast(a: seq<StateChange>, b: seq<StateChange>)
    ensures LastEntries(LastEntries(a, MaxHistoryLength) + b, MaxHistoryLength)
            == LastEntries(a + b, MaxHistoryLength)
  {
    var la := LastEntries(a, MaxHistoryLength);
    var x := LastEntries(la + b, MaxHistoryLength);
    var y := LastEntries(a + b, MaxHistoryLength);
    LastEntriesSpec(a, MaxHistoryLength);
    LastEntriesSpec(la + b, MaxHistoryLength);
    LastEntriesSpec(a + b, MaxHistoryLength);
    assert |x| == |y|;
    forall i | 0 <= i < |x|
      ensures x[i] == y[i]
    {
      var k := |a + b| - |y| + i;
      if k >= |a| {
        assert y[i] == b[k - |a|];
      } else {
        assert y[i] == a[k];
      }
    }
  }

  /** `get_state_history(limit)`: a falsy limit returns the whole list;
      otherwise the slice `history[-limit:]`. */
  function HistorySlice(h: seq<StateChange>, limit: Option<int>): (r: seq<StateChange>)
    ensures limit.Some? && limit.value > 0 ==> r == LastEntries(h, limit.value)
    ensures limit.None? || limit.value == 0 ==> r == h
    ensures limit.Some? && limit.value < 0 ==> r == h[Min(-limit.value, |h|)..]
  {
    if limit.None? || limit.value == 0 then h
    else if limit.value > 0 then (if limit.value >= |h| then h else h[|h| - limit.value..])
    else h[Min(-limit.value, |h|)..]
  }

  // ------------------------------------------------------- register mirroring

  /** The dictionary `read_all_status_registers` builds. */
  datatype StatusRegisters = StatusRegisters(
    trigger: int, raspPiStatus: int, plcStatus: int, zanasiStatus: int, errorCode: int, selectedBatch: int)

  /** The ValueError an IntEnum constructor raises for an unknown value. */
  function NotValid(v: int, enumName: string): Thrown
  {
    Foreign("ValueError", IntToDecimal(v) + " is not a valid " + enumName)
  }

  predicate CodesValid(regs: StatusRegisters)
  {
    && TriggerFromCode(regs.trigger).Some?
    && ProcessingFromCode(regs.raspPiStatus).Some?
    && PlcFromCode(regs.plcStatus).Some?
    && ErrorFromCode(regs.errorCode).Some?
  }

  /** What `_update_internal_state` leaves behind: the four fields converted
      in order (trigger, processing, PLC, error) until the first unknown value,
      whose ValueError ends the update with the earlier fields already set. */
  function Converted(s: Snapshot, regs: StatusRegisters): (r: (Snapshot, Option<Thrown>))
    ensures r.1.None? <==> CodesValid(regs)
    ensures r.1.None? ==> r.0 == Snapshot(ProcessingFromCode(regs.raspPiStatus).value, PlcFromCode(regs.plcStatus).value,
                                          TriggerFromCode(regs.trigger).value, ErrorFromCode(regs.errorCode).value)
    ensures r.0.trigger == if TriggerFromCode(regs.trigger).Some? then TriggerFromCode(regs.trigger).value else s.trigger
    ensures TriggerFromCode(regs.trigger).None? ==> r.0 == s
    ensures r.1.Some? ==> r.1.value.Foreign? && r.1.value.typeName == "ValueError"
  {
    match TriggerFromCode(regs.trigger)
    case None => (s, Some(NotValid(regs.trigger, "TriggerStates")))
    case Some(t) =>
      var s1 := s.(trigger := t);
      match ProcessingFromCode(regs.raspPiStatus)
      case None => (s1, Some(NotValid(regs.raspPiStatus, "ProcessingStates")))
      case Some(p) =>
        var s2 := s1.(processing := p);
        match PlcFromCode(regs.plcStatus)
        case None => (s2, Some(NotValid(regs.plcStatus, "PLCStates")))
        case Some(l) =>
          var s3 := s2.(plc := l);
          match ErrorFromCode(regs.errorCode)
          case None => (s3, Some(NotValid(regs.errorCode, "ErrorCodes")))
          case Some(e) => (s3.(error := e), None)
  }

  /** Converting the same registers a second time changes nothing, so a
      repeated read of unchanged registers records no history entry. */
  lemma ConvertedTwice(s: Snapshot, regs: StatusRegisters)
    ensures Converted(Converted(s, regs).0, regs) == Converted(s, regs)
  {
  }

  /** Fields after the one that failed keep their old values. */
  lemma ConversionStopsAtFailure(s: Snapshot, regs: StatusRegisters)
    requires TriggerFromCode(regs.trigger).Some? && ProcessingFromCode(regs.raspPiStatus).None?
    ensures Converted(s, regs).0 == s.(trigger := TriggerFromCode(regs.trigger).value)
    ensures Converted(s, regs).1 == Some(NotValid(regs.raspPiStatus, "ProcessingStates"))
  {
  }

  /** What a single-register write through the bus may have left in its log
      and its replies: the result is the controller's answer. */
  predicate Wrote(before: seq<BusOp>, after: seq<BusOp>, repliedBefore: seq<Reply>, replied: seq<Reply>,
                  register: nat, value: int, r: Result<bool, Thrown>)
  {
    && (r.Ok? ==> after == before + [WriteOp(register, [value])] && replied == repliedBefore + [Accepted(r.value)])
    && (r.Err? ==> BusError(r.error)
                   && ((after == before && replied == repliedBefore)
                       || (after == before + [WriteOp(register, [value])] && replied == repliedBefore + [Raised(r.error)])))
  }

  /** What a single-register read through the bus may have left in its log
      and its replies: the result is the word the controller answered. */
  predicate Read(before: seq<BusOp>, after: seq<BusOp>, repliedBefore: seq<Reply>, replied: seq<Reply>,
                 register: nat, r: Result<Word, Thrown>)
  {
    && (r.Ok? ==> after == before + [ReadOp(register, 1)] && replied == repliedBefore + [Words([r.value])])
    && (r.Err? ==> BusError(r.error)
                   && ((after == before && replied == repliedBefore)
                       || (after == before + [ReadOp(register, 1)] && replied == repliedBefore + [Raised(r.error)])))
  }

  /** Every field holds a 16-bit register value. */
  predicate WordsRead(regs: StatusRegisters)
  {
    && 0 <= regs.trigger < 0x1_0000 && 0 <= regs.raspPiStatus < 0x1_0000 && 0 <= regs.plcStatus < 0x1_0000
    && 0 <= regs.zanasiStatus < 0x1_0000 && 0 <= regs.errorCode < 0x1_0000 && 0 <= regs.selectedBatch < 0x1_0000
  }

  /** The writes `reset_system_state` makes, in order. */
  const ResetOps: seq<BusOp> := [WriteOp(TriggerRegister, [0])] + IdleOps

  /** The writes after the trigger reset: processing, PLC and error back to 0. */
  const IdleOps: seq<BusOp> := [WriteOp(RaspPiStatusRegister, [0]), WriteOp(PlcStatusRegister, [0]),
                                WriteOp(ErrorCodeRegister, [0])]

  /** The reads `read_all_status_registers` makes, in order. */
  const StatusReads: seq<BusOp> := [ReadOp(TriggerRegister, 1), ReadOp(RaspPiStatusRegister, 1),
                                    ReadOp(PlcStatusRegister, 1), ReadOp(ZanasiStatusRegister, 1),
                                    ReadOp(ErrorCodeRegister, 1), ReadOp(SelectedBatchRegister, 1)]

  /** The controller's answers to `StatusReads` that make up `regs`. */
  function StatusReplies(regs: StatusRegisters): seq<Reply>
  {
    [Words([regs.trigger]), Words([regs.raspPiStatus]), Words([regs.plcStatus]),
     Words([regs.zanasiStatus]), Words([regs.errorCode]), Words([regs.selectedBatch])]
  }

  /** `after` is `before` followed by the first few of `ops`. */
  predicate SentPrefix(before: seq<BusOp>, after: seq<BusOp>, ops: seq<BusOp>)
  {
    |before| <= |after| <= |before| + |ops| && after == before + ops[..|after| - |before|]
  }

  /** Three writes the controller accepted. */
  const ThreeAccepted: seq<Reply> := [Accepted(true), Accepted(true), Accepted(true)]

  /** Four writes the controller accepted. */
  const AllAccepted: seq<Reply> := [Accepted(true)] + ThreeAccepted

  /** Every answer appended after `before`, except perhaps the last, is the
      answer to a write that went through: no step stopped the sequence
      without raising. */
  predicate AnsweredWrites(before: seq<Reply>, after: seq<Reply>)
  {
    forall k :: |before| <= k < |after| - 1 ==> after[k].Accepted?
  }

  /** The last call of a sequence raised: either before its request went out,
      or as the controller's answer. */
  predicate StoppedByRaise(unsentBefore: nat, unsent: nat, before: seq<Reply>, after: seq<Reply>)
  {
    unsentBefore < unsent || (|before| < |after| && after[|after| - 1].Raised?)
  }

  /** Sending one request, then the first few of `ops`, sends the first few
      of the request followed by `ops`. */
  lemma SentPrefixJoin(start: seq<BusOp>, mid: seq<BusOp>, log: seq<BusOp>, op: BusOp, ops: seq<BusOp>)
    requires mid == start + [op] && SentPrefix(mid, log, ops)
    ensures SentPrefix(start, log, [op] + ops)
  {
    var j := |log| - |mid|;
    assert ([op] + ops)[..j + 1] == [op] + ops[..j];
  }

  // -------------------------------------------------------- transition table

  /** The targets `validate_state_transition` lists for each state. */
  function AllowedTargets(from: ProcessingState): (targets: seq<ProcessingState>)
    ensures from !in targets && 1 <= |targets| <= 2
  {
    match from
    case ProcIdle => [Downloading, SendingToZanasi]
    case Downloading => [ProcessingData, ProcError]
    case ProcessingData => [ReadyToSend, ProcError]
    case ReadyToSend => [SendingToZanasi, Complete]
    case SendingToZanasi => [Complete, ProcError]
    case Complete => [ProcIdle]
    case ProcError => [ProcIdle]
  }

  /** `validate_state_transition`: no state may be re-entered from itself, and
      IDLE is re-entered only from COMPLETE or ERROR. */
  function ValidateStateTransition(from: ProcessingState, to: ProcessingState): (ok: bool)
    ensures ok ==> from != to
    ensures ok && to == ProcIdle ==> from == Complete || from == ProcError
  {
    to in AllowedTargets(from)
  }

  /** ERROR is entered only from the three working states, and left only to IDLE. */
  lemma ErrorEdges(s: ProcessingState)
    ensures ValidateStateTransition(s, ProcError) <==> s in {Downloading, ProcessingData, SendingToZanasi}
    ensures ValidateStateTransition(ProcError, s) <==> s == ProcIdle
  {
  }

  /** A walk through the table. */
  predicate ValidPath(p: seq<ProcessingState>)
  {
    forall i :: 0 <= i < |p| - 1 ==> ValidateStateTransition(p[i], p[i + 1])
  }

  /** A route through the table from IDLE to `s`. */
  function RouteFromIdle(s: ProcessingState): seq<ProcessingState>
  {
    match s
    case ProcIdle => [ProcIdle, Downloading, ProcError, ProcIdle]
    case Downloading => [ProcIdle, Downloading]
    case ProcessingData => [ProcIdle, Downloading, ProcessingData]
    case ReadyToSend => [ProcIdle, Downloading, ProcessingData, ReadyToSend]
    case SendingToZanasi => [ProcIdle, SendingToZanasi]
    case Complete => [ProcIdle, SendingToZanasi, Complete]
    case ProcError => [ProcIdle, Downloading, ProcError]
  }

  /** A route through the table from `s` back to IDLE. */
  function RouteToIdle(s: ProcessingState): seq<ProcessingState>
  {
    match s
    case ProcIdle => [ProcIdle, Downloading, ProcError, ProcIdle]
    case Downloading => [Downloading, ProcError, ProcIdle]
    case ProcessingData => [ProcessingData, ProcError, ProcIdle]
    case ReadyToSend => [ReadyToSend, Complete, ProcIdle]
    case SendingToZanasi => [SendingToZanasi, Complete, ProcIdle]
    case Complete => [Complete, ProcIdle]
    case ProcError => [ProcError, ProcIdle]
  }

  /** The table is strongly connected: every state can be reached from IDLE
      and can get back to IDLE, in at most three steps each way. */
  lemma EveryStateReachable(s: ProcessingState)
    ensures exists p :: 2 <= |p| <= 4 && p[0] == ProcIdle && p[|p| - 1] == s && ValidPath(p)
  {
    assert ValidPath(RouteFromIdle(s));
  }

  lemma EveryStateReturnsToIdle(s: ProcessingState)
    ensures exists p :: 2 <= |p| <= 4 && p[0] == s && p[|p| - 1] == ProcIdle && ValidPath(p)
  {
    assert ValidPath(RouteToIdle(s));
  }

  // ---------------------------------------------------------- status monitor

  /** The keys of a status summary `_check_for_changes` reads; a summary built
      after a failed read lacks them, and `.get` yields None. */
  datatype StatusSummary = StatusSummary(
    triggerState: Option<string>, hasError: Option<bool>, errorCode: Option<string>, processingState: Option<string>)

  datatype MonitorEvent =
    | TriggerChange(oldTrigger: Option<string>, newTrigger: Option<string>)
    | ErrorRaised(code: Option<string>, status: StatusSummary)
    | StateChangeEvent(oldState: Option<string>, newState: Option<string>)

  /** The position of an event kind in `_check_for_changes`. */
  function Rank(e: MonitorEvent): nat
  {
    match e
    case TriggerChange(_, _) => 0
    case ErrorRaised(_, _) => 1
    case StateChangeEvent(_, _) => 2
  }

  /** `_check_for_changes`: the callbacks it triggers, in order. An error event
      needs `has_error` to change and the new one to be truthy. */
  function ChangeEvents(before: StatusSummary, after: StatusSummary): (events: seq<MonitorEvent>)
    ensures (TriggerChange(before.triggerState, after.triggerState) in events) <==>
              before.triggerState != after.triggerState
    ensures (ErrorRaised(after.errorCode, after) in events) <==>
              before.hasError != after.hasError && after.hasError == Some(true)
    ensures (StateChangeEvent(before.processingState, after.processingState) in events) <==>
              before.processingState != after.processingState
    ensures forall e :: e in events ==> e in [TriggerChange(before.triggerState, after.triggerState),
                                               ErrorRaised(after.errorCode, after),
                                               StateChangeEvent(before.processingState, after.processingState)]
    ensures forall i, j :: 0 <= i < j < |events| ==> Rank(events[i]) < Rank(events[j])
  {
    var t := if before.triggerState != after.triggerState
             then [TriggerChange(before.triggerState, after.triggerState)] else [];
    var e := if before.hasError != after.hasError && after.hasError == Some(true)
             then [ErrorRaised(after.errorCode, after)] else [];
    var s := if before.processingState != after.processingState
             then [StateChangeEvent(before.processingState, after.processingState)] else [];
    t + e + s
  }

  /** An unchanged summary raises nothing, and clearing an error raises nothing
      about the error. */
  lemma QuietWhenUnchanged(s: StatusSummary, cleared: StatusSummary)
    requires s.hasError == Some(true) && cleared == s.(hasError := Some(false))
    ensures ChangeEvents(s, s) == []
    ensures ChangeEvents(s, cleared) == []
  {
  }

  // ------------------------------------------------------------ the manager

  class StatusManager
  {
    const bus: RegisterBus
    var processing: ProcessingState
    var plc: PlcState
    var trigger: TriggerState
    var errorCode: ErrorCode
    var selectedBatch: int
    var history: seq<StateChange>

    predicate Valid()
      reads this
    {
      |history| <= MaxHistoryLength
    }

    function Current(): Snapshot
      reads this
    {
      Snapshot(processing, plc, trigger, errorCode)
    }

    constructor(bus: RegisterBus)
      ensures this.bus == bus && Current() == InitialSnapshot && selectedBatch == 0 && history == []
      ensures Valid()
    {
      this.bus := bus;
      processing := ProcIdle;
      plc := PlcIdle;
      trigger := TriggerIdle;
      errorCode := NoError;
      selectedBatch := 0;
      history := [];
    }

    /** `_record_state_change`. */
    method RecordStateChange(oldState: Snapshot, newState: Snapshot)
      requires Valid()
      modifies this
      ensures Valid()
      ensures history == LastEntries(old(history) + [StateChange(oldState, newState)], MaxHistoryLength)
      ensures Current() == old(Current()) && selectedBatch == old(selectedBatch)
    {
      RecordedKeepsNewest(history, StateChange(oldState, newState));
      history := history + [StateChange(oldState, newState)];
      if |history| > MaxHistoryLength {
        history := history[1..];
      }
    }

    /** `_update_internal_state`: mirror the registers, recording a history
        entry iff one of the four enum fields changed. */
    method UpdateInternalState(regs: StatusRegisters) returns (failure: Option<Thrown>)
      requires Valid()
      modifies this
      ensures Valid()
      ensures Current() == Converted(old(Current()), regs).0 && failure == Converted(old(Current()), regs).1
      ensures failure.None? <==> CodesValid(regs)
      ensures selectedBatch == if failure.None? then regs.selectedBatch else old(selectedBatch)
      ensures history == if failure.None? && Current() != old(Current())
                         then LastEntries(old(history) + [StateChange(old(Current()), Current())], MaxHistoryLength)
                         else old(history)
    {
      var before := Current();
      var converted := Converted(before, regs);
      trigger := converted.0.trigger;
      processing := converted.0.processing;
      plc := converted.0.plc;
      errorCode := converted.0.error;
      if converted.1.Some? {
        return converted.1;
      }
      selectedBatch := regs.selectedBatch;
      if before != Current() {
        RecordStateChange(before, Current());
      }
      failure := None;
    }

    /** The six reads of `read_all_status_registers`: the fields are the
        words the controller answered, in order. */
    method ReadStatusWords() returns (r: Result<StatusRegisters, Thrown>)
      modifies bus
      ensures r.Ok? ==> bus.log == old(bus.log) + StatusReads && bus.replies == old(bus.replies) + StatusReplies(r.value)
      ensures r.Ok? ==> WordsRead(r.value)
      ensures r.Err? ==> BusError(r.error)
      ensures |bus.replies| - |bus.log| == old(|bus.replies| - |bus.log|)
    {
      var first := ReadThree(TriggerRegister, RaspPiStatusRegister, PlcStatusRegister);
      if first.Err? { return Err(first.error); }
      ghost var mid, replied := bus.log, bus.replies;
      var second := ReadThree(ZanasiStatusRegister, ErrorCodeRegister, SelectedBatchRegister);
      if second.Err? { return Err(second.error); }
      r := Ok(StatusRegisters(first.value.0, first.value.1, first.value.2,
                              second.value.0, second.value.1, second.value.2));
      assert StatusReads == StatusReads[..3] + StatusReads[3..];
      assert StatusReplies(r.value) == StatusReplies(r.value)[..3] + StatusReplies(r.value)[3..];
    }

    /** Three one-register reads in turn, the first error ending them. */
    method ReadThree(a: nat, b: nat, c: nat) returns (r: Result<(Word, Word, Word), Thrown>)
      modifies bus
      ensures r.Ok? ==> bus.log == old(bus.log) + [ReadOp(a, 1), ReadOp(b, 1), ReadOp(c, 1)]
                        && bus.replies == old(bus.replies) + [Words([r.value.0]), Words([r.value.1]), Words([r.value.2])]
      ensures r.Err? ==> BusError(r.error)
      ensures |bus.replies| - |bus.log| == old(|bus.replies| - |bus.log|)
    {
      var x := bus.ReadHoldingRegister(a);
      if x.Err? { return Err(x.error); }
      var y := bus.ReadHoldingRegister(b);
      if y.Err? { return Err(y.error); }
      var z := bus.ReadHoldingRegister(c);
      if z.Err? { return Err(z.error); }
      r := Ok((x.value, y.value, z.value));
    }

    /** `read_all_status_registers`: six reads, then the mirror update.
        `regs` are the words answered, once all six reads went through; a
        bus error leaves the mirror alone, and otherwise the mirror is
        converted from them exactly as `_update_internal_state` does, an
        unknown value included. */
    method ReadAllStatusRegisters() returns (r: Result<StatusRegisters, Thrown>, ghost regs: StatusRegisters)
      requires Valid()
      modifies this, bus
      ensures Valid()
      ensures r.Err? ==> BusError(r.error) || (r.error.Foreign? && r.error.typeName == "ValueError")
      ensures r.Err? && BusError(r.error) ==> Current() == old(Current()) && selectedBatch == old(selectedBatch)
      ensures r.Ok? || !BusError(r.error) ==>
                bus.log == old(bus.log) + StatusReads && bus.replies == old(bus.replies) + StatusReplies(regs)
                && Current() == Converted(old(Current()), regs).0
                && (r.Ok? <==> CodesValid(regs))
                && (r.Ok? ==> r.value == regs && selectedBatch == regs.selectedBatch)
                && (r.Err? ==> Converted(old(Current()), regs).1 == Some(r.error) && selectedBatch == old(selectedBatch))
      ensures history == if r.Ok? && Current() != old(Current())
                         then LastEntries(old(history) + [StateChange(old(Current()), Current())], MaxHistoryLength)
                         else old(history)
      ensures |bus.replies| - |bus.log| == old(|bus.replies| - |bus.log|)
    {
      var words := ReadStatusWords();
      regs := StatusRegisters(0, 0, 0, 0, 0, 0);
      if words.Err? {
        return Err(words.error), regs;
      }
      regs := words.value;
      var failure := UpdateInternalState(words.value);
      r := if failure.Some? then Err(failure.value) else Ok(words.value);
    }

    /** `set_processing_status`. */
    method SetProcessingStatus(status: ProcessingState) returns (r: Result<bool, Thrown>)
      modifies this, bus
      ensures Wrote(old(bus.log), bus.log, old(bus.replies), bus.replies, RaspPiStatusRegister, status.Code(), r)
      ensures Extends(old(bus.replies), bus.replies) && |bus.replies| - |bus.log| == old(|bus.replies| - |bus.log|)
      ensures Current() == if r == Ok(true) then old(Current()).(processing := status) else old(Current())
      ensures selectedBatch == old(selectedBatch) && history == old(history)
      ensures bus.unsent == old(bus.unsent) + if r.Err? && bus.log == old(bus.log) then 1 else 0
    {
      r := bus.WriteHoldingRegister(RaspPiStatusRegister, status.Code());
      if r == Ok(true) {
        processing := status;
      }
    }

    /** `set_plc_status`. */
    method SetPlcStatus(status: PlcState) returns (r: Result<bool, Thrown>)
      modifies this, bus
      ensures Wrote(old(bus.log), bus.log, old(bus.replies), bus.replies, PlcStatusRegister, status.Code(), r)
      ensures Extends(old(bus.replies), bus.replies) && |bus.replies| - |bus.log| == old(|bus.replies| - |bus.log|)
      ensures Current() == if r == Ok(true) then old(Current()).(plc := status) else old(Current())
      ensures selectedBatch == old(selectedBatch) && history == old(history)
      ensures bus.unsent == old(bus.unsent) + if r.Err? && bus.log == old(bus.log) then 1 else 0
    {
      r := bus.WriteHoldingRegister(PlcStatusRegister, status.Code());
      if r == Ok(true) {
        plc := status;
      }
    }

    /** `set_error_code`. */
    method SetErrorCode(code: ErrorCode) returns (r: Result<bool, Thrown>)
      modifies this, bus
      ensures Wrote(old(bus.log), bus.log, old(bus.replies), bus.replies, ErrorCodeRegister, code.Code(), r)
      ensures Extends(old(bus.replies), bus.replies) && |bus.replies| - |bus.log| == old(|bus.replies| - |bus.log|)
      ensures Current() == if r == Ok(true) then old(Current()).(error := code) else old(Current())
      ensures selectedBatch == old(selectedBatch) && history == old(history)
      ensures bus.unsent == old(bus.unsent) + if r.Err? && bus.log == old(bus.log) then 1 else 0
    {
      r := bus.WriteHoldingRegister(ErrorCodeRegister, code.Code());
      if r == Ok(true) {
        errorCode := code;
      }
    }

    /** `clear_error`. */
    method ClearError() returns (r: Result<bool, Thrown>)
      modifies this, bus
      ensures Wrote(old(bus.log), bus.log, old(bus.replies), bus.replies, ErrorCodeRegister, 0, r)
      ensures Extends(old(bus.replies), bus.replies) && |bus.replies| - |bus.log| == old(|bus.replies| - |bus.log|)
      ensures Current() == if r == Ok(true) then old(Current()).(error := NoError) else old(Current())
      ensures selectedBatch == old(selectedBatch) && history == old(history)
      ensures bus.unsent == old(bus.unsent) + if r.Err? && bus.log == old(bus.log) then 1 else 0
    {
      r := SetErrorCode(NoError);
    }

    /** `reset_trigger`: write IDLE to the trigger register. */
    method ResetTrigger() returns (r: Result<bool, Thrown>)
      modifies this, bus
      ensures Wrote(old(bus.log), bus.log, old(bus.replies), bus.replies, TriggerRegister, 0, r)
      ensures Extends(old(bus.replies), bus.replies) && |bus.replies| - |bus.log| == old(|bus.replies| - |bus.log|)
      ensures Current() == if r == Ok(true) then old(Current()).(trigger := TriggerIdle) else old(Current())
      ensures selectedBatch == old(selectedBatch) && history == old(history)
      ensures bus.unsent == old(bus.unsent) + if r.Err? && bus.log == old(bus.log) then 1 else 0
    {
      r := bus.WriteHoldingRegister(TriggerRegister, TriggerIdle.Code());
      if r == Ok(true) {
        trigger := TriggerIdle;
      }
    }

    /** `get_current_trigger`: a fresh read of register 1; an unknown value
        raises ValueError and leaves the mirror alone. `word` is the value
        the controller answered, once the read went through. */
    method GetCurrentTrigger() returns (r: Result<TriggerState, Thrown>, ghost word: int)
      modifies this, bus
      ensures r.Ok? ==> Current() == old(Current()).(trigger := r.value)
      ensures r.Err? ==> Current() == old(Current())
                         && (BusError(r.error) || (r.error.Foreign? && r.error.typeName == "ValueError"))
      ensures r.Ok? || !BusError(r.error) ==>
                bus.log == old(bus.log) + [ReadOp(TriggerRegister, 1)] && bus.replies == old(bus.replies) + [Words([word])]
                && (r.Ok? <==> TriggerFromCode(word).Some?)
                && (r.Ok? ==> r.value.Code() == word)
                && (r.Err? ==> r.error == NotValid(word, "TriggerStates"))
      ensures r.Err? && BusError(r.error) ==>
                (bus.log == old(bus.log) && bus.replies == old(bus.replies))
                || (bus.log == old(bus.log) + [ReadOp(TriggerRegister, 1)] && bus.replies == old(bus.replies) + [Raised(r.error)])
      ensures selectedBatch == old(selectedBatch) && history == old(history)
    {
      word := 0;
      var answer := bus.ReadHoldingRegister(TriggerRegister);
      if answer.Err? {
        return Err(answer.error), word;
      }
      word := answer.value;
      var t := TriggerFromCode(answer.value);
      if t.None? {
        return Err(NotValid(answer.value, "TriggerStates")), word;
      }
      trigger := t.value;
      r := Ok(t.value);
    }

    /** `get_selected_batch`: a fresh read of register 7, returned as read. */
    method GetSelectedBatch() returns (r: Result<Word, Thrown>)
      modifies this, bus
      ensures Read(old(bus.log), bus.log, old(bus.replies), bus.replies, SelectedBatchRegister, r)
      ensures Extends(old(bus.replies), bus.replies) && |bus.replies| - |bus.log| == old(|bus.replies| - |bus.log|)
      ensures selectedBatch == if r.Ok? then r.value else old(selectedBatch)
      ensures Current() == old(Current()) && history == old(history)
    {
      r := bus.ReadHoldingRegister(SelectedBatchRegister);
      if r.Ok? {
        selectedBatch := r.value;
      }
    }

    /** `transition_to_state`: refuses, without writing, a transition the table
        does not allow unless forced. */
    method TransitionToState(newState: ProcessingState, force: bool) returns (r: Result<bool, Thrown>)
      modifies this, bus
      ensures !force && !ValidateStateTransition(old(processing), newState) ==>
                r.Err? && IsInstance(r.error, State) && bus.log == old(bus.log) && bus.replies == old(bus.replies)
                && Current() == old(Current())
      ensures force || ValidateStateTransition(old(processing), newState) ==>
                Wrote(old(bus.log), bus.log, old(bus.replies), bus.replies, RaspPiStatusRegister, newState.Code(), r)
                && Current() == if r == Ok(true) then old(Current()).(processing := newState) else old(Current())
      ensures selectedBatch == old(selectedBatch) && history == old(history)
    {
      if !force && !ValidateStateTransition(processing, newState) {
        var current := NatToDecimal(processing.Code());
        var target := NatToDecimal(newState.Code());
        return Err(Raise("Invalid state transition: " + current + " -> " + target,
                         StateCtx(Some(current), Some("transition_to_" + target)), NoKwargs));
      }
      r := SetProcessingStatus(newState);
    }

    /** `is_system_ready`: a ready system may start either operation. */
    predicate IsSystemReady()
      reads this
      ensures IsSystemReady() ==> ValidateStateTransition(processing, Downloading)
                                  && ValidateStateTransition(processing, SendingToZanasi)
    {
      processing == ProcIdle && errorCode == NoError && trigger == TriggerIdle
    }

    /** `is_error_state`: an error state is never a ready one. */
    predicate IsErrorState()
      reads this
      ensures IsErrorState() ==> !IsSystemReady()
    {
      processing == ProcError || errorCode != NoError
    }

    /** `reset_system_state`: the four resets in order, each run only if the one
        before it returned; the result is the conjunction of what they returned,
        or false as soon as one raises: it is true exactly when the controller
        accepted all four writes. */
    method ResetSystemState() returns (success: bool)
      modifies this, bus
      ensures SentPrefix(old(bus.log), bus.log, ResetOps)
      ensures success <==> bus.log == old(bus.log) + ResetOps && bus.replies == old(bus.replies) + AllAccepted
      ensures success ==> IsSystemReady() && plc == PlcIdle
      ensures |bus.replies| - |bus.log| == old(|bus.replies| - |bus.log|)
      ensures !success ==> processing == old(processing) || processing == ProcIdle
      ensures selectedBatch == old(selectedBatch) && history == old(history)
      ensures AnsweredWrites(old(bus.replies), bus.replies)
      ensures |bus.log| - |old(bus.log)| < |ResetOps| ==> StoppedByRaise(old(bus.unsent), bus.unsent, old(bus.replies), bus.replies)
    {
      ghost var start, answered := bus.log, bus.replies;
      var r1 := ResetTrigger();
      if r1.Err? {
        assert bus.log == start + ResetOps[..0] || bus.log == start + ResetOps[..1];
        return false;
      }
      ghost var mid := bus.log;
      var rest := ResetStatusRegisters();
      SentPrefixJoin(start, mid, bus.log, ResetOps[0], IdleOps);
      assert start + ResetOps == mid + IdleOps;
      assert answered + AllAccepted == answered + [Accepted(true)] + ThreeAccepted;
      if !r1.value {
        assert bus.replies[|answered|] == Accepted(false);
      }
      success := r1.value && rest;
    }

    /** The three writes of `reset_system_state` after the trigger reset, each
        run only if the one before it returned: true exactly when the
        controller accepted all three. */
    method ResetStatusRegisters() returns (success: bool)
      modifies this, bus
      ensures SentPrefix(old(bus.log), bus.log, IdleOps)
      ensures success <==> bus.log == old(bus.log) + IdleOps && bus.replies == old(bus.replies) + ThreeAccepted
      ensures success ==> processing == ProcIdle && plc == PlcIdle && errorCode == NoError
      ensures !success ==> processing == old(processing) || processing == ProcIdle
      ensures trigger == old(trigger) && selectedBatch == old(selectedBatch) && history == old(history)
      ensures Extends(old(bus.replies), bus.replies) && |bus.replies| - |bus.log| == old(|bus.replies| - |bus.log|)
      ensures AnsweredWrites(old(bus.replies), bus.replies)
      ensures |bus.log| - |old(bus.log)| < |IdleOps| ==> StoppedByRaise(old(bus.unsent), bus.unsent, old(bus.replies), bus.replies)
    {
      ghost var start, answered := bus.log, bus.replies;
      var r2 := SetProcessingStatus(ProcIdle);
      if r2.Err? {
        assert bus.log == start + IdleOps[..0] || bus.log == start + IdleOps[..1];
        return false;
      }
      var r3 := SetPlcStatus(PlcIdle);
      if r3.Err? {
        assert bus.log == start + IdleOps[..1] || bus.log == start + IdleOps[..2];
        return false;
      }
      ghost var before := bus.replies;
      var r4 := ClearError();
      if r4.Err? {
        assert bus.log == start + IdleOps[..2] || bus.log == start + IdleOps;
        assert bus.replies == before || bus.replies[|bus.replies| - 1] == Raised(r4.error);
        return false;
      }
      assert bus.log == start + IdleOps;
      assert bus.replies == answered + [Accepted(r2.value), Accepted(r3.value), Accepted(r4.value)];
      success := r2.value && r3.value && r4.value;
      assert success <==> [Accepted(r2.value), Accepted(r3.value), Accepted(r4.value)] == ThreeAccepted;
      assert (answered + ThreeAccepted)[|answered|..] == ThreeAccepted;
      assert bus.replies[|answered|..] == [Accepted(r2.value), Accepted(r3.value), Accepted(r4.value)];
    }
  }
}
