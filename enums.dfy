/** The numeric encodings of the controller's state registers, the register
    map constants and the batch validation rules (core/enums.py). */
module Enums {
  import opened Base
  import opened Values

  /** Register 1: what the controller asks for. */
  datatype TriggerState = TriggerIdle | DownloadBatch | LoadToZanasi
  {
    function Code(): nat
    {
      match this
      case TriggerIdle => 0
      case DownloadBatch => 1
      case LoadToZanasi => 2
    }
  }

  function TriggerFromCode(n: int): (r: Option<TriggerState>)
    ensures r.Some? <==> 0 <= n <= 2
    ensures r.Some? ==> r.value.Code() == n
  {
    if n == 0 then Some(TriggerIdle)
    else if n == 1 then Some(DownloadBatch)
    else if n == 2 then Some(LoadToZanasi)
    else None
  }

  /** Register 2: what this bridge is doing. ERROR is 9, not 6. */
  datatype ProcessingState =
    | ProcIdle | Downloading | ProcessingData | ReadyToSend | SendingToZanasi | Complete | ProcError
  {
    function Code(): nat
    {
      match this
      case ProcIdle => 0
      case Downloading => 1
      case ProcessingData => 2
      case ReadyToSend => 3
      case SendingToZanasi => 4
      case Complete => 5
      case ProcError => 9
    }
  }

  function ProcessingFromCode(n: int): (r: Option<ProcessingState>)
    ensures r.Some? <==> (0 <= n <= 5 || n == 9)
    ensures r.Some? ==> r.value.Code() == n
  {
    if n == 0 then Some(ProcIdle)
    else if n == 1 then Some(Downloading)
    else if n == 2 then Some(ProcessingData)
    else if n == 3 then Some(ReadyToSend)
    else if n == 4 then Some(SendingToZanasi)
    else if n == 5 then Some(Complete)
    else if n == 9 then Some(ProcError)
    else None
  }

  /** Register 3: the controller's own state, as this bridge reports it. */
  datatype PlcState =
    | PlcIdle | TriggeringDownload | WaitingForData | DataReceived | Displaying | ReadyToLoad
  {
    function Code(): nat
    {
      match this
      case PlcIdle => 0
      case TriggeringDownload => 1
      case WaitingForData => 2
      case DataReceived => 3
      case Displaying => 4
      case ReadyToLoad => 5
    }
  }

  function PlcFromCode(n: int): (r: Option<PlcState>)
    ensures r.Some? <==> 0 <= n <= 5
    ensures r.Some? ==> r.value.Code() == n
  {
    if n == 0 then Some(PlcIdle)
    else if n == 1 then Some(TriggeringDownload)
    else if n == 2 then Some(WaitingForData)
    else if n == 3 then Some(DataReceived)
    else if n == 4 then Some(Displaying)
    else if n == 5 then Some(ReadyToLoad)
    else None
  }

  /** The status word of one batch slot. */
  datatype BatchState = Queued | NextInQueue | CurrentPrinting | LastPrinted | Printed
  {
    function Code(): nat
    {
      match this
      case Queued => 0
      case NextInQueue => 1
      case CurrentPrinting => 2
      case LastPrinted => 3
      case Printed => 4
    }
  }

  function BatchStateFromCode(n: int): (r: Option<BatchState>)
    ensures r.Some? <==> 0 <= n <= 4
    ensures r.Some? ==> r.value.Code() == n
  {
    if n == 0 then Some(Queued)
    else if n == 1 then Some(NextInQueue)
    else if n == 2 then Some(CurrentPrinting)
    else if n == 3 then Some(LastPrinted)
    else if n == 4 then Some(Printed)
    else None
  }

  /** Register 5. */
  datatype ErrorCode = NoError | FirebaseFail | ZanasiCommFail | DataFormatError
  {
    function Code(): nat
    {
      match this
      case NoError => 0
      case FirebaseFail => 1
      case ZanasiCommFail => 2
      case DataFormatError => 3
    }
  }

  function ErrorFromCode(n: int): (r: Option<ErrorCode>)
    ensures r.Some? <==> 0 <= n <= 3
    ensures r.Some? ==> r.value.Code() == n
  {
    if n == 0 then Some(NoError)
    else if n == 1 then Some(FirebaseFail)
    else if n == 2 then Some(ZanasiCommFail)
    else if n == 3 then Some(DataFormatError)
    else None
  }

  /** Register 4. */
  datatype ZanasiStatus = Disconnected | Connected | Sending | Success | Failed
  {
    function Code(): nat
    {
      match this
      case Disconnected => 0
      case Connected => 1
      case Sending => 2
      case Success => 3
      case Failed => 4
    }
  }

  function ZanasiStatusFromCode(n: int): (r: Option<ZanasiStatus>)
    ensures r.Some? <==> 0 <= n <= 4
    ensures r.Some? ==> r.value.Code() == n
  {
    if n == 0 then Some(Disconnected)
    else if n == 1 then Some(Connected)
    else if n == 2 then Some(Sending)
    else if n == 3 then Some(Success)
    else if n == 4 then Some(Failed)
    else None
  }

  /** Every state register value decodes back to the member that wrote it. */
  lemma CodesRoundTrip(t: TriggerState, p: ProcessingState, l: PlcState, b: BatchState,
                       e: ErrorCode, z: ZanasiStatus)
    ensures TriggerFromCode(t.Code()) == Some(t)
    ensures ProcessingFromCode(p.Code()) == Some(p)
    ensures PlcFromCode(l.Code()) == Some(l)
    ensures BatchStateFromCode(b.Code()) == Some(b)
    ensures ErrorFromCode(e.Code()) == Some(e)
    ensures ZanasiStatusFromCode(z.Code()) == Some(z)
  {
  }

  /** The parts of the system an error can be attributed to. */
  datatype Component =
    | ModbusClient | FirebaseClient | ZanasiClient | BatchManager | StatusManager | DataParser | MainProcessor
  {
    function Text(): string
    {
      match this
      case ModbusClient => "modbus_client"
      case FirebaseClient => "firebase_client"
      case ZanasiClient => "zanasi_client"
      case BatchManager => "batch_manager"
      case StatusManager => "status_manager"
      case DataParser => "data_parser"
      case MainProcessor => "main_processor"
    }
  }

  /** The argument of `validate_enum_value`: a member already, or a raw value. */
  datatype EnumArg<E> = Member(m: E) | Raw(v: Value)

  /** Why `validate_enum_value` raised ValueError. */
  datatype EnumError = InvalidEnumValue(v: Value)

  /** What `EnumClass(v)` looks up for an IntEnum: an int, or a bool as 0/1;
      anything else finds no member. */
  function EnumLookupKey(v: Value): Option<int>
  {
    match v
    case VInt(i) => Some(i)
    case VBool(b) => Some(if b then 1 else 0)
    case _ => None
  }

  /** `validate_enum_value(enum_class, value, default)`, the enum class being
      given by its decoding function. */
  function ValidateEnumValue<E>(decode: int -> Option<E>, arg: EnumArg<E>, default: Option<E>)
    : (r: Result<E, EnumError>)
    ensures arg.Member? ==> r == Ok(arg.m)
    ensures arg.Raw? && EnumLookupKey(arg.v).Some? && decode(EnumLookupKey(arg.v).value).Some?
            ==> r == Ok(decode(EnumLookupKey(arg.v).value).value)
    ensures r.Err? <==> arg.Raw? && default.None?
                        && (EnumLookupKey(arg.v).None? || decode(EnumLookupKey(arg.v).value).None?)
    ensures r.Ok? && arg.Raw? && (EnumLookupKey(arg.v).None? || decode(EnumLookupKey(arg.v).value).None?)
            ==> default == Some(r.value)
  {
    match arg
    case Member(m) => Ok(m)
    case Raw(v) =>
      var found := match EnumLookupKey(v)
        case Some(k) => decode(k)
        case None => None;
      if found.Some? then Ok(found.value)
      else if default.Some? then Ok(default.value)
      else Err(InvalidEnumValue(v))
  }

  /** Validating a register's own code yields the member it encodes. */
  lemma ValidateTriggerCode(t: TriggerState)
    ensures ValidateEnumValue(TriggerFromCode, Raw(VInt(t.Code())), None) == Ok(t)
  {
  }

  // Control and status registers (1-based register numbers).
  const TriggerRegister: nat := 1
  const RaspPiStatusRegister: nat := 2
  const PlcStatusRegister: nat := 3
  const ZanasiStatusRegister: nat := 4
  const ErrorCodeRegister: nat := 5
  const SelectedBatchRegister: nat := 7

  // Batch data configuration.
  const BatchStartRegister: nat := 10
  const RegistersPerBatch: nat := 20
  const NumBatches: nat := 5
  const TotalRegisters: nat := 120

  // String limits, in characters.
  const MaxBatchCodeLength: nat := 5
  const MaxDryerCodeLength: nat := 5
  const MaxDateLength: nat := 10

  // Word offsets within a batch slot, and how many words each field gets.
  const BatchIndexOffset: nat := 0
  const BatchStatusOffset: nat := 1
  const BatchCountOffset: nat := 2
  const BatchCodeOffset: nat := 3
  const DryerCodeOffset: nat := 6
  const ProdDateOffset: nat := 9
  const ExpDateOffset: nat := 15
  const SlotOffsets: seq<nat> := [BatchIndexOffset, BatchStatusOffset, BatchCountOffset,
                                  BatchCodeOffset, DryerCodeOffset, ProdDateOffset, ExpDateOffset]
  const SlotWidths: seq<nat> := [1, 1, 1, 3, 3, 6, 5]

  /** The seven fields of a slot sit back to back and fill it exactly, and
      the five slots fit in the register image. */
  lemma SlotLayoutTiles()
    ensures |SlotOffsets| == |SlotWidths| == 7
    ensures SlotOffsets[0] == 0
    ensures forall k :: 0 <= k < 6 ==> SlotOffsets[k] + SlotWidths[k] == SlotOffsets[k + 1]
    ensures SlotOffsets[6] + SlotWidths[6] == RegistersPerBatch
    ensures BatchStartRegister + NumBatches * RegistersPerBatch - 1 == 109 < TotalRegisters
  {
  }

  // Validation rules.
  const MinBatchIndex: int := 1001
  const MaxBatchIndex: int := 99999
  const MinPrintCount: int := 0
  const MaxPrintCount: int := 65535

  const ModifiableStates: set<BatchState> := {Queued, NextInQueue}
  const ReadonlyStates: set<BatchState> := {CurrentPrinting, LastPrinted, Printed}

  /** `is_batch_modifiable`: only batches not yet printing may change. */
  function IsBatchModifiable(s: BatchState): (r: bool)
    ensures r <==> s.Code() <= 1
  {
    s in ModifiableStates
  }

  /** The modifiable and read-only states split the batch states in two. */
  lemma BatchStatesPartition(s: BatchState)
    ensures s in ModifiableStates <==> s !in ReadonlyStates
  {
  }

  predicate ValidBatchIndex(i: int) { MinBatchIndex <= i <= MaxBatchIndex }

  predicate ValidPrintCount(c: int) { MinPrintCount <= c <= MaxPrintCount }
}
