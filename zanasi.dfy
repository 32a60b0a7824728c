/** Printer command construction and the outcome logic of the two printhead
    clients (communication/zanasi_client.py): `external_field` commands and
    their index bounds, command validity, the checks made before a send, the
    retry loop over an abstract network, the rule that a batch is sent only
    when both printheads take it, and the protocol helper's field checks and
    string escaping. */
module Zanasi {
  import opened Base
  import opened Values
  import Exceptions

  /** What the builders and the clients raise, one constructor per message. */
  datatype ZanasiError =
    | FieldIndexOutOfRange(fieldType: string, index: int)
    | InvalidFieldType(fieldType: string)
    | NoCommandsProvided(printhead: nat)
    | InvalidCommand(printhead: nat, position: nat, command: string)
    | RetryExhausted(printhead: nat, maxAttempts: nat, lastError: Option<AttemptFailure>)
    | InvalidPrintheadNumber(number: int)
  {
    /** The exception class raised: RetryExhaustedException for exhausted
        retries, ZanasiException for everything else. */
    function Kind(): Exceptions.Kind
    {
      if RetryExhausted? then Exceptions.RetryExhausted else Exceptions.Zanasi
    }
  }

  /** Why one connection attempt failed: the connection itself, or the
      sending of the command with the given 1-based number. */
  datatype AttemptFailure = ConnectFailed | SendFailed(commandNumber: nat, command: string)

  // ---------------------------------------------------------------------------
  // ZanasiCommand.build_external_field_command

  /** The highest field index each field type accepts; None for an unknown type. */
  function MaxFieldIndex(fieldType: string): Option<nat>
  {
    if fieldType == "string" then Some(19)
    else if fieldType == "bitmap" then Some(4)
    else if fieldType == "table" then Some(9)
    else None
  }

  /** The text of a command; only string values are put in double quotes. */
  function CommandText(fieldType: string, index: nat, value: string): string
  {
    "external_field " + fieldType + " " + NatToDecimal(index) + " "
      + (if fieldType == "string" then "\"" + value + "\"" else value)
  }

  /** `build_external_field_command(field_index, field_type, value)`. */
  function BuildExternalFieldCommand(index: int, fieldType: string, value: string): (r: Result<string, ZanasiError>)
    ensures r.Err? <==> MaxFieldIndex(fieldType).None? || !(0 <= index <= MaxFieldIndex(fieldType).value)
    ensures r.Err? ==> r.error.Kind() == Exceptions.Zanasi
  {
    if fieldType == "string" then
      if !(0 <= index <= 19) then Err(FieldIndexOutOfRange(fieldType, index))
      else Ok(CommandText(fieldType, index, value))
    else if fieldType == "bitmap" then
      if !(0 <= index <= 4) then Err(FieldIndexOutOfRange(fieldType, index))
      else Ok(CommandText(fieldType, index, value))
    else if fieldType == "table" then
      if !(0 <= index <= 9) then Err(FieldIndexOutOfRange(fieldType, index))
      else Ok(CommandText(fieldType, index, value))
    else Err(InvalidFieldType(fieldType))
  }

  /** A command as the printhead reads it back. */
  datatype FieldCommand = FieldCommand(fieldType: string, index: nat, value: string)

  /** The text before the first space and the text after it, if there is a space. */
  function SplitWord(s: string): Option<(string, string)>
  {
    var i := FirstFailure(s, c => c != ' ');
    if i == |s| then None else Some((s[..i], s[i + 1..]))
  }

  const CommandWord := "external_field "

  /** The digits of a decimal index, nothing else. */
  predicate AllDigits(s: string)
  {
    s != [] && forall i :: 0 <= i < |s| ==> IsDigit(s[i])
  }

  /** The last step of reading a command back: the index and the value,
      which must be quoted for a string field. */
  function ReadFields(fieldType: string, digits: string, text: string): Option<FieldCommand>
  {
    if !AllDigits(digits) then None
    else if fieldType != "string" then Some(FieldCommand(fieldType, DecimalValue(digits), text))
    else if |text| < 2 || text[0] != '"' || text[|text| - 1] != '"' then None
    else Some(FieldCommand(fieldType, DecimalValue(digits), text[1..|text| - 1]))
  }

  /** Reads a command back: the command word, the field type, the decimal
      index, then the value, quoted for string fields. */
  function ParseExternalField(cmd: string): Option<FieldCommand>
  {
    if |cmd| < |CommandWord| || cmd[..|CommandWord|] != CommandWord then None
    else match SplitWord(cmd[|CommandWord|..])
      case None => None
      case Some((fieldType, rest)) =>
        match SplitWord(rest)
        case None => None
        case Some((digits, text)) => ReadFields(fieldType, digits, text)
  }

  lemma SplitWordAt(a: string, b: string)
    requires ' ' !in a
    ensures SplitWord(a + " " + b) == Some((a, b))
  {
    var s := a + " " + b;
    var i := FirstFailure(s, c => c != ' ');
    assert s[|a|] == ' ';
    assert forall j :: 0 <= j < |a| ==> s[j] == a[j];
    assert i == |a|;
    assert s[..i] == a;
    assert s[i + 1..] == b;
  }

  lemma CommandTextParts(fieldType: string, index: nat, value: string)
    ensures CommandText(fieldType, index, value)
         == CommandWord + (fieldType + " " + (NatToDecimal(index) + " "
              + (if fieldType == "string" then "\"" + value + "\"" else value)))
  {
  }

  /** A command made of a field type and an index without spaces splits at
      its first two spaces. */
  lemma ParseParts(fieldType: string, digits: string, text: string)
    requires ' ' !in fieldType && ' ' !in digits
    ensures ParseExternalField(CommandWord + (fieldType + " " + (digits + " " + text)))
         == ReadFields(fieldType, digits, text)
  {
    var cmd := CommandWord + (fieldType + " " + (digits + " " + text));
    assert cmd[..|CommandWord|] == CommandWord;
    assert cmd[|CommandWord|..] == fieldType + " " + (digits + " " + text);
    SplitWordAt(fieldType, digits + " " + text);
    SplitWordAt(digits, text);
  }

  /** Every command the builder accepts reads back as the field type, index
      and value it was built from. */
  lemma BuildThenParse(index: int, fieldType: string, value: string)
    requires BuildExternalFieldCommand(index, fieldType, value).Ok?
    ensures ParseExternalField(BuildExternalFieldCommand(index, fieldType, value).value)
         == Some(FieldCommand(fieldType, index, value))
  {
    var n: nat := index;
    var digits := NatToDecimal(n);
    var quoted := if fieldType == "string" then "\"" + value + "\"" else value;
    CommandTextParts(fieldType, n, value);
    assert ' ' !in fieldType by {
      assert fieldType == "string" || fieldType == "bitmap" || fieldType == "table";
    }
    assert ' ' !in digits;
    ParseParts(fieldType, digits, quoted);
    DecimalValueOfDecimal(n);
    if fieldType == "string" {
      assert quoted[1..|quoted| - 1] == value;
    }
  }

  // ---------------------------------------------------------------------------
  // ZanasiCommand.build_batch_commands

  /** The batch fields sent as string fields 0..3, in this order. */
  const BatchCommandFields: seq<string> := ["batchCode", "dryerCode", "productionDate", "expiryDate"]

  /** `str(batch_data.get(f, ''))`: the text a field puts in its command. */
  function FieldText(d: Record, f: string): string
  {
    ToStr(Get(d, f, VStr("")))
  }

  /** `build_batch_commands(batch_data)`. */
  function BuildBatchCommands(d: Record): (cmds: seq<string>)
    ensures |cmds| == 4
  {
    seq(4, k requires 0 <= k < 4 => CommandText("string", k, FieldText(d, BatchCommandFields[k])))
  }

  /** The k-th batch command is the string command for field k, and it reads
      back as string field k holding that field's text. */
  lemma BatchCommandsSpec(d: Record, k: nat)
    requires k < 4
    ensures BuildExternalFieldCommand(k, "string", FieldText(d, BatchCommandFields[k]))
         == Ok(BuildBatchCommands(d)[k])
    ensures ParseExternalField(BuildBatchCommands(d)[k])
         == Some(FieldCommand("string", k, FieldText(d, BatchCommandFields[k])))
  {
    BuildThenParse(k, "string", FieldText(d, BatchCommandFields[k]));
  }

  // ---------------------------------------------------------------------------
  // ZanasiCommand.validate_command

  /** `validate_command(command)`: non-empty, not only whitespace, and free
      of NUL and CR; a line feed is allowed. */
  function ValidateCommand(command: string): (ok: bool)
    ensures ok <==> !AllSpace(command) && '\0' !in command && '\r' !in command
  {
    if command == [] then false
    else if |Strip(command)| == 0 then false
    else if '\0' in command || '\r' in command then false
    else true
  }

  /** What a command puts before its value: free of NUL and CR, and not blank. */
  lemma CommandHead(fieldType: string, index: nat, value: string)
    requires MaxFieldIndex(fieldType).Some?
    ensures var quoted := if fieldType == "string" then "\"" + value + "\"" else value;
            var head := CommandWord + fieldType + " " + NatToDecimal(index) + " ";
            CommandText(fieldType, index, value) == head + quoted
            && head[0] == 'e' && '\0' !in head && '\r' !in head
  {
    assert fieldType == "string" || fieldType == "bitmap" || fieldType == "table";
  }

  /** A built command is valid exactly when its value holds no NUL and no CR. */
  lemma BuiltCommandValid(index: int, fieldType: string, value: string)
    requires BuildExternalFieldCommand(index, fieldType, value).Ok?
    ensures ValidateCommand(BuildExternalFieldCommand(index, fieldType, value).value)
        <==> '\0' !in value && '\r' !in value
  {
    var n: nat := index;
    var cmd := CommandText(fieldType, n, value);
    var quoted := if fieldType == "string" then "\"" + value + "\"" else value;
    var head := CommandWord + fieldType + " " + NatToDecimal(n) + " ";
    CommandHead(fieldType, n, value);
    assert cmd == head + quoted;
    assert !IsSpace(cmd[0]);
    assert ('\0' in cmd <==> '\0' in quoted) && ('\r' in cmd <==> '\r' in quoted);
    assert ('\0' in quoted <==> '\0' in value) && ('\r' in quoted <==> '\r' in value);
  }

  // ---------------------------------------------------------------------------
  // ZanasiPrintheadClient.send_commands: the checks made before any connection

  /** What `send_commands` raises before it opens a connection, if anything. */
  function SendPrecheck(printhead: nat, commands: seq<string>): (r: Option<ZanasiError>)
    ensures r == None <==> commands != [] && forall i :: 0 <= i < |commands| ==> ValidateCommand(commands[i])
  {
    if commands == [] then Some(NoCommandsProvided(printhead))
    else
      var i := FirstFailure(commands, ValidateCommand);
      if i < |commands| then Some(InvalidCommand(printhead, i, commands[i])) else None
  }

  /** The first invalid command is the one reported. */
  lemma PrecheckNamesFirstInvalid(printhead: nat, commands: seq<string>, i: nat)
    requires i < |commands| && !ValidateCommand(commands[i])
    requires forall j :: 0 <= j < i ==> ValidateCommand(commands[j])
    ensures SendPrecheck(printhead, commands) == Some(InvalidCommand(printhead, i, commands[i]))
  {
    var k := FirstFailure(commands, ValidateCommand);
    assert k == i;
  }

  /** The loop `for i, command in enumerate(commands)` of `send_commands`. */
  method CheckCommands(printhead: nat, commands: seq<string>) returns (failure: Option<ZanasiError>)
    ensures failure == SendPrecheck(printhead, commands)
  {
    if |commands| == 0 {
      return Some(NoCommandsProvided(printhead));
    }
    for i := 0 to |commands|
      invariant forall j :: 0 <= j < i ==> ValidateCommand(commands[j])
    {
      if !ValidateCommand(commands[i]) {
        PrecheckNamesFirstInvalid(printhead, commands, i);
        return Some(InvalidCommand(printhead, i, commands[i]));
      }
    }
    return None;
  }

  /** The text fields of a batch hold no NUL and no CR. */
  predicate BatchTextsSendable(d: Record)
  {
    forall k :: 0 <= k < 4 ==> '\0' !in FieldText(d, BatchCommandFields[k]) && '\r' !in FieldText(d, BatchCommandFields[k])
  }

  /** A batch's commands pass the checks exactly when its four texts hold no NUL and no CR. */
  lemma BatchCommandsPass(printhead: nat, d: Record)
    ensures SendPrecheck(printhead, BuildBatchCommands(d)) == None <==> BatchTextsSendable(d)
  {
    var cmds := BuildBatchCommands(d);
    forall k | 0 <= k < 4
      ensures ValidateCommand(cmds[k])
          <==> '\0' !in FieldText(d, BatchCommandFields[k]) && '\r' !in FieldText(d, BatchCommandFields[k])
    {
      BatchCommandsSpec(d, k);
      BuiltCommandValid(k, "string", FieldText(d, BatchCommandFields[k]));
    }
  }

  // ---------------------------------------------------------------------------
  // ZanasiPrintheadClient

  /** The arithmetic of the retry loop's bounds. */
  lemma MoreAttemptsBound(attempt: nat, attempts: nat, n: nat)
    requires attempt < attempts
    ensures (attempt + 1) * n == attempt * n + n
    ensures (attempt + 1) * n <= attempts * n
  {
  }

  /** One call of `send_commands` and how it ended. */
  datatype SendRecord = SendRecord(commands: seq<string>, outcome: Result<bool, ZanasiError>)

  /** One printhead. The network is abstract: each connection and each
      command sent may fail, independently, on every attempt. `history` is
      the model's record of the calls made, in order; it is not a field of
      the original client. */
  class PrintheadClient {
    const number: nat
    const retryAttempts: nat
    var connectionCount: nat
    var commandCount: nat
    var lastError: Option<AttemptFailure>
    var history: seq<SendRecord>

    constructor (number: nat, retryAttempts: nat)
      ensures this.number == number && this.retryAttempts == retryAttempts
      ensures connectionCount == 0 && commandCount == 0 && lastError == None && history == []
    {
      this.number := number;
      this.retryAttempts := retryAttempts;
      connectionCount := 0;
      commandCount := 0;
      lastError := None;
      history := [];
    }

    /** `send_commands(commands)`: the checks, then up to `retryAttempts`
        connection attempts, each sending every command in turn. */
    method SendCommands(commands: seq<string>) returns (r: Result<bool, ZanasiError>)
      modifies this
      ensures history == old(history) + [SendRecord(commands, r)]
      ensures SendPrecheck(number, commands).Some? ==>
                r == Err(SendPrecheck(number, commands).value)
                && connectionCount == old(connectionCount) && commandCount == old(commandCount)
                && lastError == old(lastError)
      ensures SendPrecheck(number, commands).None? ==>
                r == Ok(true) || r == Err(RetryExhausted(number, retryAttempts, lastError))
      ensures r.Ok? ==> r.value && lastError == None
      ensures r.Ok? ==> connectionCount > old(connectionCount) && commandCount >= old(commandCount) + |commands|
      ensures connectionCount <= old(connectionCount) + retryAttempts
      ensures commandCount <= old(commandCount) + retryAttempts * |commands|
      ensures retryAttempts == 0 ==> r.Err?
    {
      var failure := CheckCommands(number, commands);
      if failure.Some? {
        if 0 < retryAttempts {
          MoreAttemptsBound(0, retryAttempts, |commands|);
        }
        r := Err(failure.value);
      } else {
        r := Transmit(commands);
      }
      history := history + [SendRecord(commands, r)];
    }

    /** The retry loop of `send_commands`, once the checks have passed. */
    method Transmit(commands: seq<string>) returns (r: Result<bool, ZanasiError>)
      modifies this
      ensures history == old(history)
      ensures r == Ok(true) || r == Err(RetryExhausted(number, retryAttempts, lastError))
      ensures r.Ok? ==> lastError == None
      ensures r.Ok? ==> connectionCount > old(connectionCount) && commandCount >= old(commandCount) + |commands|
      ensures old(connectionCount) <= connectionCount <= old(connectionCount) + retryAttempts
      ensures commandCount <= old(commandCount) + retryAttempts * |commands|
      ensures retryAttempts == 0 ==> r.Err?
    {
      var attempt := 0;
      while attempt < retryAttempts
        invariant attempt <= retryAttempts
        invariant old(connectionCount) <= connectionCount <= old(connectionCount) + attempt
        invariant old(commandCount) <= commandCount
        invariant commandCount <= old(commandCount) + attempt * |commands|
        invariant history == old(history)
      {
        var delivered := AttemptSend(commands);
        MoreAttemptsBound(attempt, retryAttempts, |commands|);
        if delivered {
          lastError := None;
          return Ok(true);
        }
        attempt := attempt + 1;
      }
      r := Err(RetryExhausted(number, retryAttempts, lastError));
    }

    /** One pass of the retry loop: connect, then send every command in
        turn; the first failure ends the attempt and is kept in `lastError`. */
    method AttemptSend(commands: seq<string>) returns (delivered: bool)
      modifies this
      ensures history == old(history)
      ensures old(connectionCount) <= connectionCount <= old(connectionCount) + 1
      ensures old(commandCount) <= commandCount <= old(commandCount) + |commands|
      ensures delivered ==> connectionCount == old(connectionCount) + 1
                            && commandCount == old(commandCount) + |commands| && lastError == old(lastError)
      ensures !delivered ==> lastError.Some?
    {
      var connected: bool :| true;
      if !connected {
        lastError := Some(ConnectFailed);
        return false;
      }
      connectionCount := connectionCount + 1;
      var i := 0;
      while i < |commands|
        invariant i <= |commands|
        invariant commandCount == old(commandCount) + i
        invariant connectionCount == old(connectionCount) + 1
        invariant lastError == old(lastError) && history == old(history)
      {
        var sent: bool :| true;
        if !sent {
          lastError := Some(SendFailed(i + 1, commands[i]));
          return false;
        }
        commandCount := commandCount + 1;
        i := i + 1;
      }
      return true;
    }

    /** `send_batch_data(batch_data)`. */
    method SendBatchData(batch: Record) returns (r: Result<bool, ZanasiError>)
      modifies this
      ensures history == old(history) + [SendRecord(BuildBatchCommands(batch), r)]
      ensures r.Ok? ==> r.value && BatchTextsSendable(batch)
      ensures !BatchTextsSendable(batch) ==>
                r.Err? && connectionCount == old(connectionCount) && commandCount == old(commandCount)
    {
      BatchCommandsPass(number, batch);
      r := SendCommands(BuildBatchCommands(batch));
    }
  }

  // ---------------------------------------------------------------------------
  // ZanasiClient

  /** `results['printheadN']`: whether the send went through, and what it raised. */
  datatype PrintheadResult = PrintheadResult(success: bool, error: Option<ZanasiError>)

  /** The `results` dict of `send_batch_to_both_printheads`. */
  datatype SendResults = SendResults(
    printhead1: PrintheadResult, printhead2: PrintheadResult, overallSuccess: bool, batchIndex: Value)

  /** How a send that returned (or raised) is entered in `results`. */
  function Reported(outcome: Result<bool, ZanasiError>): (p: PrintheadResult)
    ensures p.success <==> outcome.Ok?
    ensures p.error.Some? <==> outcome.Err?
  {
    match outcome
    case Ok(_) => PrintheadResult(true, None)
    case Err(e) => PrintheadResult(false, Some(e))
  }

  /** `after` is `before` with exactly one more call, made with `commands`. */
  predicate CalledOnceWith(before: seq<SendRecord>, after: seq<SendRecord>, commands: seq<string>)
  {
    |after| == |before| + 1 && after[..|before|] == before && after[|before|].commands == commands
  }

  class ZanasiClient {
    const printhead1: PrintheadClient
    const printhead2: PrintheadClient
    var operationCount: nat
    var lastBatchSent: Option<Record>

    /** Two distinct printhead clients, numbered 1 and 2. */
    predicate Valid()
    {
      printhead1 != printhead2 && printhead1.number == 1 && printhead2.number == 2
    }

    constructor (retryAttempts: nat)
      ensures Valid() && fresh(printhead1) && fresh(printhead2)
      ensures printhead1.history == [] && printhead2.history == []
      ensures operationCount == 0 && lastBatchSent == None
    {
      printhead1 := new PrintheadClient(1, retryAttempts);
      printhead2 := new PrintheadClient(2, retryAttempts);
      operationCount := 0;
      lastBatchSent := None;
    }

    /** `send_batch_to_both_printheads(batch_data)`: printhead 2 is tried
        whatever printhead 1 did, and the batch counts as sent only when both
        took it. */
    method SendBatchToBothPrintheads(batch: Record) returns (overall: bool, results: SendResults)
      requires Valid()
      modifies this, printhead1, printhead2
      ensures Valid()
      ensures CalledOnceWith(old(printhead1.history), printhead1.history, BuildBatchCommands(batch))
      ensures CalledOnceWith(old(printhead2.history), printhead2.history, BuildBatchCommands(batch))
      ensures results.printhead1 == Reported(printhead1.history[|printhead1.history| - 1].outcome)
      ensures results.printhead2 == Reported(printhead2.history[|printhead2.history| - 1].outcome)
      ensures overall == results.overallSuccess
      ensures overall <==> results.printhead1.success && results.printhead2.success
      ensures overall ==> BatchTextsSendable(batch)
      ensures results.batchIndex == Get(batch, "batchIndex", VNone)
      ensures operationCount == old(operationCount) + 1 && lastBatchSent == Some(batch)
    {
      var r1 := printhead1.SendBatchData(batch);
      var r2 := printhead2.SendBatchData(batch);
      results := SendResults(Reported(r1), Reported(r2), r1.Ok? && r2.Ok?, Get(batch, "batchIndex", VNone));
      overall := results.overallSuccess;
      operationCount := operationCount + 1;
      lastBatchSent := Some(batch);
    }

    /** `send_single_printhead(printhead_number, batch_data)`. */
    method SendSinglePrinthead(number: int, batch: Record) returns (r: Result<bool, ZanasiError>)
      requires Valid()
      modifies printhead1, printhead2
      ensures Valid()
      ensures number != 1 && number != 2 ==>
                r == Err(InvalidPrintheadNumber(number))
                && printhead1.history == old(printhead1.history) && printhead2.history == old(printhead2.history)
      ensures number == 1 ==>
                printhead1.history == old(printhead1.history) + [SendRecord(BuildBatchCommands(batch), r)]
                && printhead2.history == old(printhead2.history)
      ensures number == 2 ==>
                printhead2.history == old(printhead2.history) + [SendRecord(BuildBatchCommands(batch), r)]
                && printhead1.history == old(printhead1.history)
      ensures r.Ok? ==> r.value && BatchTextsSendable(batch)
    {
      if number == 1 {
        r := printhead1.SendBatchData(batch);
      } else if number == 2 {
        r := printhead2.SendBatchData(batch);
      } else {
        r := Err(InvalidPrintheadNumber(number));
      }
    }
  }

  // ---------------------------------------------------------------------------
  // ZanasiProtocolHelper.validate_batch_data

  /** The longest string a printhead field takes. */
  const MaxStringFieldLength: nat := 100

  /** What `validate_batch_data` reports, one constructor per message. */
  datatype TransmissionError =
    | MissingRequiredField(field: string)
    | NotAString(field: string)
    | TooLong(field: string, maxLength: nat, length: nat)

  /** The first loop's verdict on one field. */
  function PresenceProblem(d: Record, f: string): seq<TransmissionError>
  {
    if f !in d then [MissingRequiredField(f)]
    else if !d[f].VStr? then [NotAString(f)]
    else []
  }

  /** The second loop's verdict on one field, made on `str()` of any present value. */
  function LengthProblem(d: Record, f: string): seq<TransmissionError>
  {
    if f in d && |ToStr(d[f])| > MaxStringFieldLength then [TooLong(f, MaxStringFieldLength, |ToStr(d[f])|)]
    else []
  }

  /** Every problem `validate_batch_data` reports, in order. */
  function TransmissionErrors(d: Record): (errs: seq<TransmissionError>)
    ensures errs == [] ==> forall k :: 0 <= k < |BatchCommandFields| ==>
                             BatchCommandFields[k] in d && d[BatchCommandFields[k]].VStr?
  {
    FlatMap(BatchCommandFields, f => PresenceProblem(d, f))
      + FlatMap(BatchCommandFields, f => LengthProblem(d, f))
  }

  /** A field a printhead takes: a string of at most 100 characters. */
  predicate Transmittable(d: Record, f: string)
  {
    f in d && d[f].VStr? && |d[f].s| <= MaxStringFieldLength
  }

  /** One field raises no complaint exactly when it is transmittable. */
  lemma FieldProblems(d: Record, f: string)
    ensures Transmittable(d, f) <==> PresenceProblem(d, f) == [] && LengthProblem(d, f) == []
  {
  }

  /** Nothing is reported exactly when all four fields are transmittable. */
  lemma TransmissionErrorsSpec(d: Record)
    ensures TransmissionErrors(d) == [] <==> forall f :: f in BatchCommandFields ==> Transmittable(d, f)
  {
    forall f | f in BatchCommandFields
      ensures Transmittable(d, f) <==> PresenceProblem(d, f) == [] && LengthProblem(d, f) == []
    {
      FieldProblems(d, f);
    }
    assert forall f :: f in BatchCommandFields <==> exists k :: 0 <= k < 4 && BatchCommandFields[k] == f;
  }

  /** Every complaint about a field names that field. */
  lemma ProblemsNameTheirField(d: Record, f: string, e: TransmissionError)
    requires e in PresenceProblem(d, f) || e in LengthProblem(d, f)
    ensures e.field == f
  {
  }

  /** The four field names differ (already in their first letters). */
  lemma SameFieldSameIndex(i: nat, j: nat)
    requires i < 4 && j < 4 && BatchCommandFields[i] == BatchCommandFields[j]
    ensures i == j
  {
    assert BatchCommandFields[i][0] == BatchCommandFields[j][0];
  }

  /** A missing field is reported as missing and nothing else is said of it. */
  lemma MissingFieldReported(d: Record, k: nat)
    requires k < 4 && BatchCommandFields[k] !in d
    ensures MissingRequiredField(BatchCommandFields[k]) in TransmissionErrors(d)
    ensures forall e :: e in TransmissionErrors(d) && e.field == BatchCommandFields[k] ==> e.MissingRequiredField?
  {
    var fs := BatchCommandFields;
    var presence := f => PresenceProblem(d, f);
    var lengths := f => LengthProblem(d, f);
    FlatMapMember(fs, presence, MissingRequiredField(fs[k]));
    assert MissingRequiredField(fs[k]) in presence(fs[k]);
    forall e | e in TransmissionErrors(d) && e.field == fs[k]
      ensures e.MissingRequiredField?
    {
      FlatMapMember(fs, presence, e);
      FlatMapMember(fs, lengths, e);
      var j :| 0 <= j < 4 && (e in presence(fs[j]) || e in lengths(fs[j]));
      ProblemsNameTheirField(d, fs[j], e);
      SameFieldSameIndex(j, k);
    }
  }

  /** `validate_batch_data(batch_data)`: the presence loop, then the length loop. */
  method ValidateBatchData(d: Record) returns (isValid: bool, errors: seq<TransmissionError>)
    ensures errors == TransmissionErrors(d)
    ensures isValid <==> forall f :: f in BatchCommandFields ==> Transmittable(d, f)
  {
    var fs := BatchCommandFields;
    errors := [];
    for k := 0 to |fs|
      invariant errors == FlatMap(fs[..k], f => PresenceProblem(d, f))
    {
      PrefixSnoc(fs, k);
      assert fs[..k + 1][..k] == fs[..k];
      errors := errors + PresenceProblem(d, fs[k]);
    }
    assert fs[..4] == fs;
    ghost var presence := errors;
    for k := 0 to |fs|
      invariant errors == presence + FlatMap(fs[..k], f => LengthProblem(d, f))
    {
      PrefixSnoc(fs, k);
      assert fs[..k + 1][..k] == fs[..k];
      AppendAssoc(presence, FlatMap(fs[..k], f => LengthProblem(d, f)), LengthProblem(d, fs[k]));
      errors := errors + LengthProblem(d, fs[k]);
    }
    TransmissionErrorsSpec(d);
    isValid := |errors| == 0;
  }

  // ---------------------------------------------------------------------------
  // ZanasiProtocolHelper.escape_string_for_zanasi

  /** The first step: every double quote gets a backslash in front. */
  function EscapeQuotes(value: string): string
  {
    ReplaceChar(value, '"', "\\\"")
  }

  /** `escape_string_for_zanasi(value)`. */
  function EscapeForZanasi(value: string): (r: string)
    ensures '\n' !in r && '\r' !in r && '\t' !in r
  {
    ReplaceChar(ReplaceChar(ReplaceChar(EscapeQuotes(value), '\n', " "), '\r', " "), '\t', " ")
  }

  /** Replacing a character by a space keeps every position. */
  lemma {:induction false} ReplaceBySpace(s: string, c: char)
    ensures |ReplaceChar(s, c, " ")| == |s|
    ensures forall i :: 0 <= i < |s| ==> ReplaceChar(s, c, " ")[i] == if s[i] == c then ' ' else s[i]
  {
    if s != [] {
      ReplaceBySpace(s[1..], c);
    }
  }

  /** After the first step no double quote stands first or without a backslash before it. */
  lemma {:induction false} QuotesEscaped(value: string)
    ensures forall i :: 0 <= i < |EscapeQuotes(value)| && EscapeQuotes(value)[i] == '"' ==>
              i > 0 && EscapeQuotes(value)[i - 1] == '\\'
  {
    if value != [] {
      QuotesEscaped(value[1..]);
      var head := if value[0] == '"' then "\\\"" else [value[0]];
      var rest := EscapeQuotes(value[1..]);
      assert EscapeQuotes(value) == head + rest;
      forall i | 0 <= i < |head + rest| && (head + rest)[i] == '"'
        ensures i > 0 && (head + rest)[i - 1] == '\\'
      {
        if i >= |head| {
          assert rest[i - |head|] == '"';
        }
      }
    }
  }

  /** In the escaped text every double quote has a backslash right before it. */
  lemma EscapedQuotesPreceded(value: string)
    ensures forall i :: 0 <= i < |EscapeForZanasi(value)| && EscapeForZanasi(value)[i] == '"' ==>
              i > 0 && EscapeForZanasi(value)[i - 1] == '\\'
  {
    var s0 := EscapeQuotes(value);
    var s1 := ReplaceChar(s0, '\n', " ");
    var s2 := ReplaceChar(s1, '\r', " ");
    ReplaceBySpace(s0, '\n');
    ReplaceBySpace(s1, '\r');
    ReplaceBySpace(s2, '\t');
    QuotesEscaped(value);
  }

  /** Undoes the quote escaping: a backslash before a double quote is dropped. */
  function UnescapeQuotes(s: string): string
  {
    if |s| >= 2 && s[0] == '\\' && s[1] == '"' then "\"" + UnescapeQuotes(s[2..])
    else if s == [] then []
    else [s[0]] + UnescapeQuotes(s[1..])
  }

  /** Escaping the quotes loses nothing. */
  lemma {:induction false} UnescapeEscapeQuotes(value: string)
    ensures UnescapeQuotes(EscapeQuotes(value)) == value
  {
    if value != [] {
      UnescapeEscapeQuotes(value[1..]);
      var rest := EscapeQuotes(value[1..]);
      if value[0] == '"' {
        assert EscapeQuotes(value) == "\\\"" + rest;
        assert ("\\\"" + rest)[2..] == rest;
      } else {
        assert EscapeQuotes(value) == [value[0]] + rest;
        QuotesEscaped(value[1..]);
        assert rest == [] || rest[0] != '"';
        assert ([value[0]] + rest)[1..] == rest;
      }
    }
  }

  /** For text without line breaks or tabs the escaping is undone exactly. */
  lemma UnescapeEscape(value: string)
    requires '\n' !in value && '\r' !in value && '\t' !in value
    ensures UnescapeQuotes(EscapeForZanasi(value)) == value
  {
    var s0 := EscapeQuotes(value);
    assert '\n' !in s0 && '\r' !in s0 && '\t' !in s0;
    ReplaceCharAbsent(s0, '\n', " ");
    ReplaceCharAbsent(s0, '\r', " ");
    ReplaceCharAbsent(s0, '\t', " ");
    UnescapeEscapeQuotes(value);
  }
}
