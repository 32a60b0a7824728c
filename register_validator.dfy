/** The two validators of the register codec (`RegisterValidator` in
    core/registers.py): one batch record, and a whole 120-word image. */
module RegisterValidator {
  import opened Base
  import opened Values
  import opened Enums
  import opened Registers

  /** One message of `RegisterValidator.validate_batch_data`. */
  datatype BatchDataError =
    | MissingField(field: string)
    | OutOfRange(field: string, lo: int, hi: int, found: int)
    | NotAnInteger(field: string, raw: Value)
    | TooLong(field: string, maxLength: nat, text: string)

  const RequiredFields: seq<string> :=
    ["batchIndex", "status", "printCount", "batchCode", "dryerCode", "productionDate", "expiryDate"]

  /** The text fields and their length limits, in the order they are checked. */
  const TextLimits: seq<(string, nat)> :=
    [("batchCode", 5), ("dryerCode", 5), ("productionDate", 10), ("expiryDate", 10)]

  /** One `Missing required field` message per absent field, in order. */
  function MissingFields(r: Record, fields: seq<string>): (es: seq<BatchDataError>)
    ensures |es| <= |fields|
    ensures es == [] <==> forall k :: 0 <= k < |fields| ==> fields[k] in r
  {
    if fields == [] then []
    else
      var init := fields[..|fields| - 1];
      var last := fields[|fields| - 1];
      assert forall k :: 0 <= k < |init| ==> init[k] == fields[k];
      MissingFields(r, init) + (if last in r then [] else [MissingField(last)])
  }

  /** The `int(...)` range check of one present field. */
  function IntegerCheck(r: Record, field: string, lo: int, hi: int): (es: seq<BatchDataError>)
    requires field in r
    ensures es == [] <==> ToInt(r[field]).Some? && lo <= ToInt(r[field]).value <= hi
  {
    match ToInt(r[field])
    case None => [NotAnInteger(field, r[field])]
    case Some(i) => if lo <= i <= hi then [] else [OutOfRange(field, lo, hi, i)]
  }

  /** Whether a field's `str()` is within its length limit (an absent field reads as ''). */
  predicate WithinLimit(r: Record, limit: (string, nat))
  {
    |ToStr(Get(r, limit.0, VStr("")))| <= limit.1
  }

  /** One `too long` message per text field whose `str()` exceeds its limit. */
  function LengthErrors(r: Record, limits: seq<(string, nat)>): (es: seq<BatchDataError>)
    ensures |es| <= |limits|
  {
    if limits == [] then []
    else
      var init := limits[..|limits| - 1];
      var (field, maxLength) := limits[|limits| - 1];
      var value := ToStr(Get(r, field, VStr("")));
      LengthErrors(r, init) + (if |value| > maxLength then [TooLong(field, maxLength, value)] else [])
  }

  /** No length message exactly when every field is within its limit. */
  lemma {:induction false} LengthErrorsEmpty(r: Record, limits: seq<(string, nat)>)
    ensures LengthErrors(r, limits) == [] <==> forall k :: 0 <= k < |limits| ==> WithinLimit(r, limits[k])
  {
    if limits != [] {
      var init := limits[..|limits| - 1];
      LengthErrorsEmpty(r, init);
      assert forall k :: 0 <= k < |init| ==> init[k] == limits[k];
    }
  }

  /** The messages `validate_batch_data` returns: the missing fields alone when
      any is missing, otherwise the integer and length checks in order. */
  function BatchDataErrors(r: Record): (errs: seq<BatchDataError>)
    ensures errs == [] ==> forall k :: 0 <= k < |RequiredFields| ==> RequiredFields[k] in r
  {
    var missing := MissingFields(r, RequiredFields);
    if missing != [] then missing
    else
      assert RequiredFields[0] in r && RequiredFields[1] in r && RequiredFields[2] in r;
      IntegerCheck(r, "batchIndex", 1001, 99999)
      + IntegerCheck(r, "status", 0, 4)
      + IntegerCheck(r, "printCount", 0, 65535)
      + LengthErrors(r, TextLimits)
  }

  /** An independent reading of what a valid batch record is. */
  predicate ValidBatchRecord(r: Record)
  {
    && (forall f :: f in RequiredFields ==> f in r)
    && ToInt(r["batchIndex"]).Some? && 1001 <= ToInt(r["batchIndex"]).value <= 99999
    && ToInt(r["status"]).Some? && 0 <= ToInt(r["status"]).value <= 4
    && ToInt(r["printCount"]).Some? && 0 <= ToInt(r["printCount"]).value <= 65535
    && |ToStr(r["batchCode"])| <= 5 && |ToStr(r["dryerCode"])| <= 5
    && |ToStr(r["productionDate"])| <= 10 && |ToStr(r["expiryDate"])| <= 10
  }

  /** The four length limits, for a dict holding every required field. */
  lemma TextLimitsWithin(r: Record)
    requires forall f :: f in RequiredFields ==> f in r
    ensures (forall k :: 0 <= k < |TextLimits| ==> WithinLimit(r, TextLimits[k]))
            <==> && |ToStr(r["batchCode"])| <= 5 && |ToStr(r["dryerCode"])| <= 5
                 && |ToStr(r["productionDate"])| <= 10 && |ToStr(r["expiryDate"])| <= 10
  {
    var l := TextLimits;
    assert l[0] == ("batchCode", 5) && l[1] == ("dryerCode", 5);
    assert l[2] == ("productionDate", 10) && l[3] == ("expiryDate", 10);
    assert "batchCode" in r && "dryerCode" in r && "productionDate" in r && "expiryDate" in r;
    assert (forall k :: 0 <= k < |l| ==> WithinLimit(r, l[k]))
           <==> WithinLimit(r, l[0]) && WithinLimit(r, l[1]) && WithinLimit(r, l[2]) && WithinLimit(r, l[3]);
  }

  /** `validate_batch_data` reports no error exactly for the valid records. */
  lemma BatchDataErrorsSpec(r: Record)
    ensures BatchDataErrors(r) == [] <==> ValidBatchRecord(r)
  {
    var fs := RequiredFields;
    assert (forall f :: f in fs ==> f in r) <==> forall k :: 0 <= k < |fs| ==> fs[k] in r;
    if forall f :: f in fs ==> f in r {
      LengthErrorsEmpty(r, TextLimits);
      TextLimitsWithin(r);
    }
  }

  /** The range message of an integer field, if any. */
  function RangeError(field: string, i: int, lo: int, hi: int): seq<BatchDataError>
  {
    if lo <= i <= hi then [] else [OutOfRange(field, lo, hi, i)]
  }

  /** The length message of a text field, if any. */
  function LengthError(field: string, maxLength: nat, text: string): seq<BatchDataError>
  {
    if |text| > maxLength then [TooLong(field, maxLength, text)] else []
  }

  /** The messages of a batch's own fields, checked in the validator's order. */
  function BatchErrorsOf(b: Batch): seq<BatchDataError>
  {
    RangeError("batchIndex", b.batchIndex, 1001, 99999)
    + RangeError("status", b.status, 0, 4)
    + RangeError("printCount", b.printCount, 0, 65535)
    + LengthError("batchCode", 5, b.batchCode)
    + LengthError("dryerCode", 5, b.dryerCode)
    + LengthError("productionDate", 10, b.productionDate)
    + LengthError("expiryDate", 10, b.expiryDate)
  }

  /** The range check of a field holding an integer. */
  lemma IntegerCheckOfInt(r: Record, field: string, lo: int, hi: int)
    requires field in r && r[field].VInt?
    ensures IntegerCheck(r, field, lo, hi) == RangeError(field, r[field].i, lo, hi)
  {
  }

  /** The length checks of the first k text fields, one more. */
  lemma LengthErrorsStep(r: Record, k: nat, field: string, maxLength: nat, text: string)
    requires k < |TextLimits| && TextLimits[k] == (field, maxLength) && field in r && r[field] == VStr(text)
    ensures LengthErrors(r, TextLimits[..k + 1]) == LengthErrors(r, TextLimits[..k]) + LengthError(field, maxLength, text)
  {
    assert TextLimits[..k + 1][..k] == TextLimits[..k];
  }

  /** A dict that holds each field of `b` as stored. */
  predicate HoldsBatch(r: Record, b: Batch)
  {
    && "batchIndex" in r && r["batchIndex"] == VInt(b.batchIndex)
    && "status" in r && r["status"] == VInt(b.status)
    && "printCount" in r && r["printCount"] == VInt(b.printCount)
    && "batchCode" in r && r["batchCode"] == VStr(b.batchCode)
    && "dryerCode" in r && r["dryerCode"] == VStr(b.dryerCode)
    && "productionDate" in r && r["productionDate"] == VStr(b.productionDate)
    && "expiryDate" in r && r["expiryDate"] == VStr(b.expiryDate)
  }

  lemma RecordHoldsBatch(b: Batch)
    ensures HoldsBatch(ToRecord(b), b)
  {
  }

  /** The length checks of a dict holding a batch are those of its texts. */
  lemma HeldLengthErrors(r: Record, b: Batch)
    requires HoldsBatch(r, b)
    ensures LengthErrors(r, TextLimits)
            == LengthError("batchCode", 5, b.batchCode) + LengthError("dryerCode", 5, b.dryerCode)
               + LengthError("productionDate", 10, b.productionDate) + LengthError("expiryDate", 10, b.expiryDate)
  {
    HeldCodeLengthErrors(r, b);
    LengthErrorsStep(r, 2, "productionDate", 10, b.productionDate);
    LengthErrorsStep(r, 3, "expiryDate", 10, b.expiryDate);
    assert TextLimits[..4] == TextLimits;
  }

  /** The length checks of the two codes. */
  lemma HeldCodeLengthErrors(r: Record, b: Batch)
    requires HoldsBatch(r, b)
    ensures LengthErrors(r, TextLimits[..2])
            == LengthError("batchCode", 5, b.batchCode) + LengthError("dryerCode", 5, b.dryerCode)
  {
    LengthErrorsStep(r, 0, "batchCode", 5, b.batchCode);
    LengthErrorsStep(r, 1, "dryerCode", 5, b.dryerCode);
    assert TextLimits[..0] == [];
  }

  /** `validate_batch_data` on a dict holding a batch reports the messages of
      the batch's own fields. */
  lemma HeldBatchErrors(r: Record, b: Batch)
    requires HoldsBatch(r, b)
    ensures BatchDataErrors(r) == BatchErrorsOf(b)
  {
    assert forall k :: 0 <= k < |RequiredFields| ==> RequiredFields[k] in r;
    IntegerCheckOfInt(r, "batchIndex", 1001, 99999);
    IntegerCheckOfInt(r, "status", 0, 4);
    IntegerCheckOfInt(r, "printCount", 0, 65535);
    HeldLengthErrors(r, b);
  }

  /** The dict of a batch has every required field, each integer and text
      as stored, so `validate_batch_data` reports exactly the messages of the
      batch's own fields. */
  lemma BatchRecordErrors(b: Batch)
    ensures BatchDataErrors(ToRecord(b)) == BatchErrorsOf(b)
  {
    RecordHoldsBatch(b);
    HeldBatchErrors(ToRecord(b), b);
  }

  /** The `for field in required_fields` loop of `validate_batch_data`. */
  method CollectMissing(r: Record) returns (errors: seq<BatchDataError>)
    ensures errors == MissingFields(r, RequiredFields)
  {
    errors := [];
    for i := 0 to |RequiredFields|
      invariant errors == MissingFields(r, RequiredFields[..i])
    {
      var field := RequiredFields[i];
      assert RequiredFields[..i + 1][..i] == RequiredFields[..i];
      if field !in r {
        errors := errors + [MissingField(field)];
      }
    }
    assert RequiredFields[..|RequiredFields|] == RequiredFields;
  }

  /** The `for field, max_length in string_fields.items()` loop of `validate_batch_data`. */
  method CollectTooLong(r: Record) returns (errors: seq<BatchDataError>)
    ensures errors == LengthErrors(r, TextLimits)
  {
    errors := [];
    for i := 0 to |TextLimits|
      invariant errors == LengthErrors(r, TextLimits[..i])
    {
      var (field, maxLength) := TextLimits[i];
      var value := ToStr(Get(r, field, VStr("")));
      assert TextLimits[..i + 1][..i] == TextLimits[..i];
      if |value| > maxLength {
        errors := errors + [TooLong(field, maxLength, value)];
      }
    }
    assert TextLimits[..|TextLimits|] == TextLimits;
  }

  /** `RegisterValidator.validate_batch_data`. */
  method ValidateBatchData(r: Record) returns (isValid: bool, errors: seq<BatchDataError>)
    ensures errors == BatchDataErrors(r)
    ensures isValid <==> errors == []
    ensures isValid <==> ValidBatchRecord(r)
  {
    BatchDataErrorsSpec(r);
    errors := CollectMissing(r);
    if errors != [] {
      return false, errors;
    }
    assert RequiredFields[0] in r && RequiredFields[1] in r && RequiredFields[2] in r;
    var tooLong := CollectTooLong(r);
    errors := IntegerCheck(r, "batchIndex", 1001, 99999) + IntegerCheck(r, "status", 0, 4)
              + IntegerCheck(r, "printCount", 0, 65535) + tooLong;
    isValid := |errors| == 0;
  }

  /** A batch record whose fields are in range validates. */
  lemma ValidFieldsValidate(b: Batch)
    requires 1001 <= b.batchIndex <= 99999 && 0 <= b.status <= 4 && 0 <= b.printCount <= 65535
    requires |b.batchCode| <= 5 && |b.dryerCode| <= 5 && |b.productionDate| <= 10 && |b.expiryDate| <= 10
    ensures BatchDataErrors(ToRecord(b)) == []
  {
    var r := ToRecord(b);
    BatchDataErrorsSpec(r);
    assert forall f :: f in RequiredFields ==> f in r;
  }

  /** The validator admits batch indexes up to 99999, but the slot builder
      rejects any index above 65535: a validated batch can still fail to build. */
  lemma ValidatedBatchMayNotBuild()
    ensures var b := Batch(70000, 0, 0, "", "", "", "");
            BatchDataErrors(ToRecord(b)) == [] && BuildSlot(b).Err?
  {
    ValidFieldsValidate(Batch(70000, 0, 0, "", "", "", ""));
  }

  // ---------------------------------------------------------------- the whole image

  /** One message of `RegisterValidator.validate_register_array`. */
  datatype ArrayError =
    | WrongLength(expected: nat, got: nat)
    | RegisterOutOfRange(register: nat, word: int)
    | InBatch(batch: int, error: BatchDataError)
    | BatchUnreadable(batch: int, reason: SlotError)

  predicate WordInRange(w: int) { 0 <= w <= 65535 }

  /** One message per word outside 0..65535, numbered from 1, in order. */
  function RangeErrors(regs: seq<int>): (es: seq<ArrayError>)
    ensures |es| <= |regs|
    ensures es == [] <==> forall i :: 0 <= i < |regs| ==> WordInRange(regs[i])
    ensures forall e :: e in es ==> e.RegisterOutOfRange?
  {
    if regs == [] then []
    else
      var init := regs[..|regs| - 1];
      var last := regs[|regs| - 1];
      assert forall i :: 0 <= i < |init| ==> init[i] == regs[i];
      RangeErrors(init) + (if WordInRange(last) then [] else [RegisterOutOfRange(|regs|, last)])
  }

  /** Each message of a batch, prefixed with the batch number. */
  function Tagged(n: int, es: seq<BatchDataError>): (r: seq<ArrayError>)
    ensures |r| == |es| && forall i :: 0 <= i < |es| ==> r[i] == InBatch(n, es[i])
  {
    seq(|es|, i requires 0 <= i < |es| => InBatch(n, es[i]))
  }

  /** What reading one slot gave: an error, an empty slot, or a batch. */
  type SlotRead = Result<Option<Batch>, SlotError>

  /** The messages for slot n: none for an empty slot. */
  function BatchErrors(x: SlotRead, n: int): seq<ArrayError>
  {
    match x
    case Err(e) => [BatchUnreadable(n, e)]
    case Ok(None) => []
    case Ok(Some(b)) => Tagged(n, BatchErrorsOf(b))
  }

  /** The messages of slot n of an image. */
  function SlotMessages(regs: seq<int>, n: int): seq<ArrayError>
  {
    BatchErrors(ExtractBatch(regs, n), n)
  }

  /** The messages of slots 1 to 5, one list per slot. */
  function AllSlotMessages(regs: seq<int>): (ms: seq<seq<ArrayError>>)
    requires |regs| == TotalRegisters
    ensures |ms| == 5
    ensures forall k :: 0 <= k < 5 ==> ms[k] == SlotMessages(regs, k + 1)
  {
    seq(5, k requires 0 <= k < 5 => SlotMessages(regs, k + 1))
  }

  /** The lists joined in order. */
  function Concat<T>(ms: seq<seq<T>>): seq<T>
  {
    if ms == [] then [] else Concat(ms[..|ms| - 1]) + ms[|ms| - 1]
  }

  lemma ConcatSnoc<T>(ms: seq<seq<T>>, i: nat)
    requires i < |ms|
    ensures Concat(ms[..i + 1]) == Concat(ms[..i]) + ms[i]
  {
    assert ms[..i + 1][..i] == ms[..i];
  }

  lemma {:induction false} ConcatEmpty<T>(ms: seq<seq<T>>)
    ensures Concat(ms) == [] <==> forall k :: 0 <= k < |ms| ==> ms[k] == []
  {
    if ms != [] {
      var init := ms[..|ms| - 1];
      ConcatEmpty(init);
      assert forall k :: 0 <= k < |init| ==> init[k] == ms[k];
    }
  }

  lemma {:induction false} ConcatMember<T>(ms: seq<seq<T>>, e: T)
    requires e in Concat(ms)
    ensures exists k :: 0 <= k < |ms| && e in ms[k]
  {
    var init := ms[..|ms| - 1];
    if e in Concat(init) {
      ConcatMember(init, e);
      var k :| 0 <= k < |init| && e in init[k];
      assert ms[k] == init[k];
    } else {
      assert e in ms[|ms| - 1];
    }
  }

  /** The messages `validate_register_array` returns. */
  function RegisterArrayErrors(regs: seq<int>): (errs: seq<ArrayError>)
    ensures errs == [] ==> |regs| == 120 && forall i :: 0 <= i < |regs| ==> WordInRange(regs[i])
  {
    if |regs| != 120 then [WrongLength(120, |regs|)]
    else RangeErrors(regs) + Concat(AllSlotMessages(regs))
  }

  /** A slot that holds nothing or a valid batch. */
  predicate SlotValid(x: SlotRead)
  {
    match x
    case Err(_) => false
    case Ok(None) => true
    case Ok(Some(b)) => ValidBatchRecord(ToRecord(b))
  }

  /** A slot reports nothing exactly when it is empty or holds a valid batch. */
  lemma BatchErrorsEmpty(x: SlotRead, n: int)
    ensures BatchErrors(x, n) == [] <==> SlotValid(x)
  {
    match x
    case Err(_) =>
    case Ok(None) =>
    case Ok(Some(b)) =>
      BatchRecordErrors(b);
      BatchDataErrorsSpec(ToRecord(b));
  }

  /** `validate_register_array` reports no error exactly when the image has
      120 words, each fits 16 bits, and every slot is empty or holds a valid batch. */
  lemma RegisterArrayErrorsSpec(regs: seq<int>)
    ensures RegisterArrayErrors(regs) == [] <==>
      && |regs| == 120
      && (forall i :: 0 <= i < 120 ==> WordInRange(regs[i]))
      && (forall n :: 1 <= n <= 5 ==> SlotValid(ExtractBatch(regs, n)))
  {
    if |regs| == 120 {
      var ms := AllSlotMessages(regs);
      ConcatEmpty(ms);
      forall n | 1 <= n <= 5
        ensures ms[n - 1] == [] <==> SlotValid(ExtractBatch(regs, n))
      {
        assert ms[n - 1] == SlotMessages(regs, n);
        BatchErrorsEmpty(ExtractBatch(regs, n), n);
      }
    }
  }

  /** Slot n of a 120-word image can be read, so its messages are all about its batch. */
  lemma SlotMessagesReadable(regs: seq<int>, n: int)
    requires |regs| == 120 && 1 <= n <= 5
    ensures forall e :: e in SlotMessages(regs, n) ==> e.InBatch?
  {
    assert ExtractBatch(regs, n).Ok?;
  }

  lemma {:induction false} ConcatInBatch(ms: seq<seq<ArrayError>>)
    requires forall k :: 0 <= k < |ms| ==> forall e :: e in ms[k] ==> e.InBatch?
    ensures forall e :: e in Concat(ms) ==> e.InBatch?
  {
    if ms != [] {
      var init := ms[..|ms| - 1];
      assert forall k :: 0 <= k < |init| ==> init[k] == ms[k];
      ConcatInBatch(init);
    }
  }

  lemma SlotListReadable(regs: seq<int>, k: nat)
    requires |regs| == 120 && k < 5
    ensures forall e :: e in AllSlotMessages(regs)[k] ==> e.InBatch?
  {
    assert AllSlotMessages(regs)[k] == SlotMessages(regs, k + 1);
    SlotMessagesReadable(regs, k + 1);
  }

  /** Every slot of a 120-word image can be read, so the `except` branch never
      reports an unreadable batch. */
  lemma NoUnreadableBatch(regs: seq<int>)
    requires |regs| == 120
    ensures forall e :: e in RegisterArrayErrors(regs) ==> !e.BatchUnreadable?
  {
    var ms := AllSlotMessages(regs);
    forall k | 0 <= k < 5
      ensures forall e: ArrayError :: e in ms[k] ==> e.InBatch?
    {
      SlotListReadable(regs, k);
    }
    ConcatInBatch(ms);
    assert RegisterArrayErrors(regs) == RangeErrors(regs) + Concat(ms);
  }

  /** The `for i, value in enumerate(registers)` loop. */
  method CollectRangeErrors(regs: seq<int>) returns (errors: seq<ArrayError>)
    ensures errors == RangeErrors(regs)
  {
    errors := [];
    for i := 0 to |regs|
      invariant errors == RangeErrors(regs[..i])
    {
      var value := regs[i];
      assert regs[..i + 1][..i] == regs[..i];
      if !(0 <= value <= 65535) {
        errors := errors + [RegisterOutOfRange(i + 1, value)];
      }
    }
    assert regs[..|regs|] == regs;
  }

  /** The `for error in batch_errors` loop. */
  method AppendTagged(errors: seq<ArrayError>, n: int, batchErrors: seq<BatchDataError>)
    returns (r: seq<ArrayError>)
    ensures r == errors + Tagged(n, batchErrors)
  {
    r := errors;
    for j := 0 to |batchErrors|
      invariant r == errors + Tagged(n, batchErrors[..j])
    {
      r := r + [InBatch(n, batchErrors[j])];
    }
    assert batchErrors[..|batchErrors|] == batchErrors;
  }

  /** The body of the `for batch_num in range(1, NUM_BATCHES + 1)` loop: the
      messages it appends for slot n. */
  method CheckSlot(regs: seq<int>, batchNum: int) returns (messages: seq<ArrayError>)
    ensures messages == SlotMessages(regs, batchNum)
  {
    var extracted := ExtractBatch(regs, batchNum);
    match extracted
    case Err(e) =>
      messages := [BatchUnreadable(batchNum, e)];
    case Ok(None) =>
      messages := [];
    case Ok(Some(b)) =>
      var ok, batchErrors := ValidateBatchData(ToRecord(b));
      BatchRecordErrors(b);
      messages := [];
      if !ok {
        messages := AppendTagged(messages, batchNum, batchErrors);
      }
  }

  /** `RegisterValidator.validate_register_array`. */
  method ValidateRegisterArray(regs: seq<int>) returns (isValid: bool, errors: seq<ArrayError>)
    ensures errors == RegisterArrayErrors(regs)
    ensures isValid <==> errors == []
  {
    if |regs| != TotalRegisters {
      return false, [WrongLength(TotalRegisters, |regs|)];
    }
    var rangeErrors := CollectRangeErrors(regs);
    ghost var ms := AllSlotMessages(regs);
    errors := rangeErrors;
    for batchNum := 1 to NumBatches + 1
      invariant errors == rangeErrors + Concat(ms[..batchNum - 1])
    {
      var messages := CheckSlot(regs, batchNum);
      assert ms[batchNum - 1] == SlotMessages(regs, batchNum);
      ConcatSnoc(ms, batchNum - 1);
      AppendAssoc(rangeErrors, Concat(ms[..batchNum - 1]), messages);
      errors := errors + messages;
    }
    assert ms[..5] == ms;
    isValid := |errors| == 0;
  }
}
