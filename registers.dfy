/** The register codec (core/registers.py): text packed two bytes per 16-bit
    word, a batch as a 20-word slot, the 120-word image of five slots, and
    the two validators. */
module Registers {
  import opened Base
  import opened Values
  import opened Enums

  /** One batch as the controller stores it. */
  datatype Batch = Batch(
    batchIndex: int, status: int, printCount: int,
    batchCode: string, dryerCode: string, productionDate: string, expiryDate: string)

  /** The batch as a dict with its seven keys. */
  function ToRecord(b: Batch): (r: Record)
    ensures |r.Keys| == 7
  {
    map["batchIndex" := VInt(b.batchIndex), "status" := VInt(b.status), "printCount" := VInt(b.printCount),
        "batchCode" := VStr(b.batchCode), "dryerCode" := VStr(b.dryerCode),
        "productionDate" := VStr(b.productionDate), "expiryDate" := VStr(b.expiryDate)]
  }

  // ---------------------------------------------------------------- addresses

  /** Why an address helper or the slot decoder raised ValueError. */
  datatype SlotError = BatchNumberOutOfRange(n: int) | InsufficientRegisters(count: nat)

  /** `PLCRegisters.get_batch_register_range`: the first and last register of slot n. */
  function GetBatchRegisterRange(n: int): (r: Result<(nat, nat), SlotError>)
    ensures r.Ok? <==> 1 <= n <= NumBatches
    ensures r.Ok? ==> r.value.1 - r.value.0 + 1 == RegistersPerBatch
    ensures r.Ok? ==> BatchStartRegister <= r.value.0 && r.value.1 < TotalRegisters
  {
    if !(1 <= n <= NumBatches) then Err(BatchNumberOutOfRange(n))
    else
      var start := BatchStartRegister + (n - 1) * RegistersPerBatch;
      Ok((start, start + RegistersPerBatch - 1))
  }

  /** Distinct slots occupy disjoint register ranges. */
  lemma SlotRangesDisjoint(m: int, n: int)
    requires 1 <= m < n <= NumBatches
    ensures GetBatchRegisterRange(m).value.1 < GetBatchRegisterRange(n).value.0
  {
  }

  /** `PLCRegisters.get_batch_registers`: the register of each of the seven fields of slot n. */
  function GetBatchRegisters(n: int): (r: Result<seq<nat>, SlotError>)
    ensures r.Ok? <==> 1 <= n <= NumBatches
    ensures r.Ok? ==> |r.value| == 7 && r.value[0] == GetBatchRegisterRange(n).value.0
    ensures r.Ok? ==> forall k :: 0 <= k < 7 ==> r.value[k] == r.value[0] + SlotOffsets[k]
  {
    if !(1 <= n <= NumBatches) then Err(BatchNumberOutOfRange(n))
    else
      var base := BatchStartRegister + (n - 1) * RegistersPerBatch;
      Ok(seq(7, k requires 0 <= k < 7 => base + SlotOffsets[k]))
  }

  /** `PLCRegisters.validate_register_address`. */
  predicate ValidRegisterAddress(address: int)
  {
    1 <= address <= TotalRegisters
  }

  // ---------------------------------------------------------------- integers

  /** Why `validate_integer` raised ValueError. */
  datatype IntegerError = Negative(field: string, value: int) | TooLarge(field: string, value: int)

  /** `RegisterUtils.validate_integer`: a value that fits one word, unchanged. */
  function ValidateInteger(value: int, field: string): (r: Result<int, IntegerError>)
    ensures r.Ok? <==> 0 <= value <= 65535
    ensures r.Ok? ==> r.value == value
    ensures r.Err? ==> r.error.field == field && r.error.value == value && (r.error.Negative? <==> value < 0)
  {
    if value < 0 then Err(Negative(field, value))
    else if value > 65535 then Err(TooLarge(field, value))
    else Ok(value)
  }

  // ---------------------------------------------------------------- text

  /** The UTF-8 encoding of one character. */
  function Utf8Char(c: char): (r: seq<Byte>)
    ensures 1 <= |r| <= 4
    ensures (c as int < 0x80) <==> |r| == 1
    ensures c as int < 0x80 ==> r == [c as int]
    ensures c as int >= 0x80 ==> forall i :: 0 <= i < |r| ==> r[i] >= 0x80
  {
    var n := c as int;
    if n < 0x80 then [n]
    else if n < 0x800 then [0xC0 + n / 64, 0x80 + n % 64]
    else if n < 0x1_0000 then [0xE0 + n / 4096, 0x80 + (n / 64) % 64, 0x80 + n % 64]
    else [0xF0 + n / 262144, 0x80 + (n / 4096) % 64, 0x80 + (n / 64) % 64, 0x80 + n % 64]
  }

  /** `text.encode('utf-8')`. */
  function Utf8(s: string): (r: seq<Byte>)
    ensures |r| >= |s|
  {
    if s == [] then [] else Utf8Char(s[0]) + Utf8(s[1..])
  }

  /** Characters in 1..127: one byte each, none of them NUL. */
  predicate IsAsciiNoNul(s: string)
  {
    forall i :: 0 <= i < |s| ==> 0 < s[i] as int < 0x80
  }

  lemma {:induction false} Utf8Ascii(s: string)
    requires IsAsciiNoNul(s)
    ensures |Utf8(s)| == |s|
    ensures forall i :: 0 <= i < |s| ==> Utf8(s)[i] == s[i] as int
  {
    if s != [] {
      Utf8Ascii(s[1..]);
    }
  }

  /** The word holding two bytes, high byte first. */
  function PairWord(hi: int, lo: int): int { hi * 256 + lo }

  /** The words `string_to_registers` produces for an encoded string. */
  function Packed(b: seq<Byte>): (r: seq<int>)
    ensures |r| == |b| / 2 + 1
  {
    if |b| == 0 then [0]
    else if |b| == 1 then [PairWord(b[0], 0)]
    else [PairWord(b[0], b[1])] + Packed(b[2..])
  }

  /** Byte pairs high byte first, an odd last byte alone in the high half,
      and a zero word after an even number of bytes; every word fits 16 bits. */
  lemma {:induction false} PackedWords(b: seq<Byte>)
    ensures forall i :: 0 <= i < |Packed(b)| ==> 0 <= Packed(b)[i] < 0x1_0000
    ensures forall k :: 0 <= k < |b| / 2 ==> Packed(b)[k] == PairWord(b[2 * k], b[2 * k + 1])
    ensures |b| % 2 == 0 ==> Packed(b)[|b| / 2] == 0
    ensures |b| % 2 == 1 ==> Packed(b)[|b| / 2] == PairWord(b[|b| - 1], 0)
  {
    if |b| >= 2 {
      PackedWords(b[2..]);
      var r := Packed(b);
      assert r == [PairWord(b[0], b[1])] + Packed(b[2..]);
      forall k | 1 <= k < |b| / 2
        ensures r[k] == PairWord(b[2 * k], b[2 * k + 1])
      {
        assert b[2 * k] == b[2..][2 * (k - 1)] && b[2 * k + 1] == b[2..][2 * (k - 1) + 1];
      }
    }
  }

  /** What `string_to_registers(text, max_length)` returns. */
  function EncodeString(text: string, maxLength: int): (words: seq<int>)
    ensures |words| == |Utf8(PrefixSlice(text, maxLength))| / 2 + 1
    ensures forall k :: 0 <= k < |words| ==> 0 <= words[k] <= 65535
  {
    PackedWords(Utf8(PrefixSlice(text, maxLength)));
    Packed(Utf8(PrefixSlice(text, maxLength)))
  }

  /** `RegisterUtils.string_to_registers`. */
  method StringToRegisters(text: string, maxLength: int) returns (registers: seq<int>)
    ensures registers == EncodeString(text, maxLength)
  {
    var t := PrefixSlice(text, maxLength);
    registers := PackBytes(Utf8(t));
  }

  lemma PackedStep(b: seq<Byte>, i: nat)
    requires i + 1 < |b|
    ensures Packed(b[i..]) == [PairWord(b[i], b[i + 1])] + Packed(b[i + 2..])
  {
    assert b[i..][2..] == b[i + 2..];
  }

  /** The packing loop's invariant survives a byte pair. */
  lemma PackedPair(b: seq<Byte>, i: nat, done: seq<int>)
    requires i + 1 < |b| && done + Packed(b[i..]) == Packed(b)
    ensures (done + [PairWord(b[i], b[i + 1])]) + Packed(b[i + 2..]) == Packed(b)
  {
    PackedStep(b, i);
    AppendAssoc(done, [PairWord(b[i], b[i + 1])], Packed(b[i + 2..]));
  }

  /** An odd last byte completes the packing. */
  lemma PackedLast(b: seq<Byte>, i: nat, done: seq<int>)
    requires i + 1 == |b| && done + Packed(b[i..]) == Packed(b)
    ensures done + [PairWord(b[i], 0)] == Packed(b)
  {
    assert |b[i..]| == 1;
  }

  /** After an even number of bytes only the zero word is missing. */
  lemma PackedEnd(b: seq<Byte>, done: seq<int>)
    requires done + Packed(b[|b|..]) == Packed(b)
    ensures done + [0] == Packed(b)
  {
    assert b[|b|..] == [];
  }

  lemma OddLength(n: int, k: int)
    requires n + 1 == 2 * k
    ensures n % 2 == 1
  {
  }

  /** The packing loop of `string_to_registers`. */
  method PackBytes(encoded: seq<Byte>) returns (registers: seq<int>)
    ensures registers == Packed(encoded)
  {
    registers := [];
    var i := 0;
    while i < |encoded|
      invariant 0 <= i <= |encoded| + 1 && i == 2 * |registers|
      invariant i <= |encoded| ==> registers + Packed(encoded[i..]) == Packed(encoded)
      invariant i > |encoded| ==> registers == Packed(encoded)
    {
      var value;
      if i + 1 < |encoded| {
        value := PairWord(encoded[i], encoded[i + 1]);
        PackedPair(encoded, i, registers);
      } else {
        value := PairWord(encoded[i], 0);
        PackedLast(encoded, i, registers);
      }
      registers := registers + [value];
      i := i + 2;
    }
    if |encoded| % 2 == 0 {
      if i != |encoded| {
        OddLength(|encoded|, |registers|);
      }
      PackedEnd(encoded, registers);
      registers := registers + [0];
    }
  }

  /** `RegisterUtils.calculate_register_count_for_string`. */
  function RegisterCountForString(maxChars: int): (n: int)
    ensures maxChars >= 0 ==> maxChars + 2 <= 2 * n <= maxChars + 3
  {
    (maxChars + 1) / 2 + 1
  }

  /** The count bounds the words any text of at most that many bytes packs
      into, and is exact for an even count. */
  lemma RegisterCountBoundsPacking(b: seq<Byte>, maxChars: nat)
    requires |b| <= maxChars
    ensures |Packed(b)| <= RegisterCountForString(maxChars)
    ensures |b| == maxChars && maxChars % 2 == 0 ==> |Packed(b)| == RegisterCountForString(maxChars)
  {
  }

  /** The high byte of a word, `(w >> 8) & 0xFF`. */
  function HighByte(w: int): int { (w / 256) % 256 }

  /** The low byte of a word, `w & 0xFF`. */
  function LowByte(w: int): int { w % 256 }

  lemma SplitWord(hi: Byte, lo: Byte)
    ensures HighByte(PairWord(hi, lo)) == hi && LowByte(PairWord(hi, lo)) == lo
  {
  }

  /** The characters `registers_to_string` accumulates before stripping: a
      zero word ends the text, a zero high byte is skipped, a zero low byte
      ends the text after the high byte. */
  function DecodeChars(regs: seq<int>): (r: string)
    ensures |r| <= 2 * |regs|
  {
    if regs == [] || regs[0] == 0 then []
    else
      var hi := HighByte(regs[0]);
      var lo := LowByte(regs[0]);
      var head: string := if hi != 0 then [hi as char] else [];
      if lo != 0 then head + [lo as char] + DecodeChars(regs[1..]) else head
  }

  /** Every decoded character is a non-zero byte. */
  lemma {:induction false} DecodedCharsAreBytes(regs: seq<int>)
    ensures forall i :: 0 <= i < |DecodeChars(regs)| ==> 0 < DecodeChars(regs)[i] as int < 256
  {
    if regs != [] && regs[0] != 0 {
      DecodedCharsAreBytes(regs[1..]);
    }
  }

  /** `RegisterUtils.registers_to_string`. */
  function DecodeString(regs: seq<int>): (s: string)
    ensures Trimmed(s) && |s| <= 2 * |regs|
  {
    Strip(DecodeChars(regs))
  }

  lemma DecodeStep(regs: seq<int>, i: nat)
    requires i < |regs| && regs[i] != 0
    ensures var hi, lo := HighByte(regs[i]), LowByte(regs[i]);
            var head: string := if hi != 0 then [hi as char] else [];
            DecodeChars(regs[i..]) == if lo != 0 then head + [lo as char] + DecodeChars(regs[i + 1..]) else head
  {
    assert regs[i..][1..] == regs[i + 1..];
  }

  /** `RegisterUtils.registers_to_string`, with its loop. */
  method RegistersToString(registers: seq<int>) returns (s: string)
    ensures s == DecodeString(registers)
    ensures Trimmed(s)
  {
    var text: string := [];
    var i := 0;
    while i < |registers|
      invariant 0 <= i <= |registers|
      invariant text + DecodeChars(registers[i..]) == DecodeChars(registers)
    {
      var regVal := registers[i];
      if regVal == 0 {
        assert DecodeChars(registers[i..]) == [];
        assert text == DecodeChars(registers);
        break;
      }
      var highByte := HighByte(regVal);
      var lowByte := LowByte(regVal);
      DecodeStep(registers, i);
      ghost var before := text;
      ghost var head: string := if highByte != 0 then [highByte as char] else [];
      if highByte != 0 {
        text := text + [highByte as char];
      }
      assert text == before + head;
      if lowByte != 0 {
        text := text + [lowByte as char];
        assert before + DecodeChars(registers[i..]) == text + DecodeChars(registers[i + 1..]);
      } else {
        assert text == DecodeChars(registers);
        break;
      }
      i := i + 1;
    }
    assert text == DecodeChars(registers) by {
      if i == |registers| {
        assert registers[i..] == [];
      }
    }
    s := Strip(text);
  }

  /** A zero word ends the text: nothing after it is read. */
  lemma {:induction false} DecodeStopsAtZeroWord(regs: seq<int>, k: nat)
    requires k < |regs| && regs[k] == 0
    ensures DecodeChars(regs) == DecodeChars(regs[..k])
  {
    if k > 0 && regs[0] != 0 {
      assert regs[1..][k - 1] == 0;
      DecodeStopsAtZeroWord(regs[1..], k - 1);
      assert regs[..k][1..] == regs[1..][..k - 1];
    }
  }

  /** A word whose low byte is zero ends the text after its high byte:
      the first such word, before any zero word, contributes its high byte
      (when that is not zero) and nothing after it is read. */
  lemma {:induction false} DecodeStopsAtZeroLowByte(regs: seq<int>, k: nat)
    requires k < |regs| && regs[k] != 0 && LowByte(regs[k]) == 0
    requires forall j :: 0 <= j < k ==> regs[j] != 0 && LowByte(regs[j]) != 0
    ensures DecodeChars(regs) == DecodeChars(regs[..k])
                                 + if HighByte(regs[k]) != 0 then [HighByte(regs[k]) as char] else []
  {
    if k > 0 {
      assert regs[1..][k - 1] == regs[k];
      DecodeStopsAtZeroLowByte(regs[1..], k - 1);
      assert regs[..k][1..] == regs[1..][..k - 1];
      assert regs[..k][0] == regs[0];
    }
  }

  /** The words a field of `width` words holds: the encoded words cut to the
      width, then zeros. */
  function FieldWords(words: seq<int>, width: nat): (r: seq<int>)
    ensures |r| == width
  {
    var kept := PrefixSlice(words, width);
    kept + Zeros(width - |kept|)
  }

  function CharsOf(b: seq<Byte>): (s: string)
    requires forall i :: 0 <= i < |b| ==> b[i] > 0
    ensures |s| == |b|
  {
    seq(|b|, i requires 0 <= i < |b| => b[i] as char)
  }

  /** A word holding two non-zero bytes decodes to those two characters,
      and decoding goes on with the next word. */
  lemma DecodePair(regs: seq<int>, hi: Byte, lo: Byte)
    requires regs != [] && regs[0] == PairWord(hi, lo) && hi > 0 && lo > 0
    ensures DecodeChars(regs) == [hi as char, lo as char] + DecodeChars(regs[1..])
  {
    SplitWord(hi, lo);
  }

  lemma CharsOfPair(b: seq<Byte>)
    requires 2 <= |b| && forall i :: 0 <= i < |b| ==> b[i] > 0
    ensures CharsOf(b) == [b[0] as char, b[1] as char] + CharsOf(b[2..])
  {
  }

  /** Two non-zero bytes at the head of a field decode to two characters. */
  lemma DecodeFieldPair(b: seq<Byte>, width: nat)
    requires 2 <= |b| <= 2 * width
    requires forall i :: 0 <= i < |b| ==> b[i] > 0
    ensures DecodeChars(FieldWords(Packed(b), width))
            == [b[0] as char, b[1] as char] + DecodeChars(FieldWords(Packed(b[2..]), width - 1))
  {
    var f := FieldWords(Packed(b), width);
    FieldWordsPair(b, width);
    DecodePair(f, b[0], b[1]);
  }

  /** The packed words kept in a field start with the first byte pair. */
  lemma PackedPrefixPair(b: seq<Byte>, width: nat)
    requires 2 <= |b| <= 2 * width
    ensures var rest := Packed(b[2..]);
            var m := Min(width - 1, |rest|);
            && PrefixSlice(Packed(b), width) == [PairWord(b[0], b[1])] + rest[..m]
            && PrefixSlice(rest, width - 1) == rest[..m]
  {
    var p := Packed(b);
    var rest := Packed(b[2..]);
    var m := Min(width - 1, |rest|);
    assert p == [PairWord(b[0], b[1])] + rest;
    assert PrefixSlice(p, width) == p[..m + 1];
  }

  /** The field of two or more bytes starts with their first pair. */
  lemma FieldWordsPair(b: seq<Byte>, width: nat)
    requires 2 <= |b| <= 2 * width
    ensures var f := FieldWords(Packed(b), width);
            f != [] && f[0] == PairWord(b[0], b[1]) && f[1..] == FieldWords(Packed(b[2..]), width - 1)
  {
    var w := PairWord(b[0], b[1]);
    var rest := Packed(b[2..]);
    var m := Min(width - 1, |rest|);
    PackedPrefixPair(b, width);
    var z := Zeros(width - 1 - m);
    assert FieldWords(Packed(b), width) == ([w] + rest[..m]) + z;
    assert FieldWords(Packed(b[2..]), width - 1) == rest[..m] + z;
    AppendAssoc([w], rest[..m], z);
  }

  /** A field decodes back to the bytes packed into it, as long as they fit
      in twice its width and none is zero. */
  lemma {:induction false} DecodeField(b: seq<Byte>, width: nat)
    requires |b| <= 2 * width
    requires forall i :: 0 <= i < |b| ==> b[i] > 0
    ensures DecodeChars(FieldWords(Packed(b), width)) == CharsOf(b)
    decreases width
  {
    var f := FieldWords(Packed(b), width);
    if width == 0 {
    } else if |b| == 0 {
      assert f[0] == 0;
    } else if |b| == 1 {
      SplitWord(b[0], 0);
      assert f[0] == PairWord(b[0], 0);
    } else {
      DecodeFieldPair(b, width);
      CharsOfPair(b);
      DecodeField(b[2..], width - 1);
    }
  }

  /** Short, NUL-free ASCII text survives being packed into a field and read back. */
  lemma TextFieldRoundTrip(s: string, maxLength: nat, width: nat)
    requires IsAsciiNoNul(s) && Trimmed(s)
    requires |s| <= maxLength && |s| <= 2 * width
    ensures DecodeString(FieldWords(EncodeString(s, maxLength), width)) == s
  {
    assert PrefixSlice(s, maxLength) == s;
    Utf8Ascii(s);
    var b := Utf8(s);
    DecodeField(b, width);
    assert CharsOf(b) == s;
  }

  // ---------------------------------------------------------------- slots

  /** Python's `s[a:b]` for 0 <= a <= b: clamped to the sequence. */
  function Slice<T>(s: seq<T>, a: nat, b: nat): (r: seq<T>)
    requires a <= b
    ensures |r| == Max(0, Min(b, |s|) - Min(a, |s|))
    ensures r == s[Min(a, |s|)..Min(b, |s|)]
  {
    s[Min(a, |s|)..Min(b, |s|)]
  }

  /** The 20 words of a slot holding `b`: index, status, count, then the four
      texts cut to 3, 3, 6 and 5 words and padded with zeros. */
  function SlotImage(b: Batch): (r: seq<int>)
    ensures |r| == RegistersPerBatch
  {
    [b.batchIndex, b.status, b.printCount]
    + FieldWords(EncodeString(b.batchCode, MaxBatchCodeLength), 3)
    + FieldWords(EncodeString(b.dryerCode, MaxDryerCodeLength), 3)
    + FieldWords(EncodeString(b.productionDate, MaxDateLength), 6)
    + FieldWords(EncodeString(b.expiryDate, MaxDateLength), 5)
  }

  /** The three integer fields each fit one word. */
  predicate IntegersFit(b: Batch)
  {
    0 <= b.batchIndex <= 65535 && 0 <= b.status <= 65535 && 0 <= b.printCount <= 65535
  }

  /** What `build_batch_registers` returns or raises: the integers are checked
      in the order index, status, count. */
  function BuildSlot(b: Batch): (r: Result<seq<int>, IntegerError>)
    ensures r.Ok? <==> IntegersFit(b)
    ensures r.Ok? ==> |r.value| == RegistersPerBatch
    ensures r.Ok? ==> r.value[BatchIndexOffset] == b.batchIndex && r.value[BatchStatusOffset] == b.status
                      && r.value[BatchCountOffset] == b.printCount
    ensures r.Err? ==> r.error.field == if !(0 <= b.batchIndex <= 65535) then "batchIndex"
                                        else if !(0 <= b.status <= 65535) then "status" else "printCount"
  {
    match ValidateInteger(b.batchIndex, "batchIndex")
    case Err(e) => Err(e)
    case Ok(_) =>
      match ValidateInteger(b.status, "status")
      case Err(e) => Err(e)
      case Ok(_) =>
        match ValidateInteger(b.printCount, "printCount")
        case Err(e) => Err(e)
        case Ok(_) => Ok(SlotImage(b))
  }

  /** Copies `words` into `a` from `offset` on, skipping any position past the end. */
  method PlaceWords(a: array<int>, offset: nat, words: seq<int>)
    requires offset + |words| <= a.Length
    modifies a
    ensures a[..] == old(a[..])[..offset] + words + old(a[..])[offset + |words|..]
  {
    for i := 0 to |words|
      invariant forall j :: 0 <= j < a.Length ==> a[j] == if offset <= j < offset + i then words[j - offset] else old(a[j])
    {
      if offset + i < a.Length {
        a[offset + i] := words[i];
      }
    }
    assert a[..] == old(a[..])[..offset] + words + old(a[..])[offset + |words|..];
  }

  /** One `for i, reg_val in enumerate(regs[:width])` placement into the
      still-zero tail of a slot under construction. */
  method PlaceField(a: array<int>, offset: nat, ghost done: seq<int>, regs: seq<int>, width: nat)
    requires offset == |done| && offset + width <= a.Length
    requires a[..] == done + Zeros(a.Length - |done|)
    modifies a
    ensures a[..] == done + FieldWords(regs, width) + Zeros(a.Length - |done| - width)
  {
    var kept := PrefixSlice(regs, width);
    ghost var before := a[..];
    PlaceWords(a, offset, kept);
    assert before[..|done|] == done;
    assert before[|done| + |kept|..] == Zeros(a.Length - |done| - |kept|);
    assert Zeros(a.Length - |done| - |kept|) == Zeros(width - |kept|) + Zeros(a.Length - |done| - width);
  }

  /** `BatchRegisterBuilder.build_batch_registers`. */
  method BuildBatchRegisters(b: Batch) returns (r: Result<seq<int>, IntegerError>)
    ensures r == BuildSlot(b)
  {
    var a := new int[RegistersPerBatch](_ => 0);
    var index := ValidateInteger(b.batchIndex, "batchIndex");
    if index.Err? { return Err(index.error); }
    a[BatchIndexOffset] := index.value;
    var status := ValidateInteger(b.status, "status");
    if status.Err? { return Err(status.error); }
    a[BatchStatusOffset] := status.value;
    var count := ValidateInteger(b.printCount, "printCount");
    if count.Err? { return Err(count.error); }
    a[BatchCountOffset] := count.value;
    ghost var head := [b.batchIndex, b.status, b.printCount];
    assert a[..] == head + Zeros(17);

    var batchCodeRegs := StringToRegisters(b.batchCode, MaxBatchCodeLength);
    var dryerCodeRegs := StringToRegisters(b.dryerCode, MaxDryerCodeLength);
    var prodDateRegs := StringToRegisters(b.productionDate, MaxDateLength);
    var expDateRegs := StringToRegisters(b.expiryDate, MaxDateLength);

    PlaceField(a, BatchCodeOffset, head, batchCodeRegs, 3);
    ghost var upTo := head + FieldWords(batchCodeRegs, 3);
    PlaceField(a, DryerCodeOffset, upTo, dryerCodeRegs, 3);
    upTo := upTo + FieldWords(dryerCodeRegs, 3);
    PlaceField(a, ProdDateOffset, upTo, prodDateRegs, 6);
    upTo := upTo + FieldWords(prodDateRegs, 6);
    PlaceField(a, ExpDateOffset, upTo, expDateRegs, 5);
    upTo := upTo + FieldWords(expDateRegs, 5);
    assert a[..] == upTo;
    assert upTo == SlotImage(b);
    r := Ok(a[..]);
  }

  // ---------------------------------------------------------------- the image

  /** The slots laid end to end. */
  function Flatten(slots: seq<seq<int>>): seq<int>
  {
    if slots == [] then [] else slots[0] + Flatten(slots[1..])
  }

  predicate UniformSlots(slots: seq<seq<int>>)
  {
    forall k :: 0 <= k < |slots| ==> |slots[k]| == 20
  }

  lemma {:induction false} FlattenLength(slots: seq<seq<int>>)
    requires UniformSlots(slots)
    ensures |Flatten(slots)| == 20 * |slots|
  {
    if slots != [] {
      FlattenLength(slots[1..]);
    }
  }

  lemma {:induction false} FlattenAppend(slots: seq<seq<int>>, s: seq<int>)
    ensures Flatten(slots + [s]) == Flatten(slots) + s
  {
    if slots == [] {
      assert [s][1..] == [];
    } else {
      assert (slots + [s])[1..] == slots[1..] + [s];
      FlattenAppend(slots[1..], s);
    }
  }

  /** Slot k of a flattened sequence occupies words 20k .. 20k+19. */
  lemma {:induction false} FlattenSlot(slots: seq<seq<int>>, k: nat)
    requires UniformSlots(slots) && k < |slots|
    ensures |Flatten(slots)| == 20 * |slots|
    ensures Flatten(slots)[20 * k..20 * (k + 1)] == slots[k]
  {
    FlattenLength(slots);
    if k > 0 {
      FlattenSlot(slots[1..], k - 1);
      assert Flatten(slots) == slots[0] + Flatten(slots[1..]);
    }
  }

  /** Every batch's integers fit one word each. */
  predicate AllFit(bs: seq<Batch>)
  {
    forall k :: 0 <= k < |bs| ==> IntegersFit(bs[k])
  }

  /** The slot images of the batches, or the first error met. */
  function BuildSlots(bs: seq<Batch>): Result<seq<seq<int>>, IntegerError>
  {
    if bs == [] then Ok([])
    else match BuildSlot(bs[0])
      case Err(e) => Err(e)
      case Ok(slot) =>
        match BuildSlots(bs[1..])
        case Err(e) => Err(e)
        case Ok(rest) => Ok([slot] + rest)
  }

  lemma {:induction false} BuildSlotsSpec(bs: seq<Batch>)
    ensures BuildSlots(bs).Ok? <==> AllFit(bs)
    ensures BuildSlots(bs).Ok? ==> |BuildSlots(bs).value| == |bs| && UniformSlots(BuildSlots(bs).value)
    ensures BuildSlots(bs).Ok? ==> forall k :: 0 <= k < |bs| ==> BuildSlots(bs).value[k] == SlotImage(bs[k])
  {
    if bs != [] {
      var x, rest := bs[0], bs[1..];
      BuildSlotsSpec(rest);
      assert bs == [x] + rest;
      BuildSlotsCons(x, rest);
      AllFitCons(x, rest);
    }
  }

  lemma AllFitCons(x: Batch, rest: seq<Batch>)
    ensures AllFit([x] + rest) <==> IntegersFit(x) && AllFit(rest)
  {
    var bs := [x] + rest;
    assert bs[0] == x;
    if IntegersFit(x) && AllFit(rest) {
      forall k | 0 <= k < |bs|
        ensures IntegersFit(bs[k])
      {
        if k > 0 {
          assert bs[k] == rest[k - 1];
        }
      }
    }
    if AllFit(bs) {
      forall k | 0 <= k < |rest|
        ensures IntegersFit(rest[k])
      {
        assert rest[k] == bs[k + 1];
      }
    }
  }

  /** The error reported is the one of the first batch that does not fit. */
  lemma {:induction false} FirstError(bs: seq<Batch>, i: nat)
    requires i < |bs| && !IntegersFit(bs[i]) && AllFit(bs[..i])
    ensures BuildSlots(bs) == Err(BuildSlot(bs[i]).error)
  {
    if i > 0 {
      assert bs[0] == bs[..i][0];
      assert bs[1..][..i - 1] == bs[..i][1..];
      FirstError(bs[1..], i - 1);
    }
  }

  /** Zeros for the control registers, the slots from index 9 on, then zeros to 120 words. */
  function ImageOfSlots(slots: seq<seq<int>>): (r: seq<int>)
    requires UniformSlots(slots) && |slots| <= 5
    ensures |r| == 120
  {
    FlattenLength(slots);
    Zeros(9) + Flatten(slots) + Zeros(111 - 20 * |slots|)
  }

  /** Writing one more slot after the ones already placed. */
  lemma ImageStep(slots: seq<seq<int>>, slot: seq<int>)
    requires UniformSlots(slots) && |slots| < 5 && |slot| == 20
    ensures UniformSlots(slots + [slot])
    ensures var before := ImageOfSlots(slots);
            ImageOfSlots(slots + [slot]) == before[..9 + 20 * |slots|] + slot + before[29 + 20 * |slots|..]
  {
    FlattenLength(slots);
    FlattenAppend(slots, slot);
    var before := ImageOfSlots(slots);
    assert before[..9 + 20 * |slots|] == Zeros(9) + Flatten(slots);
    assert before[29 + 20 * |slots|..] == Zeros(111 - 20 * (|slots| + 1));
  }

  /** Where each slot and the zero padding sit in the image. */
  lemma ImageOfSlotsLayout(slots: seq<seq<int>>, k: nat)
    requires UniformSlots(slots) && |slots| <= 5
    ensures var img := ImageOfSlots(slots);
            && (forall j :: 0 <= j < 9 ==> img[j] == 0)
            && (forall j :: 9 + 20 * |slots| <= j < 120 ==> img[j] == 0)
            && (k < |slots| ==> img[9 + 20 * k..9 + 20 * (k + 1)] == slots[k])
  {
    FlattenLength(slots);
    var f := Flatten(slots);
    var img := ImageOfSlots(slots);
    assert img == Zeros(9) + f + Zeros(111 - 20 * |slots|);
    if k < |slots| {
      FlattenSlot(slots, k);
      assert img[9 + 20 * k..9 + 20 * (k + 1)] == f[20 * k..20 * (k + 1)];
    }
  }

  /** What `build_complete_register_array` returns or raises: only the first
      five batches are used. */
  function CompleteImage(bs: seq<Batch>): (r: Result<seq<int>, IntegerError>)
    ensures r.Ok? <==> AllFit(bs[..Min(|bs|, 5)])
  {
    var used := bs[..Min(|bs|, 5)];
    BuildSlotsSpec(used);
    match BuildSlots(used)
    case Err(e) => Err(e)
    case Ok(slots) => Ok(ImageOfSlots(slots))
  }

  /** Building the slots of a batch followed by more batches. */
  lemma BuildSlotsCons(x: Batch, rest: seq<Batch>)
    ensures BuildSlot(x).Err? ==> BuildSlots([x] + rest) == Err(BuildSlot(x).error)
    ensures BuildSlot(x).Ok? && BuildSlots(rest).Err? ==> BuildSlots([x] + rest) == Err(BuildSlots(rest).error)
    ensures BuildSlot(x).Ok? && BuildSlots(rest).Ok? ==>
              BuildSlots([x] + rest) == Ok([BuildSlot(x).value] + BuildSlots(rest).value)
  {
    assert ([x] + rest)[0] == x && ([x] + rest)[1..] == rest;
  }

  /** Building one more slot extends the slots built so far, or reports
      that slot's error. */
  lemma {:induction false} BuildSlotsSnoc(bs: seq<Batch>, b: Batch)
    requires BuildSlots(bs).Ok?
    ensures BuildSlot(b).Err? ==> BuildSlots(bs + [b]) == Err(BuildSlot(b).error)
    ensures BuildSlot(b).Ok? ==> BuildSlots(bs + [b]) == Ok(BuildSlots(bs).value + [BuildSlot(b).value])
  {
    if bs == [] {
      assert bs + [b] == [b] + [];
      BuildSlotsCons(b, []);
      if BuildSlot(b).Ok? {
        var v := BuildSlot(b).value;
        assert BuildSlots(bs).value == [];
        assert [v] + [] == [] + [v];
      }
    } else {
      var x, rest := bs[0], bs[1..];
      assert bs == [x] + rest;
      BuildSlotsCons(x, rest);
      BuildSlotsSnoc(rest, b);
      assert bs + [b] == [x] + (rest + [b]);
      BuildSlotsCons(x, rest + [b]);
      if BuildSlot(b).Ok? {
        AppendAssoc([BuildSlot(x).value], BuildSlots(rest).value, [BuildSlot(b).value]);
      }
    }
  }

  /** The error of the first of the first five batches that does not fit. */
  lemma CompleteImageError(bs: seq<Batch>, i: nat)
    requires i < Min(|bs|, 5) && BuildSlots(bs[..i]).Ok? && BuildSlot(bs[i]).Err?
    ensures CompleteImage(bs) == Err(BuildSlot(bs[i]).error)
  {
    var used := bs[..Min(|bs|, 5)];
    BuildSlotsSpec(bs[..i]);
    assert used[..i] == bs[..i];
    FirstError(used, i);
  }

  /** The image is 120 words: the control registers and everything after the
      last used slot are zero, and slot k holds batch k. */
  lemma ImageLayout(bs: seq<Batch>, k: nat)
    requires CompleteImage(bs).Ok?
    ensures var img := CompleteImage(bs).value;
            && |img| == 120
            && (forall j :: 0 <= j < 9 ==> img[j] == 0)
            && (forall j :: 9 + 20 * Min(|bs|, 5) <= j < 120 ==> img[j] == 0)
            && (k < Min(|bs|, 5) ==> img[9 + 20 * k..9 + 20 * (k + 1)] == SlotImage(bs[k]))
  {
    var used := bs[..Min(|bs|, 5)];
    BuildSlotsSpec(used);
    var slots := BuildSlots(used).value;
    ImageOfSlotsLayout(slots, k);
  }

  /** Copies one slot image to its place after the slots already written. */
  method PlaceSlot(all: array<int>, ghost slots: seq<seq<int>>, batchIdx: nat, slot: seq<int>)
    requires UniformSlots(slots) && |slots| == batchIdx < 5 && |slot| == 20
    requires all[..] == ImageOfSlots(slots)
    modifies all
    ensures UniformSlots(slots + [slot])
    ensures all[..] == ImageOfSlots(slots + [slot])
  {
    var startIdx := (BatchStartRegister - 1) + batchIdx * RegistersPerBatch;
    assert startIdx == 9 + 20 * batchIdx;
    ImageStep(slots, slot);
    PlaceWords(all, startIdx, slot);
  }

  /** `BatchRegisterBuilder.build_complete_register_array`. */
  method BuildCompleteRegisterArray(bs: seq<Batch>) returns (r: Result<seq<int>, IntegerError>)
    ensures r == CompleteImage(bs)
  {
    var all := new int[TotalRegisters](_ => 0);
    ghost var slots: seq<seq<int>> := [];
    for batchIdx := 0 to Min(|bs|, NumBatches)
      invariant |slots| == batchIdx && UniformSlots(slots)
      invariant BuildSlots(bs[..batchIdx]) == Ok(slots)
      invariant all[..] == ImageOfSlots(slots)
    {
      var batchRegisters := BuildBatchRegisters(bs[batchIdx]);
      BuildSlotsSnoc(bs[..batchIdx], bs[batchIdx]);
      if batchRegisters.Err? {
        CompleteImageError(bs, batchIdx);
        return Err(batchRegisters.error);
      }
      PlaceSlot(all, slots, batchIdx, batchRegisters.value);
      slots := slots + [batchRegisters.value];
      PrefixSnoc(bs, batchIdx);
    }
    r := Ok(all[..]);
  }

  // ---------------------------------------------------------------- reading a slot back

  /** The batch held by a slot of at least 20 words. */
  function SlotBatch(slot: seq<int>): (b: Batch)
    requires |slot| >= 20
    ensures b.batchIndex == slot[0] && b.status == slot[1] && b.printCount == slot[2]
    ensures Trimmed(b.batchCode) && Trimmed(b.dryerCode) && Trimmed(b.productionDate) && Trimmed(b.expiryDate)
    ensures |b.batchCode| <= 6 && |b.dryerCode| <= 6 && |b.productionDate| <= 12 && |b.expiryDate| <= 10
  {
    var code, dryer, prod, exp := slot[3..6], slot[6..9], slot[9..15], slot[15..20];
    assert |code| == 3 && |dryer| == 3 && |prod| == 6 && |exp| == 5;
    var c, d, p, e := DecodeString(code), DecodeString(dryer), DecodeString(prod), DecodeString(exp);
    Batch(slot[0], slot[1], slot[2], c, d, p, e)
  }

  /** The words of a slot read back: too few words is an error, a zero batch
      index marks an empty slot. */
  function DecodeSlot(slot: seq<int>): (r: Result<Option<Batch>, SlotError>)
    ensures r.Err? <==> |slot| < 20
    ensures r.Ok? ==> (r.value.None? <==> slot[0] == 0)
  {
    if |slot| < 20 then Err(InsufficientRegisters(|slot|))
    else if slot[0] == 0 then Ok(None)
    else Ok(Some(SlotBatch(slot)))
  }

  /** `BatchRegisterBuilder.extract_batch_from_registers`: slot n (1 to 5) of
      a full image, or the first 20 words when n is 0. */
  function ExtractBatch(regs: seq<int>, n: int): (r: Result<Option<Batch>, SlotError>)
    ensures r == Err(BatchNumberOutOfRange(n)) <==> n != 0 && !(1 <= n <= 5)
    ensures n == 0 ==> (r.Err? <==> |regs| < 20)
    ensures 1 <= n <= 5 ==> (r.Err? <==> |regs| < 9 + 20 * n)
  {
    if n != 0 && !(1 <= n <= 5) then Err(BatchNumberOutOfRange(n))
    else DecodeSlot(if n == 0 then PrefixSlice(regs, 20) else Slice(regs, 9 + 20 * (n - 1), 9 + 20 * n))
  }

  /** A batch the image can carry and give back unchanged: a non-zero index,
      integers that fit a word, and short, trimmed, NUL-free ASCII texts. */
  predicate Storable(b: Batch)
  {
    && 1 <= b.batchIndex <= 65535 && 0 <= b.status <= 65535 && 0 <= b.printCount <= 65535
    && IsAsciiNoNul(b.batchCode) && Trimmed(b.batchCode) && |b.batchCode| <= 5
    && IsAsciiNoNul(b.dryerCode) && Trimmed(b.dryerCode) && |b.dryerCode| <= 5
    && IsAsciiNoNul(b.productionDate) && Trimmed(b.productionDate) && |b.productionDate| <= 10
    && IsAsciiNoNul(b.expiryDate) && Trimmed(b.expiryDate) && |b.expiryDate| <= 10
  }

  /** Where the four text fields sit in a slot image. */
  lemma SlotFields(b: Batch)
    ensures var slot := SlotImage(b);
            && slot[0] == b.batchIndex && slot[1] == b.status && slot[2] == b.printCount
            && slot[3..6] == FieldWords(EncodeString(b.batchCode, 5), 3)
            && slot[6..9] == FieldWords(EncodeString(b.dryerCode, 5), 3)
            && slot[9..15] == FieldWords(EncodeString(b.productionDate, 10), 6)
            && slot[15..20] == FieldWords(EncodeString(b.expiryDate, 10), 5)
  {
    var head: seq<int> := [b.batchIndex, b.status, b.printCount];
    var f1 := FieldWords(EncodeString(b.batchCode, 5), 3);
    var f2 := FieldWords(EncodeString(b.dryerCode, 5), 3);
    var f3 := FieldWords(EncodeString(b.productionDate, 10), 6);
    var f4 := FieldWords(EncodeString(b.expiryDate, 10), 5);
    var slot := SlotImage(b);
    assert slot == head + f1 + f2 + f3 + f4;
    ConcatPart(head, f1, f2 + f3 + f4);
    ConcatPart(head + f1, f2, f3 + f4);
    ConcatPart(head + f1 + f2, f3, f4);
    assert slot[15..20] == f4;
  }

  /** Reading a slot back gives the batch that was written into it. */
  lemma SlotRoundTrip(b: Batch)
    requires Storable(b)
    ensures DecodeSlot(SlotImage(b)) == Ok(Some(b))
  {
    var slot := SlotImage(b);
    SlotFields(b);
    TextFieldRoundTrip(b.batchCode, 5, 3);
    TextFieldRoundTrip(b.dryerCode, 5, 3);
    TextFieldRoundTrip(b.productionDate, 10, 6);
    TextFieldRoundTrip(b.expiryDate, 10, 5);
    assert SlotBatch(slot) == b;
  }

  /** Storable batches always build an image. */
  lemma StorableBuilds(bs: seq<Batch>)
    requires forall k :: 0 <= k < |bs| ==> Storable(bs[k])
    ensures CompleteImage(bs).Ok?
  {
    var used := bs[..Min(|bs|, 5)];
    forall k | 0 <= k < |used|
      ensures IntegersFit(used[k])
    {
      assert used[k] == bs[k] && Storable(bs[k]);
    }
  }

  /** Slot k + 1 of an image holds the batch built into slot k. */
  lemma ImageSlotFilled(bs: seq<Batch>, k: nat)
    requires CompleteImage(bs).Ok? && k < |bs| && k < 5 && Storable(bs[k])
    ensures ExtractBatch(CompleteImage(bs).value, k + 1) == Ok(Some(bs[k]))
  {
    var img := CompleteImage(bs).value;
    ImageLayout(bs, k);
    var slot := img[9 + 20 * k..9 + 20 * (k + 1)];
    assert ExtractBatch(img, k + 1) == DecodeSlot(slot);
    SlotRoundTrip(bs[k]);
  }

  /** A slot past the batches given is empty. */
  lemma ImageSlotEmpty(bs: seq<Batch>, k: nat)
    requires CompleteImage(bs).Ok? && |bs| <= k < 5
    ensures ExtractBatch(CompleteImage(bs).value, k + 1) == Ok(None)
  {
    var img := CompleteImage(bs).value;
    ImageLayout(bs, k);
    var slot := img[9 + 20 * k..9 + 20 * (k + 1)];
    assert 9 + 20 * Min(|bs|, 5) <= 9 + 20 * k;
    assert slot[0] == img[9 + 20 * k] == 0;
    assert |slot| == 20 && DecodeSlot(slot) == Ok(None);
    assert ExtractBatch(img, k + 1) == DecodeSlot(slot);
  }

  /** Slot n of the image built from storable batches gives back batch n, or
      nothing when fewer than n batches were given. */
  lemma ImageRoundTrip(bs: seq<Batch>, n: int)
    requires forall k :: 0 <= k < |bs| ==> Storable(bs[k])
    requires 1 <= n <= 5
    ensures CompleteImage(bs).Ok?
    ensures ExtractBatch(CompleteImage(bs).value, n) == if n <= |bs| then Ok(Some(bs[n - 1])) else Ok(None)
  {
    StorableBuilds(bs);
    if n <= |bs| {
      ImageSlotFilled(bs, n - 1);
    } else {
      ImageSlotEmpty(bs, n - 1);
    }
  }
}
