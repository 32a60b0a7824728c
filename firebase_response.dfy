/** The normalisation half of the cloud client (communication/firebase_client.py):
    a decoded response becomes at most five batch records, each with exactly
    the seven batch keys, numbers defaulted and clamped, texts truncated. */
module FirebaseResponse {
  import opened Base
  import opened Values

  /** Why `_process_response` raised FirebaseException: the document is
      neither a list nor a dict. */
  datatype ResponseError = UnexpectedType(v: Value)

  /** Why `_validate_batch_entry` raised for entry `index`; the entry is skipped. */
  datatype EntryRejection = NotADictionary(index: nat, v: Value)

  const NumericFields: seq<string> := ["batchIndex", "status", "printCount"]

  /** The text fields, in the order they are cut. */
  const TextFields: seq<string> := ["batchCode", "dryerCode", "productionDate", "expiryDate"]

  /** The keys of a normalised batch, in the order the entry is filled. */
  const RequiredFields: seq<string> := NumericFields + TextFields

  lemma FieldKindsDisjoint()
    ensures forall k :: k in TextFields ==> k !in NumericFields
  {
  }

  /** The default of a required field: 0 for a number, '' for a text. */
  function DefaultOf(field: string): Value
  {
    if field in NumericFields then VInt(0) else VStr("")
  }

  /** The length a text field is cut to. */
  function MaxLength(field: string): nat
  {
    if field == "productionDate" || field == "expiryDate" then 10 else 5
  }

  /** Python's `int(batch.get(field, 0))`, or 0 where that raises. */
  function RawNumber(d: Record, field: string): int
  {
    match ToInt(Get(d, field, VInt(0)))
    case Some(i) => i
    case None => 0
  }

  /** Python's `str(batch.get(field, ''))`, or '' for a None value. */
  function RawText(d: Record, field: string): string
  {
    var v := Get(d, field, VStr(""));
    if v.VNone? then "" else ToStr(v)
  }

  /** The value one required field takes in the new dict. */
  function FieldValue(d: Record, field: string): Value
  {
    var value := Get(d, field, DefaultOf(field));
    if field in NumericFields then
      match ToInt(value)
      case Some(i) => VInt(i)
      case None => DefaultOf(field)
    else if value.VNone? then DefaultOf(field)
    else VStr(ToStr(value))
  }

  /** The dict `_validate_batch_entry` has filled after the fields `fs`:
      exactly those keys, each with the value read for it. */
  function FillFields(d: Record, fs: seq<string>): (r: Record)
    ensures forall k :: k in r <==> k in fs
    ensures forall k :: k in fs ==> r[k] == FieldValue(d, k)
  {
    if fs == [] then map[]
    else
      var init := fs[..|fs| - 1];
      assert fs == init + [fs[|fs| - 1]];
      FillFields(d, init)[fs[|fs| - 1] := FieldValue(d, fs[|fs| - 1])]
  }

  predicate NumericAt(b: Record, f: string) { f in b && b[f].VInt? }

  predicate TextAt(b: Record, f: string) { f in b && b[f].VStr? }

  /** The key types `_validate_batch_values` relies on. */
  predicate BatchShape(b: Record)
  {
    && (forall k :: k in NumericFields ==> NumericAt(b, k))
    && (forall k :: k in TextFields ==> TextAt(b, k))
  }

  /** The numeric half of `_validate_batch_values`: a status outside 0..4
      becomes 0, a print count is clamped to 0..65535; the batch index is
      only logged. */
  function CheckNumbers(b: Record): (r: Record)
    requires BatchShape(b)
    ensures NumericAt(b, "status") && NumericAt(b, "printCount") && NumericAt(r, "status") && NumericAt(r, "printCount")
    ensures BatchShape(r) && r.Keys == b.Keys
    ensures forall k :: k in b && k != "status" && k != "printCount" ==> r[k] == b[k]
    ensures var s := b["status"].i; r["status"].i == if 0 <= s <= 4 then s else 0
    ensures var c := b["printCount"].i; r["printCount"].i == Max(0, Min(65535, c))
  {
    assert NumericFields[1] == "status" && NumericFields[2] == "printCount";
    assert "status" in NumericFields && "printCount" in NumericFields;
    var status := b["status"].i;
    var b1 := if !(0 <= status <= 4) then b["status" := VInt(0)] else b;
    var count := b1["printCount"].i;
    if !(0 <= count <= 65535) then b1["printCount" := VInt(Max(0, Min(65535, count)))] else b1
  }

  /** A text value cut to `m` characters, as `value[:m]` when longer. */
  function Cut(v: Value, m: nat): Value
  {
    if v.VStr? && |v.s| > m then VStr(v.s[..m]) else v
  }

  /** The record after cutting the texts `fs` one at a time: each named
      field cut once, from its original value, every other key alone. */
  function TruncateFields(b: Record, fs: seq<string>): (r: Record)
    ensures r.Keys == b.Keys
    ensures forall k :: k in b ==> r[k] == if k in fs then Cut(b[k], MaxLength(k)) else b[k]
  {
    if fs == [] then b
    else
      var init := fs[..|fs| - 1];
      assert fs == init + [fs[|fs| - 1]];
      var s := TruncateFields(b, init);
      var f := fs[|fs| - 1];
      if f in s && s[f].VStr? && |s[f].s| > MaxLength(f) then s[f := VStr(s[f].s[..MaxLength(f)])] else s
  }

  /** One more field cut. */
  lemma TruncateStep(b: Record, fs: seq<string>, k: nat)
    requires k < |fs|
    ensures var s := TruncateFields(b, fs[..k]);
            var f := fs[k];
            TruncateFields(b, fs[..k + 1]) ==
              if f in s && s[f].VStr? && |s[f].s| > MaxLength(f) then s[f := VStr(s[f].s[..MaxLength(f)])] else s
  {
    assert fs[..k + 1][..k] == fs[..k];
  }

  /** What `_validate_batch_values` leaves in the dict. */
  function ValuesChecked(b: Record): Record
    requires BatchShape(b)
  {
    TruncateFields(CheckNumbers(b), TextFields)
  }

  /** `FirebaseClient._validate_batch_values`, which rewrites the dict in place. */
  method ValidateBatchValues(batch: Record) returns (out: Record)
    requires BatchShape(batch)
    ensures out == ValuesChecked(batch)
  {
    out := batch;
    assert NumericFields[1] == "status" && NumericFields[2] == "printCount";
    assert "status" in NumericFields && "printCount" in NumericFields;
    var status := out["status"].i;
    if !(0 <= status <= 4) {
      out := out["status" := VInt(0)];
    }
    var printCount := out["printCount"].i;
    if !(0 <= printCount <= 65535) {
      out := out["printCount" := VInt(Max(0, Min(65535, printCount)))];
    }
    assert out == CheckNumbers(batch);
    out := CutTexts(out);
  }

  /** The loop of `_validate_batch_values` over the text fields and their
      maximum lengths. */
  method CutTexts(checked: Record) returns (out: Record)
    ensures out == TruncateFields(checked, TextFields)
  {
    out := checked;
    for k := 0 to |TextFields|
      invariant out == TruncateFields(checked, TextFields[..k])
    {
      TruncateStep(checked, TextFields, k);
      var field := TextFields[k];
      var maxLength := MaxLength(field);
      if field in out {
        var value := out[field];
        if value.VStr? && |value.s| > maxLength {
          out := out[field := VStr(value.s[..maxLength])];
        }
      }
    }
    assert TextFields[..4] == TextFields;
  }

  /** One more field filled. */
  lemma FillStep(d: Record, fs: seq<string>, k: nat)
    requires k < |fs|
    ensures FillFields(d, fs[..k + 1]) == FillFields(d, fs[..k])[fs[k] := FieldValue(d, fs[k])]
  {
    assert fs[..k + 1][..k] == fs[..k];
  }

  /** Filling the required fields gives a dict of the shape the value check needs. */
  lemma FilledShape(d: Record)
    ensures BatchShape(FillFields(d, RequiredFields))
  {
    FieldKindsDisjoint();
  }

  /** The dict `_validate_batch_entry` returns for a dictionary entry. */
  function Normalized(d: Record): (r: Record)
    ensures forall k :: k in r <==> k in RequiredFields
  {
    FilledShape(d);
    ValuesChecked(FillFields(d, RequiredFields))
  }

  /** What `_validate_batch_entry` returns or raises. */
  function NormalizeEntry(e: Entry, index: nat): (r: Result<Record, EntryRejection>)
    ensures r.Err? <==> e.NonObject?
  {
    match e
    case NonObject(v) => Err(NotADictionary(index, v))
    case Object(d) => Ok(Normalized(d))
  }

  /** `FirebaseClient._validate_batch_entry`: fill a new dict field by field,
      then check its values. */
  method ValidateBatchEntry(e: Entry, index: nat) returns (r: Result<Record, EntryRejection>)
    ensures r == NormalizeEntry(e, index)
  {
    if e.NonObject? {
      return Err(NotADictionary(index, e.v));
    }
    var batch := e.fields;
    var validated: Record := map[];
    for k := 0 to |RequiredFields|
      invariant validated == FillFields(batch, RequiredFields[..k])
    {
      FillStep(batch, RequiredFields, k);
      var field := RequiredFields[k];
      var default := DefaultOf(field);
      var value := Get(batch, field, default);
      if field in NumericFields {
        var n := ToInt(value);
        if n.Some? {
          validated := validated[field := VInt(n.value)];
        } else {
          validated := validated[field := default];
        }
      } else {
        validated := validated[field := if !value.VNone? then VStr(ToStr(value)) else default];
      }
    }
    assert RequiredFields[..7] == RequiredFields;
    FilledShape(batch);
    var checked := ValidateBatchValues(validated);
    return Ok(checked);
  }

  /** A required field takes the number or text read from the entry. */
  lemma FieldValueRaw(d: Record, f: string)
    ensures f in NumericFields ==> FieldValue(d, f) == VInt(RawNumber(d, f))
    ensures f in TextFields ==> FieldValue(d, f) == VStr(RawText(d, f))
  {
    FieldKindsDisjoint();
  }

  /** A record as `_validate_batch_entry` leaves it: exactly the seven keys,
      numbers at the numeric keys, a status that is a batch state, a print
      count that fits a word, and texts within their lengths. */
  ghost predicate Normalised(r: Record)
  {
    && (forall k :: k in r <==> k in RequiredFields)
    && BatchShape(r)
    && NumericAt(r, "status") && 0 <= r["status"].i <= 4
    && NumericAt(r, "printCount") && 0 <= r["printCount"].i <= 65535
    && (forall k :: k in TextFields ==> TextAt(r, k) && |r[k].s| <= MaxLength(k))
  }

  /** Each key of the record `_validate_batch_entry` returns, from the value read for it. */
  lemma NormalizedParts(d: Record)
    ensures var filled := FillFields(d, RequiredFields);
            BatchShape(filled) &&
            forall k :: k in RequiredFields ==>
              Normalized(d)[k] == if k in TextFields then Cut(filled[k], MaxLength(k)) else CheckNumbers(filled)[k]
  {
    FilledShape(d);
    FieldKindsDisjoint();
    assert "status" in NumericFields && "printCount" in NumericFields;
  }

  /** `_validate_batch_entry` keeps the batch index as read, even out of
      range, resets a status outside 0..4 to 0 and clamps the print count. */
  lemma NormalizedNumbers(d: Record)
    ensures var r := Normalized(d);
            && NumericAt(r, "batchIndex") && r["batchIndex"].i == RawNumber(d, "batchIndex")
            && NumericAt(r, "status") && NumericAt(r, "printCount")
            && (0 <= RawNumber(d, "status") <= 4 ==> r["status"].i == RawNumber(d, "status"))
            && (!(0 <= RawNumber(d, "status") <= 4) ==> r["status"].i == 0)
            && (0 <= RawNumber(d, "printCount") <= 65535 ==> r["printCount"].i == RawNumber(d, "printCount"))
            && (RawNumber(d, "printCount") < 0 ==> r["printCount"].i == 0)
            && (RawNumber(d, "printCount") > 65535 ==> r["printCount"].i == 65535)
  {
    NormalizedParts(d);
    FieldKindsDisjoint();
    assert "batchIndex" in NumericFields && "status" in NumericFields && "printCount" in NumericFields;
    assert "batchIndex" in RequiredFields && "status" in RequiredFields && "printCount" in RequiredFields;
    assert "batchIndex" !in TextFields && "status" !in TextFields && "printCount" !in TextFields;
    FieldValueRaw(d, "batchIndex");
    FieldValueRaw(d, "status");
    FieldValueRaw(d, "printCount");
  }

  /** A text cut to `m` characters is its prefix of length min(len, m). */
  lemma CutText(t: string, m: nat)
    ensures var v := Cut(VStr(t), m);
            v.VStr? && |v.s| == Min(|t|, m) && v.s == t[..|v.s|]
  {
  }

  /** One text key of the record `_validate_batch_entry` returns: the text
      read for it, cut to its length. */
  lemma NormalizedText(d: Record, k: string)
    requires k in TextFields
    ensures var r := Normalized(d);
            && TextAt(r, k)
            && |r[k].s| == Min(|RawText(d, k)|, MaxLength(k))
            && r[k].s == RawText(d, k)[..|r[k].s|]
  {
    var filled := FillFields(d, RequiredFields);
    FilledShape(d);
    assert k in RequiredFields && k != "status" && k != "printCount";
    FieldValueRaw(d, k);
    assert CheckNumbers(filled)[k] == VStr(RawText(d, k));
    assert Normalized(d)[k] == Cut(VStr(RawText(d, k)), MaxLength(k));
    CutText(RawText(d, k), MaxLength(k));
  }

  /** `_validate_batch_entry` truncates each text to its length, without
      stripping it. */
  lemma NormalizedTexts(d: Record)
    ensures var r := Normalized(d);
            forall k :: k in TextFields ==>
              && TextAt(r, k)
              && |r[k].s| == Min(|RawText(d, k)|, MaxLength(k))
              && r[k].s == RawText(d, k)[..|r[k].s|]
  {
    forall k | k in TextFields
      ensures var r := Normalized(d);
              && TextAt(r, k)
              && |r[k].s| == Min(|RawText(d, k)|, MaxLength(k))
              && r[k].s == RawText(d, k)[..|r[k].s|]
    {
      NormalizedText(d, k);
    }
  }

  /** The record `_validate_batch_entry` returns has numbers at the numeric
      keys and texts at the text keys. */
  lemma NormalizedShape(d: Record)
    ensures BatchShape(Normalized(d))
  {
    var filled := FillFields(d, RequiredFields);
    FilledShape(d);
    var c := CheckNumbers(filled);
    assert Normalized(d) == TruncateFields(c, TextFields);
    FieldKindsDisjoint();
  }

  /** The record `_validate_batch_entry` returns is normalised. */
  lemma NormalizedIsNormalised(d: Record)
    ensures Normalised(Normalized(d))
  {
    NormalizedShape(d);
    NormalizedNumbers(d);
    NormalizedTexts(d);
  }

  /** A text of a normalised record comes back unchanged. */
  lemma FixedText(r: Record, k: string)
    requires Normalised(r) && k in TextFields
    ensures Normalized(r)[k] == r[k]
  {
    NormalizedShape(r);
    NormalizedTexts(r);
    assert RawText(r, k) == r[k].s;
  }

  /** A number of a normalised record comes back unchanged. */
  lemma FixedNumber(r: Record, k: string)
    requires Normalised(r) && k in NumericFields
    ensures Normalized(r)[k] == r[k]
  {
    NormalizedShape(r);
    NormalizedNumbers(r);
    assert NumericFields == ["batchIndex", "status", "printCount"];
  }

  /** A normalised record comes back unchanged. */
  lemma NormalisedFixed(r: Record)
    requires Normalised(r)
    ensures Normalized(r) == r
  {
    forall k | k in RequiredFields
      ensures Normalized(r)[k] == r[k]
    {
      if k in TextFields {
        FixedText(r, k);
      } else {
        FixedNumber(r, k);
      }
    }
  }

  /** Normalising twice is normalising once. */
  lemma NormalizeIdempotent(d: Record)
    ensures Normalized(Normalized(d)) == Normalized(d)
  {
    NormalizedIsNormalised(d);
    NormalisedFixed(Normalized(d));
  }

  /** The entries of a response: a list as given, a dict as a list of one. */
  function ResponseEntries(p: Payload): (r: Result<seq<Entry>, ResponseError>)
    ensures r.Err? <==> p.Scalar?
  {
    match p
    case Array(es) => Ok(es)
    case Single(d) => Ok([Object(d)])
    case Scalar(v) => Err(UnexpectedType(v))
  }

  /** `f` of the fields of every dictionary entry, in order; other entries
      are dropped. */
  function Keep<R>(es: seq<Entry>, f: Record -> R): (r: seq<R>)
    ensures |r| <= |es|
  {
    if es == [] then []
    else
      var last := es[|es| - 1];
      Keep(es[..|es| - 1], f) + if last.Object? then [f(last.fields)] else []
  }

  /** The records of the entries that pass `_validate_batch_entry`, in order. */
  function Kept(es: seq<Entry>): (r: seq<Record>)
    ensures |r| <= |es|
  {
    Keep(es, Normalized)
  }

  /** What `_process_response` returns or raises. */
  function ProcessedResponse(p: Payload): (r: Result<seq<Record>, ResponseError>)
    ensures r.Err? <==> p.Scalar?
    ensures r.Ok? ==> |r.value| <= 5
  {
    match ResponseEntries(p)
    case Err(e) => Err(e)
    case Ok(es) => if |es| == 0 then Ok([]) else Ok(Kept(PrefixSlice(es, 5)))
  }

  /** `FirebaseClient._process_response`: wrap a dict, reject anything that
      is not a list, keep the first five entries that validate. */
  method ProcessResponse(p: Payload) returns (r: Result<seq<Record>, ResponseError>)
    ensures r == ProcessedResponse(p)
  {
    var entries: seq<Entry>;
    match p {
      case Array(es) => entries := es;
      case Single(d) => entries := [Object(d)];
      case Scalar(v) => return Err(UnexpectedType(v));
    }
    if |entries| == 0 {
      return Ok([]);
    }
    var validated := ValidateEntries(PrefixSlice(entries, 5));
    return Ok(validated);
  }

  /** The loop of `_process_response`: validate each entry, skip the ones
      that raise. */
  method ValidateEntries(batchEntries: seq<Entry>) returns (validated: seq<Record>)
    ensures validated == Kept(batchEntries)
  {
    validated := [];
    for i := 0 to |batchEntries|
      invariant validated == Keep(batchEntries[..i], Normalized)
    {
      PrefixSnoc(batchEntries, i);
      var entry := ValidateBatchEntry(batchEntries[i], i);
      if entry.Ok? {
        validated := validated + [entry.value];
      }
    }
    assert batchEntries[..|batchEntries|] == batchEntries;
  }

  /** Entries are kept in their order: what two runs of entries give is what
      each gives, one after the other. */
  lemma {:induction false} KeepAppend<R>(a: seq<Entry>, b: seq<Entry>, f: Record -> R)
    ensures Keep(a + b, f) == Keep(a, f) + Keep(b, f)
    decreases |b|
  {
    if b != [] {
      var init := b[..|b| - 1];
      assert (a + b)[..|a + b| - 1] == a + init;
      assert (a + b)[|a + b| - 1] == b[|b| - 1];
      KeepAppend(a, init, f);
      AppendAssoc(Keep(a, f), Keep(init, f), if b[|b| - 1].Object? then [f(b[|b| - 1].fields)] else []);
    } else {
      assert a + b == a;
    }
  }

  /** A list of dictionaries keeps every entry. */
  lemma {:induction false} KeepObjects<R>(es: seq<Entry>, f: Record -> R)
    requires forall i :: 0 <= i < |es| ==> es[i].Object?
    ensures |Keep(es, f)| == |es|
    ensures forall i :: 0 <= i < |es| ==> Keep(es, f)[i] == f(es[i].fields)
  {
    if es != [] {
      KeepObjects(es[..|es| - 1], f);
    }
  }

  /** Every kept value satisfies what `f` guarantees. */
  lemma {:induction false} KeepAll<R>(es: seq<Entry>, f: Record -> R, good: R -> bool)
    requires forall d :: good(f(d))
    ensures forall i :: 0 <= i < |Keep(es, f)| ==> good(Keep(es, f)[i])
  {
    if es != [] {
      KeepAll(es[..|es| - 1], f, good);
    }
  }

  /** Every record of a response is normalised. */
  lemma ProcessedNormalised(p: Payload)
    requires ProcessedResponse(p).Ok?
    ensures forall i :: 0 <= i < |ProcessedResponse(p).value| ==> Normalised(ProcessedResponse(p).value[i])
  {
    forall d
      ensures Normalised(Normalized(d))
    {
      NormalizedIsNormalised(d);
    }
    KeepAll(PrefixSlice(ResponseEntries(p).value, 5), Normalized, Normalised);
  }

  /** A single dict comes back as a list of one normalised record; an empty
      list as an empty list. */
  lemma ProcessSingle(p: Payload)
    ensures p.Single? ==> ProcessedResponse(p) == Ok([Normalized(p.fields)])
    ensures p == Array([]) ==> ProcessedResponse(p) == Ok([])
  {
    if p.Single? {
      var es := [Object(p.fields)];
      assert PrefixSlice(es, 5) == es;
      assert Keep(es, Normalized) == Keep([], Normalized) + [Normalized(p.fields)] by {
        assert es[..0] == [];
      }
      assert Keep(es, Normalized) == [Normalized(p.fields)];
      assert ProcessedResponse(p) == Ok(Kept(es));
    }
  }
}
