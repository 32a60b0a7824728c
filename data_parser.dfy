/** Normalising cloud batch entries, placing them in the five controller
    positions, converting them to the register image, and preparing one
    batch for the printheads (processing/data_parser.py, class DataParser). */
module DataParser {
  import opened Base
  import opened Values
  import opened Enums
  import opened Registers
  import RegisterValidator

  // ---------------------------------------------------------------- one cloud entry

  /** Why one cloud entry was rejected (a DataValidationException). */
  datatype EntryError =
    | NotADictionary(v: Value)
    | FieldMissing(field: string)
    | NotInteger(field: string, raw: Value)
    | FieldOutOfRange(field: string, lo: int, hi: int, found: int)
    | InvalidPrintCount(count: int)
    | EmptyActiveField(field: string)

  /** The value `data.get(field, default)` gives for an optional integer default. */
  function DefaultValue(default: Option<int>): Value
  {
    if default.Some? then VInt(default.value) else VNone
  }

  /** `int(v)` succeeds and lands in lo..hi. */
  predicate InRangeInt(v: Value, lo: int, hi: int)
  {
    ToInt(v).Some? && lo <= ToInt(v).value <= hi
  }

  /** `_parse_integer_field`: a present None is always missing; without a
      default a bad value is an error, with an in-range default it falls back. */
  function ParseIntegerField(data: Record, field: string, lo: int, hi: int, default: Option<int>)
    : (r: Result<int, EntryError>)
    ensures Get(data, field, DefaultValue(default)) == VNone ==> r == Err(FieldMissing(field))
    ensures (default.None? || lo <= default.value <= hi) && r.Ok? ==> lo <= r.value <= hi
    ensures default.None? ==> (r.Ok? <==> field in data && InRangeInt(data[field], lo, hi))
    ensures default.Some? && lo <= default.value <= hi ==> (r.Err? <==> field in data && data[field] == VNone)
    ensures r.Ok? && field in data && InRangeInt(data[field], lo, hi) ==> r.value == ToInt(data[field]).value
    ensures default.Some? && lo <= default.value <= hi && r.Ok? && !(field in data && InRangeInt(data[field], lo, hi))
            ==> r.value == default.value
  {
    var value := Get(data, field, DefaultValue(default));
    if value == VNone then Err(FieldMissing(field))
    else
      match ToInt(value)
      case None =>
        if default.Some? then Ok(default.value) else Err(NotInteger(field, value))
      case Some(i) =>
        if !(lo <= i <= hi) then
          if default.Some? && lo <= default.value <= hi then Ok(default.value)
          else Err(FieldOutOfRange(field, lo, hi, i))
        else Ok(i)
  }

  /** `str(data.get(field, default))`, a present None counting as the default. */
  function FieldText(data: Record, field: string, default: string): string
  {
    var v := Get(data, field, VStr(default));
    if v == VNone then default else ToStr(v)
  }

  /** `_parse_string_field`: the text stripped, then cut to `maxLength` characters. */
  function ParseStringField(data: Record, field: string, maxLength: nat, default: string): (r: string)
    ensures |r| <= maxLength
    ensures r <= Strip(FieldText(data, field, default))
    ensures |Strip(FieldText(data, field, default))| <= maxLength ==> r == Strip(FieldText(data, field, default))
    ensures maxLength > 0 && !AllSpace(FieldText(data, field, default)) ==> r != [] && !IsSpace(r[0])
  {
    var s := Strip(FieldText(data, field, default));
    if |s| > maxLength then s[..maxLength] else s
  }

  /** `_validate_batch_business_rules`: the print count must fit, and a batch
      that is printing or was printed last needs all four texts. An unusual
      batch index is only logged. */
  function BusinessRuleError(b: Batch): (r: Option<EntryError>)
    ensures r.None? <==>
      && ValidPrintCount(b.printCount)
      && (b.status == 2 || b.status == 3 ==>
            !AllSpace(b.batchCode) && !AllSpace(b.dryerCode)
            && !AllSpace(b.productionDate) && !AllSpace(b.expiryDate))
  {
    if !ValidPrintCount(b.printCount) then Some(InvalidPrintCount(b.printCount))
    else if b.status == CurrentPrinting.Code() || b.status == LastPrinted.Code() then
      if Strip(b.batchCode) == [] then Some(EmptyActiveField("batchCode"))
      else if Strip(b.dryerCode) == [] then Some(EmptyActiveField("dryerCode"))
      else if Strip(b.productionDate) == [] then Some(EmptyActiveField("productionDate"))
      else if Strip(b.expiryDate) == [] then Some(EmptyActiveField("expiryDate"))
      else None
    else None
  }

  /** What every batch that survives parsing looks like. */
  predicate ParsedShape(b: Batch)
  {
    && 1001 <= b.batchIndex <= 99999 && 0 <= b.status <= 4 && 0 <= b.printCount <= 65535
    && |b.batchCode| <= 5 && |b.dryerCode| <= 5 && |b.productionDate| <= 10 && |b.expiryDate| <= 10
    && (b.status == 2 || b.status == 3 ==>
          b.batchCode != [] && b.dryerCode != [] && b.productionDate != [] && b.expiryDate != [])
  }

  /** The fields of a dictionary entry, parsed in the order index, status,
      count, the four texts, then the business rules. */
  function ParseFields(data: Record): (r: Result<Batch, EntryError>)
    ensures r.Ok? ==> ParsedShape(r.value)
    ensures r.Ok? ==> "batchIndex" in data && InRangeInt(data["batchIndex"], 1001, 99999)
                      && r.value.batchIndex == ToInt(data["batchIndex"]).value
    ensures (("status" in data && data["status"] == VNone)
             || ("printCount" in data && data["printCount"] == VNone)) ==> r.Err?
    ensures r.Ok? ==> (r.value.status ==
      if "status" in data && InRangeInt(data["status"], 0, 4) then ToInt(data["status"]).value else 0)
    ensures r.Ok? ==> (r.value.printCount ==
      if "printCount" in data && InRangeInt(data["printCount"], 0, 65535) then ToInt(data["printCount"]).value else 0)
  {
    var index := ParseIntegerField(data, "batchIndex", 1001, 99999, None);
    var status := ParseIntegerField(data, "status", 0, 4, Some(0));
    var count := ParseIntegerField(data, "printCount", 0, 65535, Some(0));
    if index.Err? then Err(index.error)
    else if status.Err? then Err(status.error)
    else if count.Err? then Err(count.error)
    else
      var b := Batch(index.value, status.value, count.value,
                     ParseStringField(data, "batchCode", 5, ""),
                     ParseStringField(data, "dryerCode", 5, ""),
                     ParseStringField(data, "productionDate", 10, ""),
                     ParseStringField(data, "expiryDate", 10, ""));
      match BusinessRuleError(b)
      case Some(e) => Err(e)
      case None => Ok(b)
  }

  /** `_parse_single_batch_entry`: anything but a dictionary is rejected. */
  function ParseEntry(e: Entry): (r: Result<Batch, EntryError>)
    ensures e.NonObject? ==> r == Err(NotADictionary(e.v))
    ensures r.Ok? ==> ParsedShape(r.value)
  {
    match e
    case NonObject(v) => Err(NotADictionary(v))
    case Object(data) => ParseFields(data)
  }

  /** A parsed batch passes `validate_batch_data`. */
  lemma ParsedBatchValidates(e: Entry)
    requires ParseEntry(e).Ok?
    ensures RegisterValidator.BatchDataErrors(ToRecord(ParseEntry(e).value)) == []
  {
    RegisterValidator.ValidFieldsValidate(ParseEntry(e).value);
  }

  // ---------------------------------------------------------------- the cloud list

  /** Why the whole cloud list was rejected. */
  datatype ParseFailure = NotAList | AllEntriesFailed(errors: seq<(nat, EntryError)>)

  /** The batches parsed from the entries that did not fail, in input order. */
  function Survivors(es: seq<Entry>): (s: seq<Batch>)
    ensures |s| <= |es|
    ensures forall k :: 0 <= k < |s| ==> ParsedShape(s[k])
  {
    if es == [] then []
    else
      var rest := Survivors(es[..|es| - 1]);
      match ParseEntry(es[|es| - 1])
      case Ok(b) => rest + [b]
      case Err(_) => rest
  }

  /** The position and error of each entry that failed, in input order. */
  function Failures(es: seq<Entry>): seq<(nat, EntryError)>
  {
    if es == [] then []
    else
      var rest := Failures(es[..|es| - 1]);
      match ParseEntry(es[|es| - 1])
      case Ok(_) => rest
      case Err(e) => rest + [(|es| - 1, e)]
  }

  /** Every entry either survives or is reported. */
  lemma {:induction false} SurvivorsAndFailures(es: seq<Entry>)
    ensures |Survivors(es)| + |Failures(es)| == |es|
  {
    if es != [] {
      SurvivorsAndFailures(es[..|es| - 1]);
    }
  }

  /** Parsing keeps input order: the survivors of a concatenation are the
      survivors of each part, one after the other. */
  lemma {:induction false} SurvivorsAppend(a: seq<Entry>, b: seq<Entry>)
    ensures Survivors(a + b) == Survivors(a) + Survivors(b)
  {
    if b == [] {
      assert a + b == a;
    } else {
      var init := b[..|b| - 1];
      assert (a + b)[..|a + b| - 1] == a + init;
      assert (a + b)[|a + b| - 1] == b[|b| - 1];
      SurvivorsAppend(a, init);
      match ParseEntry(b[|b| - 1])
      case Ok(x) =>
        AppendAssoc(Survivors(a), Survivors(init), [x]);
      case Err(_) =>
    }
  }

  /** What `parse_firebase_data` returns or raises. */
  function ParseAll(p: Payload): (r: Result<seq<Batch>, ParseFailure>)
    ensures p == Array([]) ==> r == Ok([])
    ensures r.Err? <==> !p.Array? || (p.entries != [] && Survivors(p.entries) == [])
    ensures r.Ok? ==> r.value == Survivors(p.entries)
  {
    match p
    case Array(es) =>
      SurvivorsAndFailures(es);
      var parsed := Survivors(es);
      var errors := Failures(es);
      if errors != [] && parsed == [] then Err(AllEntriesFailed(errors)) else Ok(parsed)
    case _ => Err(NotAList)
  }

  /** `DataParser.parse_firebase_data`. */
  method ParseFirebaseData(p: Payload) returns (r: Result<seq<Batch>, ParseFailure>)
    ensures r == ParseAll(p)
  {
    if !p.Array? {
      return Err(NotAList);
    }
    var es := p.entries;
    var parsed: seq<Batch> := [];
    var errors: seq<(nat, EntryError)> := [];
    for i := 0 to |es|
      invariant parsed == Survivors(es[..i]) && errors == Failures(es[..i])
    {
      PrefixSnoc(es, i);
      assert es[..i + 1][..i] == es[..i];
      match ParseEntry(es[i])
      case Ok(b) =>
        parsed := parsed + [b];
      case Err(e) =>
        errors := errors + [(i, e)];
    }
    assert es[..|es|] == es;
    if errors != [] && parsed == [] {
      return Err(AllEntriesFailed(errors));
    }
    return Ok(parsed);
  }

  // ---------------------------------------------------------------- newest first

  /** Inserts `b` in front of the first batch whose index is not larger. */
  function InsertDesc(b: Batch, s: seq<Batch>): (r: seq<Batch>)
    ensures |r| == |s| + 1
    ensures multiset(r) == multiset(s) + multiset{b}
  {
    if s == [] || s[0].batchIndex <= b.batchIndex then [b] + s
    else
      assert s == [s[0]] + s[1..];
      [s[0]] + InsertDesc(b, s[1..])
  }

  /** `sorted(batches, key=batchIndex, reverse=True)`. */
  function SortByIndexDesc(s: seq<Batch>): (r: seq<Batch>)
    ensures |r| == |s|
    ensures multiset(r) == multiset(s)
  {
    if s == [] then []
    else
      assert s == [s[0]] + s[1..];
      InsertDesc(s[0], SortByIndexDesc(s[1..]))
  }

  predicate Descending(s: seq<Batch>)
  {
    forall i, j :: 0 <= i < j < |s| ==> s[i].batchIndex >= s[j].batchIndex
  }

  /** The batches of `s` with index k, in their order in `s`. */
  function WithIndex(s: seq<Batch>, k: int): seq<Batch>
  {
    if s == [] then []
    else (if s[0].batchIndex == k then [s[0]] else []) + WithIndex(s[1..], k)
  }

  /** Inserting an index no larger than a bound keeps every index under it. */
  lemma {:induction false} InsertBounded(b: Batch, s: seq<Batch>, m: int)
    requires b.batchIndex <= m && forall i :: 0 <= i < |s| ==> s[i].batchIndex <= m
    ensures forall i :: 0 <= i < |InsertDesc(b, s)| ==> InsertDesc(b, s)[i].batchIndex <= m
  {
    if s != [] && s[0].batchIndex > b.batchIndex {
      InsertBounded(b, s[1..], m);
    }
  }

  lemma {:induction false} InsertDescending(b: Batch, s: seq<Batch>)
    requires Descending(s)
    ensures Descending(InsertDesc(b, s))
  {
    if s != [] && s[0].batchIndex > b.batchIndex {
      InsertDescending(b, s[1..]);
      InsertBounded(b, s[1..], s[0].batchIndex);
    }
  }

  /** The sort orders by descending index. */
  lemma {:induction false} SortedDescending(s: seq<Batch>)
    ensures Descending(SortByIndexDesc(s))
  {
    if s != [] {
      SortedDescending(s[1..]);
      InsertDescending(s[0], SortByIndexDesc(s[1..]));
    }
  }

  lemma WithIndexCons(x: Batch, t: seq<Batch>, k: int)
    ensures WithIndex([x] + t, k) == (if x.batchIndex == k then [x] else []) + WithIndex(t, k)
  {
    assert ([x] + t)[0] == x && ([x] + t)[1..] == t;
  }

  lemma {:induction false} InsertStable(b: Batch, s: seq<Batch>, k: int)
    ensures WithIndex(InsertDesc(b, s), k) == WithIndex([b], k) + WithIndex(s, k)
  {
    var mine := if b.batchIndex == k then [b] else [];
    WithIndexCons(b, [], k);
    assert [b] + [] == [b];
    if s == [] || s[0].batchIndex <= b.batchIndex {
      WithIndexCons(b, s, k);
    } else {
      var t := InsertDesc(b, s[1..]);
      var head := if s[0].batchIndex == k then [s[0]] else [];
      InsertStable(b, s[1..], k);
      WithIndexCons(s[0], t, k);
      WithIndexCons(s[0], s[1..], k);
      assert s == [s[0]] + s[1..];
      assert head == [] || mine == [];
      AppendAssoc(mine, head, WithIndex(s[1..], k));
      AppendAssoc(head, mine, WithIndex(s[1..], k));
    }
  }

  /** The sort is stable: batches with equal indexes keep their input order. */
  lemma {:induction false} SortStable(s: seq<Batch>, k: int)
    ensures WithIndex(SortByIndexDesc(s), k) == WithIndex(s, k)
  {
    if s != [] {
      SortStable(s[1..], k);
      InsertStable(s[0], SortByIndexDesc(s[1..]), k);
      WithIndexCons(s[0], [], k);
      WithIndexCons(s[0], s[1..], k);
      assert [s[0]] + [] == [s[0]] && s == [s[0]] + s[1..];
    }
  }

  predicate DistinctIndices(s: seq<Batch>)
  {
    forall i, j :: 0 <= i < j < |s| ==> s[i].batchIndex != s[j].batchIndex
  }

  lemma {:induction false} InsertDistinct(b: Batch, s: seq<Batch>)
    requires DistinctIndices(s)
    requires forall j :: 0 <= j < |s| ==> s[j].batchIndex != b.batchIndex
    ensures DistinctIndices(InsertDesc(b, s))
  {
    var r := InsertDesc(b, s);
    if s == [] || s[0].batchIndex <= b.batchIndex {
      forall i, j | 0 <= i < j < |r|
        ensures r[i].batchIndex != r[j].batchIndex
      {
        assert r[j] == s[j - 1];
        if i > 0 {
          assert r[i] == s[i - 1];
        }
      }
    } else {
      var t := InsertDesc(b, s[1..]);
      InsertDistinct(b, s[1..]);
      forall i, j | 0 <= i < j < |r|
        ensures r[i].batchIndex != r[j].batchIndex
      {
        assert r[j] == t[j - 1];
        if i > 0 {
          assert r[i] == t[i - 1];
        } else {
          assert t[j - 1] in multiset(t);
          if t[j - 1] != b {
            assert t[j - 1] in multiset(s[1..]);
            var m :| 0 <= m < |s[1..]| && s[1..][m] == t[j - 1];
            assert s[m + 1] == t[j - 1];
          }
        }
      }
    }
  }

  /** Sorting keeps indexes pairwise distinct. */
  lemma {:induction false} SortDistinct(s: seq<Batch>)
    requires DistinctIndices(s)
    ensures DistinctIndices(SortByIndexDesc(s))
  {
    if s != [] {
      var t := SortByIndexDesc(s[1..]);
      SortDistinct(s[1..]);
      forall j | 0 <= j < |t|
        ensures t[j].batchIndex != s[0].batchIndex
      {
        assert t[j] in multiset(s[1..]);
        var m :| 0 <= m < |s[1..]| && s[1..][m] == t[j];
        assert s[m + 1] == t[j];
      }
      InsertDistinct(s[0], t);
    }
  }

  // ---------------------------------------------------------------- placing batches

  /** The `plc_lookup` dictionary: each batch with a positive index under
      that index, a later batch replacing an earlier one. */
  function PlcLookup(plc: seq<Batch>): (m: map<int, Batch>)
    ensures forall i :: i in m ==> i > 0 && m[i].batchIndex == i
  {
    if plc == [] then map[]
    else
      var m := PlcLookup(plc[..|plc| - 1]);
      var b := plc[|plc| - 1];
      if b.batchIndex > 0 then m[b.batchIndex := b] else m
  }

  /** The lookup holds exactly the positive indexes present, each mapped to
      the last batch carrying it. */
  lemma {:induction false} PlcLookupSpec(plc: seq<Batch>, i: int)
    ensures i in PlcLookup(plc) <==> i > 0 && exists j :: 0 <= j < |plc| && plc[j].batchIndex == i
    ensures i in PlcLookup(plc) ==>
      exists j :: 0 <= j < |plc| && PlcLookup(plc)[i] == plc[j]
                  && forall j' :: j < j' < |plc| ==> plc[j'].batchIndex != i
  {
    if plc != [] {
      var init := plc[..|plc| - 1];
      var last := plc[|plc| - 1];
      PlcLookupSpec(init, i);
      if last.batchIndex > 0 && last.batchIndex == i {
        assert plc[|plc| - 1].batchIndex == i;
      } else if i in PlcLookup(plc) {
        var j :| 0 <= j < |init| && PlcLookup(init)[i] == init[j]
                 && forall j' :: j < j' < |init| ==> init[j'].batchIndex != i;
        assert plc[j] == init[j];
        assert forall j' :: j < j' < |plc| ==> plc[j'].batchIndex != i by {
          forall j' | j < j' < |plc|
            ensures plc[j'].batchIndex != i
          {
            if j' < |init| {
              assert plc[j'] == init[j'];
            }
          }
        }
      } else {
        forall j | 0 <= j < |plc| && plc[j].batchIndex == i
          ensures i <= 0
        {
          if j < |init| {
            assert init[j] == plc[j];
          }
        }
      }
    }
  }

  /** The loop building `plc_lookup`. */
  method BuildPlcLookup(plc: seq<Batch>) returns (m: map<int, Batch>)
    ensures m == PlcLookup(plc)
  {
    m := map[];
    for k := 0 to |plc|
      invariant m == PlcLookup(plc[..k])
    {
      PrefixSnoc(plc, k);
      assert plc[..k + 1][..k] == plc[..k];
      var b := plc[k];
      if b.batchIndex > 0 {
        m := m[b.batchIndex := b];
      }
    }
    assert plc[..|plc|] == plc;
  }

  /** Why a merge failed: the controller's status word names no batch state
      (`BatchStates(...)` raised ValueError). */
  datatype MergeError = InvalidBatchState(status: int)

  /** `_merge_existing_batch`: the cloud batch, keeping the controller's
      print count, and also its status once the batch is printing or printed. */
  function MergeExistingBatch(cloud: Batch, plc: Batch): (r: Result<Batch, MergeError>)
    ensures r.Err? <==> !(0 <= plc.status <= 4)
    ensures r.Ok? && plc.status <= 1 ==> r.value == cloud.(printCount := plc.printCount)
    ensures r.Ok? && plc.status >= 2 ==> r.value == cloud.(status := plc.status, printCount := plc.printCount)
  {
    match BatchStateFromCode(plc.status)
    case None => Err(InvalidBatchState(plc.status))
    case Some(state) =>
      if IsBatchModifiable(state) then Ok(cloud.(printCount := plc.printCount))
      else Ok(cloud.(status := plc.status, printCount := plc.printCount))
  }

  /** `_create_empty_batch`. */
  function EmptyBatch(): (b: Batch)
    ensures BuildSlot(b).Ok? && DecodeSlot(BuildSlot(b).value) == Ok(None)
  {
    Batch(0, 0, 0, "", "", "", "")
  }

  /** What position p receives from the sorted cloud batches. */
  function PositionBatch(sorted: seq<Batch>, lookup: map<int, Batch>, p: nat): Result<Batch, MergeError>
  {
    if p < |sorted| then
      if sorted[p].batchIndex in lookup then MergeExistingBatch(sorted[p], lookup[sorted[p].batchIndex])
      else Ok(sorted[p])
    else Ok(EmptyBatch())
  }

  /** Positions 0 .. n-1, stopping at the first failed merge. */
  function MapPrefix(sorted: seq<Batch>, lookup: map<int, Batch>, n: nat): (r: Result<seq<Batch>, MergeError>)
    ensures r.Ok? ==> |r.value| == n && forall p :: 0 <= p < n ==> PositionBatch(sorted, lookup, p) == Ok(r.value[p])
    ensures r.Err? ==> exists p :: 0 <= p < n && PositionBatch(sorted, lookup, p).Err?
  {
    if n == 0 then Ok([])
    else
      match MapPrefix(sorted, lookup, n - 1)
      case Err(e) => Err(e)
      case Ok(prev) =>
        match PositionBatch(sorted, lookup, n - 1)
        case Err(e) => Err(e)
        case Ok(b) => Ok(prev + [b])
  }

  lemma {:induction false} MapPrefixErrPersists(sorted: seq<Batch>, lookup: map<int, Batch>, k: nat, n: nat)
    requires k <= n && MapPrefix(sorted, lookup, k).Err?
    ensures MapPrefix(sorted, lookup, n) == MapPrefix(sorted, lookup, k)
    decreases n
  {
    if n > k {
      MapPrefixErrPersists(sorted, lookup, k, n - 1);
    }
  }

  /** Positions that each receive their batch make up the prefix. */
  lemma {:induction false} MapPrefixDetermined(sorted: seq<Batch>, lookup: map<int, Batch>, xs: seq<Batch>)
    requires forall p :: 0 <= p < |xs| ==> PositionBatch(sorted, lookup, p) == Ok(xs[p])
    ensures MapPrefix(sorted, lookup, |xs|) == Ok(xs)
  {
    if xs != [] {
      var init := xs[..|xs| - 1];
      MapPrefixDetermined(sorted, lookup, init);
      assert init + [xs[|xs| - 1]] == xs;
    }
  }

  /** What `map_firebase_to_plc_positions` returns or raises. */
  function MapToPositions(cloud: seq<Batch>, plc: seq<Batch>): (r: Result<seq<Batch>, MergeError>)
    ensures r.Ok? ==> |r.value| == 5
  {
    MapPrefix(SortByIndexDesc(cloud), PlcLookup(plc), 5)
  }

  /** Five positions: the newest batches first with their cloud index and
      texts, a batch unknown to the controller copied whole, and empty
      batches after the last cloud batch. */
  lemma MapPositionsSpec(cloud: seq<Batch>, plc: seq<Batch>, p: nat)
    requires MapToPositions(cloud, plc).Ok? && p < 5
    ensures var r := MapToPositions(cloud, plc).value;
            var sorted := SortByIndexDesc(cloud);
            && |r| == 5
            && (p < |cloud| ==> r[p].(status := sorted[p].status, printCount := sorted[p].printCount) == sorted[p])
            && (p < |cloud| && sorted[p].batchIndex !in PlcLookup(plc) ==> r[p] == sorted[p])
            && (p >= |cloud| ==> r[p] == EmptyBatch())
  {
    var r := MapToPositions(cloud, plc).value;
    assert PositionBatch(SortByIndexDesc(cloud), PlcLookup(plc), p) == Ok(r[p]);
  }

  /** Position p meets a controller batch whose status is no batch state. */
  predicate MergeFailsAt(sorted: seq<Batch>, lookup: map<int, Batch>, p: nat)
  {
    p < |sorted| && sorted[p].batchIndex in lookup && !(0 <= lookup[sorted[p].batchIndex].status <= 4)
  }

  /** The mapping fails exactly when one of the first five sorted batches
      meets a controller batch whose status is no batch state. */
  lemma {:induction false} MapError(cloud: seq<Batch>, plc: seq<Batch>)
    ensures MapToPositions(cloud, plc).Err? <==>
              exists p :: 0 <= p < 5 && MergeFailsAt(SortByIndexDesc(cloud), PlcLookup(plc), p)
  {
    var sorted := SortByIndexDesc(cloud);
    var lookup := PlcLookup(plc);
    if MapToPositions(cloud, plc).Ok? {
      var r := MapToPositions(cloud, plc).value;
      forall p | 0 <= p < 5
        ensures !MergeFailsAt(sorted, lookup, p)
      {
        assert PositionBatch(sorted, lookup, p) == Ok(r[p]);
      }
    } else {
      var p :| 0 <= p < 5 && PositionBatch(sorted, lookup, p).Err?;
      assert MergeFailsAt(sorted, lookup, p);
      assert exists q :: 0 <= q < 5 && MergeFailsAt(SortByIndexDesc(cloud), PlcLookup(plc), q);
    }
  }

  /** `DataParser.map_firebase_to_plc_positions`. */
  method MapFirebaseToPlcPositions(cloud: seq<Batch>, plc: seq<Batch>) returns (r: Result<seq<Batch>, MergeError>)
    ensures r == MapToPositions(cloud, plc)
  {
    var lookup := BuildPlcLookup(plc);
    var sorted := SortByIndexDesc(cloud);
    var result: seq<Batch> := [];
    for position := 0 to NumBatches
      invariant MapPrefix(sorted, lookup, position) == Ok(result)
    {
      var mapped: Batch;
      if position < |sorted| {
        var b := sorted[position];
        if b.batchIndex in lookup {
          var merged := MergeExistingBatch(b, lookup[b.batchIndex]);
          if merged.Err? {
            MapPrefixErrPersists(sorted, lookup, position + 1, 5);
            return Err(merged.error);
          }
          mapped := merged.value;
        } else {
          mapped := b;
        }
      } else {
        mapped := EmptyBatch();
      }
      result := result + [mapped];
    }
    r := Ok(result);
  }

  /** Merging a batch against its own merge result changes nothing. */
  lemma MergeAgain(cloud: Batch, plc: Batch)
    requires 0 <= cloud.status <= 4
    requires MergeExistingBatch(cloud, plc).Ok?
    ensures MergeExistingBatch(cloud, MergeExistingBatch(cloud, plc).value) == MergeExistingBatch(cloud, plc)
  {
  }

  /** Mapping the same cloud batches again against the previous result
      gives that result back, when the cloud indexes are distinct and the
      cloud statuses name batch states. */
  lemma MapIdempotent(cloud: seq<Batch>, plc: seq<Batch>)
    requires DistinctIndices(cloud)
    requires forall k :: 0 <= k < |cloud| ==> 0 <= cloud[k].status <= 4
    requires MapToPositions(cloud, plc).Ok?
    ensures MapToPositions(cloud, MapToPositions(cloud, plc).value) == MapToPositions(cloud, plc)
  {
    var sorted := SortByIndexDesc(cloud);
    var first := PlcLookup(plc);
    var r := MapToPositions(cloud, plc).value;
    var second := PlcLookup(r);
    SortDistinct(cloud);
    forall p | 0 <= p < |r|
      ensures PositionBatch(sorted, second, p) == Ok(r[p])
    {
      assert PositionBatch(sorted, first, p) == Ok(r[p]);
      if p < |sorted| {
        var i := sorted[p].batchIndex;
        assert sorted[p] in multiset(cloud);
        var c :| 0 <= c < |cloud| && cloud[c] == sorted[p];
        assert 0 <= sorted[p].status <= 4;
        PlcLookupSpec(r, i);
        if i > 0 {
          var j :| 0 <= j < |r| && second[i] == r[j] && forall j' :: j < j' < |r| ==> r[j'].batchIndex != i;
          assert PositionBatch(sorted, first, j) == Ok(r[j]);
          assert j == p by {
            if j < |sorted| {
              assert r[j].batchIndex == sorted[j].batchIndex;
            }
          }
          if i in first {
            MergeAgain(sorted[p], first[i]);
          }
        }
      }
    }
    MapPrefixDetermined(sorted, second, r);
  }

  // ---------------------------------------------------------------- the register image

  /** Why `convert_batches_to_registers` raised DataValidationException. */
  datatype ConversionError =
    | BatchInvalid(position: nat, errors: seq<RegisterValidator.BatchDataError>)
    | BuildFailed(cause: IntegerError)
    | ImageInvalid(arrayErrors: seq<RegisterValidator.ArrayError>)

  /** The batch passes `validate_batch_data`. */
  predicate RecordValid(b: Batch)
  {
    RegisterValidator.BatchDataErrors(ToRecord(b)) == []
  }

  /** The position of the first batch that fails `validate_batch_data`, or |bs|. */
  function FirstInvalid(bs: seq<Batch>): (k: nat)
    ensures k <= |bs|
    ensures forall j :: 0 <= j < k ==> RecordValid(bs[j])
    ensures k < |bs| ==> !RecordValid(bs[k])
  {
    FirstFailure(bs, RecordValid)
  }

  /** `validate_batch_data` on a batch's record. */
  method ValidateBatch(b: Batch) returns (isValid: bool, errors: seq<RegisterValidator.BatchDataError>)
    ensures errors == RegisterValidator.BatchDataErrors(ToRecord(b))
    ensures isValid <==> RecordValid(b)
  {
    isValid, errors := RegisterValidator.ValidateBatchData(ToRecord(b));
  }

  /** One more valid batch moves the first invalid position on. */
  lemma FirstInvalidStep(bs: seq<Batch>, i: nat)
    requires i < |bs| && i <= FirstInvalid(bs) && RecordValid(bs[i])
    ensures i + 1 <= FirstInvalid(bs)
  {
  }

  /** An invalid batch no later than the first invalid one is the first. */
  lemma FirstInvalidAt(bs: seq<Batch>, i: nat)
    requires i < |bs| && i <= FirstInvalid(bs) && !RecordValid(bs[i])
    ensures FirstInvalid(bs) == i
  {
  }

  /** The part of `convert_batches_to_registers` after every batch passed:
      build the image, then check it. */
  function ImageConversion(image: Result<seq<int>, IntegerError>): (r: Result<seq<int>, ConversionError>)
    ensures r.Ok? ==> image == Ok(r.value) && RegisterValidator.RegisterArrayErrors(r.value) == []
    ensures image.Err? ==> r == Err(BuildFailed(image.error))
  {
    match image
    case Err(e) => Err(BuildFailed(e))
    case Ok(words) =>
      var errors := RegisterValidator.RegisterArrayErrors(words);
      if errors != [] then Err(ImageInvalid(errors)) else Ok(words)
  }

  /** What `convert_batches_to_registers` returns or raises. */
  function Conversion(bs: seq<Batch>): (r: Result<seq<int>, ConversionError>)
    ensures r.Ok? ==> CompleteImage(bs) == Ok(r.value) && |r.value| == 120
    ensures r.Ok? ==> RegisterValidator.RegisterArrayErrors(r.value) == []
    ensures r.Ok? ==> forall j :: 0 <= j < |bs| ==> RecordValid(bs[j])
  {
    var k := FirstInvalid(bs);
    if k < |bs| then Err(BatchInvalid(k, RegisterValidator.BatchDataErrors(ToRecord(bs[k]))))
    else ImageConversion(CompleteImage(bs))
  }

  /** The validation loop of `convert_batches_to_registers`. */
  method CheckBatches(bs: seq<Batch>) returns (failure: Option<ConversionError>)
    ensures failure.None? <==> FirstInvalid(bs) == |bs|
    ensures failure.Some? ==>
              (FirstInvalid(bs) < |bs| &&
               failure.value == BatchInvalid(FirstInvalid(bs), RegisterValidator.BatchDataErrors(ToRecord(bs[FirstInvalid(bs)]))))
  {
    for i := 0 to |bs|
      invariant i <= FirstInvalid(bs)
    {
      var isValid, errors := ValidateBatch(bs[i]);
      if !isValid {
        FirstInvalidAt(bs, i);
        return Some(BatchInvalid(i, errors));
      }
      FirstInvalidStep(bs, i);
    }
    return None;
  }

  /** The image step of `convert_batches_to_registers`. */
  method BuildAndCheckImage(bs: seq<Batch>) returns (r: Result<seq<int>, ConversionError>)
    ensures r == ImageConversion(CompleteImage(bs))
  {
    var image := BuildCompleteRegisterArray(bs);
    if image.Err? {
      return Err(BuildFailed(image.error));
    }
    var isValid, errors := RegisterValidator.ValidateRegisterArray(image.value);
    if !isValid {
      return Err(ImageInvalid(errors));
    }
    return Ok(image.value);
  }

  /** `DataParser.convert_batches_to_registers`. */
  method ConvertBatchesToRegisters(bs: seq<Batch>) returns (r: Result<seq<int>, ConversionError>)
    ensures r == Conversion(bs)
  {
    var failure := CheckBatches(bs);
    if failure.Some? {
      return Err(failure.value);
    }
    r := BuildAndCheckImage(bs);
  }

  /** The empty placeholder fails `validate_batch_data` on its index. */
  lemma PlaceholderRejected()
    ensures !RecordValid(EmptyBatch())
  {
    var r := ToRecord(EmptyBatch());
    RegisterValidator.BatchDataErrorsSpec(r);
    assert ToInt(r["batchIndex"]) == Some(0);
  }

  /** Any batch that fails validation stops the conversion. */
  lemma ConversionRejectsInvalid(bs: seq<Batch>, j: nat)
    requires j < |bs| && !RecordValid(bs[j])
    ensures Conversion(bs).Err?
  {
  }

  /** Fewer than five cloud batches leave a placeholder in the mapping, so
      the mapped batches are never converted. */
  lemma ShortCloudListNotWritten(cloud: seq<Batch>, plc: seq<Batch>)
    requires |cloud| < 5 && MapToPositions(cloud, plc).Ok?
    ensures Conversion(MapToPositions(cloud, plc).value).Err?
  {
    MapPositionsSpec(cloud, plc, 4);
    PlaceholderRejected();
    ConversionRejectsInvalid(MapToPositions(cloud, plc).value, 4);
  }

  // ---------------------------------------------------------------- reading the image back

  /** A slot read that raised, or held nothing, becomes None. */
  function SlotOrNone(x: Result<Option<Batch>, SlotError>): Option<Batch>
  {
    match x
    case Ok(Some(b)) => Some(b)
    case _ => None
  }

  /** What `extract_batches_from_registers` returns: one entry per slot. */
  function ExtractedBatches(regs: seq<int>): (r: seq<Option<Batch>>)
    ensures |r| == 5
    ensures forall k :: 0 <= k < 5 ==> r[k] == SlotOrNone(ExtractBatch(regs, k + 1))
  {
    seq(5, k requires 0 <= k < 5 => SlotOrNone(ExtractBatch(regs, k + 1)))
  }

  /** `DataParser.extract_batches_from_registers`. */
  method ExtractBatchesFromRegisters(regs: seq<int>) returns (batches: seq<Option<Batch>>)
    ensures batches == ExtractedBatches(regs)
  {
    ghost var all := ExtractedBatches(regs);
    batches := [];
    for batchNum := 1 to NumBatches + 1
      invariant batches == all[..batchNum - 1]
    {
      var batch := ExtractBatch(regs, batchNum);
      assert all[batchNum - 1] == SlotOrNone(batch);
      PrefixSnoc(all, batchNum - 1);
      match batch
      case Ok(Some(b)) =>
        batches := batches + [Some(b)];
      case _ =>
        batches := batches + [None];
    }
    assert all[..5] == all;
  }

  /** Reading back an image built from storable batches gives each batch in
      its slot and None for the slots left empty. */
  lemma ExtractedImage(bs: seq<Batch>, k: nat)
    requires forall j :: 0 <= j < |bs| ==> Storable(bs[j])
    requires k < 5
    ensures CompleteImage(bs).Ok?
    ensures ExtractedBatches(CompleteImage(bs).value)[k] == if k < |bs| then Some(bs[k]) else None
  {
    ImageRoundTrip(bs, k + 1);
    var image := CompleteImage(bs).value;
    var x := ExtractBatch(image, k + 1);
    assert ExtractedBatches(image)[k] == SlotOrNone(x);
  }

  // ---------------------------------------------------------------- printer fields

  const ZanasiFields: seq<string> := ["batchCode", "dryerCode", "productionDate", "expiryDate"]

  /** One complaint of `validate_zanasi_data`. */
  datatype ZanasiDataError =
    | MissingZanasiField(field: string)
    | NotAString(field: string)
    | EmptyZanasiField(field: string)
    | ContainsQuotes(field: string)
    | ContainsLineBreaks(field: string)

  /** The presence check of one field: missing, not a string, or blank. */
  function PresenceError(r: Record, f: string): seq<ZanasiDataError>
  {
    if f !in r then [MissingZanasiField(f)]
    else if !r[f].VStr? then [NotAString(f)]
    else if AllSpace(r[f].s) then [EmptyZanasiField(f)]
    else []
  }

  /** The character check of one field, made on `str()` of any present value. */
  function CharacterErrors(r: Record, f: string): seq<ZanasiDataError>
  {
    if f !in r then []
    else
      var text := ToStr(r[f]);
      (if '"' in text then [ContainsQuotes(f)] else [])
      + (if '\n' in text || '\r' in text then [ContainsLineBreaks(f)] else [])
  }

  /** A field the printheads can take: a non-blank string with no double
      quote and no line break. */
  predicate ZanasiFieldOk(r: Record, f: string)
  {
    f in r && r[f].VStr? && !AllSpace(r[f].s) && '"' !in r[f].s && '\n' !in r[f].s && '\r' !in r[f].s
  }

  /** The first loop of `validate_zanasi_data`, over `fields`. */
  function PresenceErrors(r: Record, fields: seq<string>): seq<ZanasiDataError>
  {
    FlatMap(fields, f => PresenceError(r, f))
  }

  /** The second loop of `validate_zanasi_data`, over `fields`. */
  function AllCharacterErrors(r: Record, fields: seq<string>): seq<ZanasiDataError>
  {
    FlatMap(fields, f => CharacterErrors(r, f))
  }

  /** What `validate_zanasi_data` reports. */
  function ZanasiDataErrors(r: Record): (errs: seq<ZanasiDataError>)
    ensures errs == [] ==> forall k :: 0 <= k < |ZanasiFields| ==>
                             ZanasiFields[k] in r && r[ZanasiFields[k]].VStr? && !AllSpace(r[ZanasiFields[k]].s)
  {
    PresenceErrors(r, ZanasiFields) + AllCharacterErrors(r, ZanasiFields)
  }

  /** One field raises no complaint exactly when it is fit to send. */
  lemma FieldComplaints(r: Record, f: string)
    ensures ZanasiFieldOk(r, f) <==> PresenceError(r, f) == [] && CharacterErrors(r, f) == []
  {
  }

  /** Nothing is reported exactly when all four fields are fit to send. */
  lemma ZanasiDataErrorsSpec(r: Record)
    ensures ZanasiDataErrors(r) == [] <==> forall f :: f in ZanasiFields ==> ZanasiFieldOk(r, f)
  {
    forall f | f in ZanasiFields
      ensures ZanasiFieldOk(r, f) <==> PresenceError(r, f) == [] && CharacterErrors(r, f) == []
    {
      FieldComplaints(r, f);
    }
    assert forall f :: f in ZanasiFields <==> exists k :: 0 <= k < 4 && ZanasiFields[k] == f;
  }

  /** `DataParser.validate_zanasi_data`. */
  method ValidateZanasiData(r: Record) returns (isValid: bool, errors: seq<ZanasiDataError>)
    ensures errors == ZanasiDataErrors(r)
    ensures isValid <==> forall f :: f in ZanasiFields ==> ZanasiFieldOk(r, f)
  {
    errors := [];
    for k := 0 to |ZanasiFields|
      invariant errors == PresenceErrors(r, ZanasiFields[..k])
    {
      PrefixSnoc(ZanasiFields, k);
      assert ZanasiFields[..k + 1][..k] == ZanasiFields[..k];
      errors := errors + PresenceError(r, ZanasiFields[k]);
    }
    assert ZanasiFields[..4] == ZanasiFields;
    ghost var presence := errors;
    for k := 0 to |ZanasiFields|
      invariant errors == presence + AllCharacterErrors(r, ZanasiFields[..k])
    {
      PrefixSnoc(ZanasiFields, k);
      assert ZanasiFields[..k + 1][..k] == ZanasiFields[..k];
      AppendAssoc(presence, AllCharacterErrors(r, ZanasiFields[..k]), CharacterErrors(r, ZanasiFields[k]));
      errors := errors + CharacterErrors(r, ZanasiFields[k]);
    }
    ZanasiDataErrorsSpec(r);
    isValid := |errors| == 0;
  }

  /** One text as `sanitize_for_zanasi` rewrites it: double quotes become
      apostrophes, line breaks and tabs spaces, then surrounding whitespace goes. */
  function SanitizeText(s: string): (t: string)
    ensures |t| <= |s|
  {
    Strip(ReplaceChar(ReplaceChar(ReplaceChar(ReplaceChar(s, '"', "'"), '\n', " "), '\r', " "), '\t', " "))
  }

  /** A character of a stripped text is a character of the text. */
  lemma StripKeeps(s: string, c: char)
    requires c in Strip(s)
    ensures c in s
  {
    var l := TrimLeft(s);
    var r := TrimRight(l);
    var i :| 0 <= i < |r| && r[i] == c;
    assert l[i] == c;
    assert s[|s| - |l| + i] == c;
  }

  /** A sanitised text holds no double quote, line break or tab, and has no
      surrounding whitespace. */
  lemma SanitizedClean(s: string)
    ensures var t := SanitizeText(s);
            '"' !in t && '\n' !in t && '\r' !in t && '\t' !in t && Trimmed(t)
  {
    var u1 := ReplaceChar(s, '"', "'");
    var u2 := ReplaceChar(u1, '\n', " ");
    var u3 := ReplaceChar(u2, '\r', " ");
    var u := ReplaceChar(u3, '\t', " ");
    var t := SanitizeText(s);
    assert '"' !in u2 && '\n' !in u2;
    assert '"' !in u3 && '\n' !in u3 && '\r' !in u3;
    assert '"' !in u && '\n' !in u && '\r' !in u && '\t' !in u;
    if '"' in t { StripKeeps(u, '"'); }
    if '\n' in t { StripKeeps(u, '\n'); }
    if '\r' in t { StripKeeps(u, '\r'); }
    if '\t' in t { StripKeeps(u, '\t'); }
  }

  /** Sanitising a sanitised text changes nothing. */
  lemma SanitizeTextIdempotent(s: string)
    ensures SanitizeText(SanitizeText(s)) == SanitizeText(s)
  {
    var t := SanitizeText(s);
    SanitizedClean(s);
    ReplaceCharAbsent(t, '"', "'");
    ReplaceCharAbsent(t, '\n', " ");
    ReplaceCharAbsent(t, '\r', " ");
    ReplaceCharAbsent(t, '\t', " ");
  }

  /** What `sanitize_for_zanasi` returns: the four text fields, where
      present, rewritten as strings; every other key untouched. */
  function Sanitized(r: Record): (out: Record)
    ensures out.Keys == r.Keys
    ensures forall k :: k in r && k !in ZanasiFields ==> out[k] == r[k]
  {
    map k | k in r :: if k in ZanasiFields then VStr(SanitizeText(ToStr(r[k]))) else r[k]
  }

  /** Sanitised fields carry no double quote or line break, so the
      character check passes; and sanitising twice changes nothing. */
  lemma SanitizedSpec(r: Record)
    ensures forall f :: f in ZanasiFields && f in r ==>
              Sanitized(r)[f].VStr? && Trimmed(Sanitized(r)[f].s) && CharacterErrors(Sanitized(r), f) == []
    ensures Sanitized(Sanitized(r)) == Sanitized(r)
  {
    var s := Sanitized(r);
    forall f | f in ZanasiFields && f in r
      ensures s[f].VStr? && Trimmed(s[f].s) && CharacterErrors(s, f) == []
    {
      SanitizedClean(ToStr(r[f]));
    }
    forall k | k in r && k in ZanasiFields
      ensures Sanitized(s)[k] == s[k]
    {
      SanitizeTextIdempotent(ToStr(r[k]));
    }
  }

  /** The record after rewriting `fields` one at a time, as the loop of
      `sanitize_for_zanasi` does. */
  function SanitizeFields(r: Record, fields: seq<string>): Record
  {
    if fields == [] then r
    else
      var s := SanitizeFields(r, fields[..|fields| - 1]);
      var f := fields[|fields| - 1];
      if f in s then s[f := VStr(SanitizeText(ToStr(s[f])))] else s
  }

  /** Rewriting distinct fields one at a time rewrites each present field
      once, from its original value, and nothing else. */
  lemma {:induction false} SanitizeFieldsSpec(r: Record, fields: seq<string>)
    requires forall i, j :: 0 <= i < j < |fields| ==> fields[i] != fields[j]
    ensures SanitizeFields(r, fields).Keys == r.Keys
    ensures forall k :: k in r ==>
      SanitizeFields(r, fields)[k] == if k in fields then VStr(SanitizeText(ToStr(r[k]))) else r[k]
  {
    if fields != [] {
      var init := fields[..|fields| - 1];
      var f := fields[|fields| - 1];
      SanitizeFieldsSpec(r, init);
      assert f !in init by {
        forall j | 0 <= j < |init|
          ensures init[j] != f
        {
          assert init[j] == fields[j];
        }
      }
      assert forall k :: k in fields <==> k in init || k == f by {
        assert fields == init + [f];
      }
    }
  }

  /** `DataParser.sanitize_for_zanasi`: a copy of the record, rewritten one
      text field at a time. */
  method SanitizeForZanasi(r: Record) returns (sanitized: Record)
    ensures sanitized == Sanitized(r)
  {
    sanitized := r;
    for k := 0 to |ZanasiFields|
      invariant sanitized == SanitizeFields(r, ZanasiFields[..k])
    {
      PrefixSnoc(ZanasiFields, k);
      assert ZanasiFields[..k + 1][..k] == ZanasiFields[..k];
      var field := ZanasiFields[k];
      if field in sanitized {
        var value := ToStr(sanitized[field]);
        sanitized := sanitized[field := VStr(SanitizeText(value))];
      }
    }
    assert ZanasiFields[..4] == ZanasiFields;
    SanitizeFieldsSpec(r, ZanasiFields);
  }
}
