# Lakeland Dairies batch bridge — a Dafny model

The Lakeland Dairies batch processor connects three parties:

- a Modbus PLC, which exposes 120 holding registers;
- a cloud batch list, read over HTTP;
- two Zanasi inkjet printheads, which take TCP text commands.

The PLC asks for work through its trigger register (register 1):

- **DOWNLOAD_BATCH** makes the bridge fetch the cloud list and normalise it. The bridge then parses it and places it in the PLC's five batch slots. Print counts are kept, and the status of batches already printing is kept too. The result is encoded as a 120-word register image, validated, and written.
- **LOAD_TO_ZANASI** makes the bridge read the slot the operator selected and check its text fields. It then sends them as `external_field` commands to both printheads. The load counts as done only when both printheads accept the batch.

Failures write an error code and the ERROR state to the PLC, then raise again as `BatchProcessingException`.

This project models that core in Dafny and proves its properties:

- the register codec (text packed two bytes per word, 20-word slots, the 120-word image), its two validators, and the round trip from a batch to its slot and back;
- the cloud response normaliser and the data parser: parsing, ordering, merging with the PLC's batches, conversion, validation for the printers, sanitising;
- command construction, the pre-send checks and the retry loop of the printhead clients, and the both-or-nothing rule of the dual-printhead send;
- the exception taxonomy, including what reaches `details`, `str()` and `to_dict()`;
- the status manager: it mirrors the PLC registers, updates only after a write succeeds, keeps a history capped at 50 entries, and holds the state transition table;
- the two operation handlers and the trigger loop, stated over the exact sequence of register reads and writes they make.

The PLC link and the cloud are modelled as classes whose calls may succeed or fail. The PLC link keeps a model-only log of the requests that reached the controller, with the controller's answer to each at the same position: the words read, the accept flag of a write, or the error raised. It also counts the calls that raised before any request went out (a failed reconnection, a value refused before sending). The cloud keeps the outcome of every fetch. Every value the handlers act on — the slots, the selected position, the trigger, the records — is stated as one of these recorded answers. The printhead network is modelled the same way: each connection and each command may fail on any attempt.

Modules, one per file:

- `Base`: options and results, words and bytes, Python `strip`, `replace` and slices.
- `Values`: JSON values, `int()` and `str()`.
- `Enums`, `Exceptions`, `Registers`, `RegisterValidator`, `DataParser`.
- `FirebaseResponse`: the normalising half of the cloud client.
- `Zanasi`.
- `Collaborators`: the PLC and cloud interfaces.
- `StatusManager`.
- `ProcessingBatchManager`.
- `TriggerLoop`: the main loop of the batch processor.

## Model

| member | source | states |
|---|---|---|
| Base.PrefixSlice | core/registers.py:110 | `s[:n]` has length min(n, len) for n ≥ 0, counts from the end for negative n, and is a prefix of `s` |
| Base.SuffixSlice | processing/status_manager.py:323 | `s[n:]` with Python's negative-index rule is a suffix of the stated length |
| Base.Strip | core/registers.py:157 | `strip()` is no longer than its input, begins and ends with no whitespace, is empty exactly for all-whitespace input, and leaves trimmed text alone |
| Base.StripIdempotent | processing/data_parser.py:430 | stripping twice is stripping once |
| Base.ReplaceChar | processing/data_parser.py:425-427 | after `replace(c, rep)` with `c` not in `rep`, no `c` remains, and every other character is present exactly when it was; a one-character replacement keeps the length |
| Base.ReplaceCharAbsent | communication/zanasi_client.py:548-551 | replacing a character that does not occur changes nothing |
| Base.NatToDecimal | communication/zanasi_client.py:42 | `str(n)` of a natural number is a non-empty digit string |
| Values.ParseIntLiteral | processing/data_parser.py:138 | `int(s)` of a string only succeeds on text that is not all whitespace |
| Values.DecimalValueOfDecimal | processing/data_parser.py:138 | `str(n)` is a well-formed digit string denoting n |
| Values.ParseDecimal | processing/data_parser.py:138 | `int(str(n)) == n` for natural n |
| Values.ParseUnsignedLiteral | processing/data_parser.py:138 | a trimmed, well-formed unsigned literal parses to its decimal value |
| Values.ParseNegativeLiteral | processing/data_parser.py:138 | a minus sign before well-formed digits parses to the negated value |
| Values.ParseNegativeDecimal | processing/data_parser.py:138 | `int(str(i)) == i` for negative i |
| Values.ParsedLiteralShape | processing/data_parser.py:138 | a string `int()` accepts is, once stripped, an optional sign before a well-formed digit string, and the result is that string's value, negated after a minus |
| Values.SignedLiteralParses | processing/data_parser.py:138 | any text that strips to an optional sign before a well-formed digit string parses to the digits' value, negated after a minus |
| Values.IntOfStrOfInt | core/registers.py:424-438 | `int(str(i)) == i` for every integer, so the validator's `int()` accepts what the parser stored |
| Enums.TriggerFromCode | core/enums.py:9-13 | a trigger value decodes iff it is 0..2, to the member with that code |
| Enums.ProcessingFromCode | core/enums.py:16-24 | a processing state decodes iff it is 0..5 or 9 (ERROR), to the member with that code |
| Enums.PlcFromCode | core/enums.py:27-34 | a PLC state decodes iff it is 0..5 |
| Enums.BatchStateFromCode | core/enums.py:37-43 | a batch state decodes iff it is 0..4 |
| Enums.ErrorFromCode | core/enums.py:46-51 | an error code decodes iff it is 0..3 |
| Enums.ZanasiStatusFromCode | core/enums.py:54-60 | a Zanasi status decodes iff it is 0..4 |
| Enums.CodesRoundTrip | core/enums.py:9-60 | every member's register value decodes back to that member |
| Enums.ValidateEnumValue | core/enums.py:111-130 | a member passes through; a raw value that names a member converts to it; otherwise the default is used; it raises exactly when a raw value is invalid and there is no default |
| Enums.ValidateTriggerCode | core/enums.py:111-130 | validating a trigger member's own code yields that member |
| Enums.SlotLayoutTiles | core/enums.py:159-176 | the seven field offsets and widths tile a 20-word slot exactly, and five slots from register 10 end at 109 < 120 |
| Enums.IsBatchModifiable | core/enums.py:227-229 | a batch may change iff its state is QUEUED or NEXT_IN_QUEUE (codes 0 and 1) |
| Enums.BatchStatesPartition | core/enums.py:223-224 | the modifiable and read-only states split the batch states in two |
| Exceptions.Raise | core/exceptions.py:10-235 | raising any exception class: kind and message as given; the fixed error code and component of each subclass; `details` holds only what the constructor writes; a connection subclass given `details=` raises TypeError instead |
| Exceptions.ContextOnlyThroughPassedDetails | core/exceptions.py:106-138 | the named parameters of a non-connection subclass reach `details` only when the caller passes a `details` dict |
| Exceptions.ToString | core/exceptions.py:31-37 | `str(e)` starts with the message, and is exactly the message iff there is no component and no truthy error code |
| Exceptions.JoinBar | core/exceptions.py:37 | joining parts with the bar separator starts with the first part and is longer iff there are more parts |
| Exceptions.NoErrorIsOmitted | core/exceptions.py:35-36 | an error code of NO_ERROR (0) prints exactly as no code |
| Exceptions.ToDict | core/exceptions.py:21-29 | `to_dict` keeps type, message and details; the error code is present iff truthy and decodes back; the component is present iff set |
| Exceptions.FormatForLogging | core/exceptions.py:291-301 | a taxonomy exception logs as its `to_dict`, any other as type and text |
| Exceptions.ValidateAndRaise | core/exceptions.py:285-288 | raises iff the condition is false, and then exactly the exception constructed |
| Exceptions.ExceptionContextExit | core/exceptions.py:250-268 | taxonomy exceptions and normal exit propagate; a foreign exception is re-raised as the chosen class, recording the original type, and becomes TypeError for a connection class |
| Exceptions.HandleConnectionError | core/exceptions.py:272-282 | a connection exception passes unchanged; any other is wrapped in a ConnectionException with empty details; a normal return raises nothing |
| Registers.ToRecord | core/registers.py:384-392 | a batch as a dict has exactly its seven keys |
| Registers.GetBatchRegisterRange | core/registers.py:75-91 | slot n has a range iff 1 ≤ n ≤ 5; it is 20 registers wide and lies within 10..119 |
| Registers.SlotRangesDisjoint | core/registers.py:75-91 | distinct slots occupy disjoint register ranges |
| Registers.GetBatchRegisters | core/registers.py:31-55 | the seven field registers of slot n exist iff 1 ≤ n ≤ 5, and sit at the layout's offsets from the slot start |
| Registers.ValidateInteger | core/registers.py:162-177 | accepts exactly 0..65535, unchanged; the error names the field and value and says whether it was negative |
| Registers.Utf8Char | core/registers.py:111 | UTF-8 of one character is 1–4 bytes, a single byte equal to the code point iff ASCII, all bytes ≥ 0x80 otherwise |
| Registers.Utf8 | core/registers.py:111 | the encoding is at least as long as the text |
| Registers.Utf8Ascii | core/registers.py:111 | NUL-free ASCII text encodes to its code points, one byte each |
| Registers.Packed | core/registers.py:115-126 | packing yields len/2 + 1 words |
| Registers.PackedWords | core/registers.py:115-126 | each word is 16-bit; pairs go high byte first; an odd last byte sits in the high half; an even length ends with a zero terminator |
| Registers.StringToRegisters | core/registers.py:98-128 | the encoding method returns the truncate-encode-pack specification |
| Registers.EncodeString | core/registers.py:98-128 | the encoding is len/2 + 1 words of the UTF-8 bytes of the cut text, each word 16-bit |
| Registers.PackBytes | core/registers.py:115-126 | the packing loop computes `Packed` |
| Registers.RegisterCountBoundsPacking | core/registers.py:180-191 | the computed register count bounds the words of any text within the limit, and is exact for an even limit |
| Registers.RegisterCountForString | core/registers.py:179-191 | the count of words for n characters holds n bytes and a zero terminator, with at most one spare byte |
| Registers.SplitWord | core/registers.py:147-148 | the high and low byte of a packed pair give back the pair |
| Registers.DecodeChars | core/registers.py:143-155 | decoding yields at most two characters per word |
| Registers.DecodedCharsAreBytes | core/registers.py:147-153 | every decoded character is a non-zero byte |
| Registers.RegistersToString | core/registers.py:131-159 | the decoding loop computes the decoding specification, and the result is trimmed |
| Registers.DecodeString | core/registers.py:130-159 | decoded text has no surrounding whitespace and at most two characters per word |
| Registers.DecodeStopsAtZeroWord | core/registers.py:144-145 | a zero word ends the text: nothing after it is read |
| Registers.DecodeStopsAtZeroLowByte | core/registers.py:152-155 | a zero low byte ends the text: its word's high byte is the last character |
| Registers.FieldWords | core/registers.py:292-305 | a field holds exactly its width in words |
| Registers.DecodeField | core/registers.py:143-157 | a field decodes back to the non-zero bytes packed into it when they fit twice its width |
| Registers.TextFieldRoundTrip | core/registers.py:98-159 | short, trimmed, NUL-free ASCII text read back from its field equals the text |
| Registers.Slice | core/registers.py:356 | `regs[a:b]` is clamped to the sequence |
| Registers.SlotImage | core/registers.py:263-307 | a slot image is 20 words |
| Registers.BuildSlot | core/registers.py:263-307 | building succeeds iff the three integers fit a word; words 0–2 are index, status and count; the error names the first field checked that fails |
| Registers.PlaceWords | core/registers.py:292-293 | copying words into the array replaces exactly that window |
| Registers.PlaceField | core/registers.py:292-305 | one field placement writes the field's words after what was done, leaving zeros behind |
| Registers.BuildBatchRegisters | core/registers.py:253-307 | the array-building method returns `BuildSlot` |
| Registers.BuildSlotsSpec | core/registers.py:326-327 | building all slots succeeds iff every batch fits, with one 20-word image per batch |
| Registers.FirstError | core/registers.py:326-327 | the error reported is that of the first batch that does not fit |
| Registers.ImageOfSlots | core/registers.py:319-334 | the image is 120 words |
| Registers.ImageStep | core/registers.py:326-332 | writing one more slot replaces exactly its 20-word window |
| Registers.ImageOfSlotsLayout | core/registers.py:319-334 | control registers and everything past the last slot are zero; slot k holds the k-th image |
| Registers.CompleteImage | core/registers.py:309-334 | building the image succeeds iff the first five batches fit (later batches are ignored) |
| Registers.BuildSlotsSnoc | core/registers.py:326-327 | one more batch extends the built slots or reports its own error |
| Registers.CompleteImageError | core/registers.py:326-327 | the image error is that of the first of the first five batches that does not fit |
| Registers.ImageLayout | core/registers.py:309-334 | the image is 120 words: control registers and unused slots zero, slot k holding batch k's image |
| Registers.PlaceSlot | core/registers.py:328-332 | the in-place copy of one slot extends the image by that slot |
| Registers.BuildCompleteRegisterArray | core/registers.py:309-334 | the array-building method returns `CompleteImage` |
| Registers.SlotBatch | core/registers.py:361-392 | a decoded batch has the slot's three integers and trimmed texts within the field widths |
| Registers.DecodeSlot | core/registers.py:358-392 | decoding fails iff fewer than 20 words; a zero batch index is an empty slot |
| Registers.ExtractBatch | core/registers.py:336-392 | fails with out-of-range iff n is not 0..5; otherwise fails iff the image is too short for slot n |
| Registers.SlotFields | core/registers.py:290-305 | where index, status, count and the four text fields sit in a slot |
| Registers.SlotRoundTrip | core/registers.py:263-392 | decoding the slot image of a storable batch gives the batch back |
| Registers.StorableBuilds | core/registers.py:266-274 | storable batches always build an image |
| Registers.ImageSlotFilled | core/registers.py:336-392 | slot k+1 of a built image gives back batch k |
| Registers.ImageSlotEmpty | core/registers.py:366-368 | a slot past the batches given reads as empty |
| Registers.ImageRoundTrip | core/registers.py:309-392 | extracting slot n of the image of storable batches gives batch n, or empty when fewer were given |
| RegisterValidator.MissingFields | core/registers.py:414-417 | no missing-field message iff every required field is present |
| RegisterValidator.IntegerCheck | core/registers.py:423-442 | no message iff `int()` of the field succeeds and lands in range |
| RegisterValidator.LengthErrors | core/registers.py:445-455 | at most one message per text field |
| RegisterValidator.LengthErrorsEmpty | core/registers.py:445-455 | no length message iff every field's `str()` is within its limit |
| RegisterValidator.TextLimitsWithin | core/registers.py:445-455 | the limits are 5, 5, 10 and 10 characters for the four texts |
| RegisterValidator.BatchDataErrorsSpec | core/registers.py:401-457 | `validate_batch_data` reports nothing iff the record is valid by an independent definition |
| RegisterValidator.BatchDataErrors | core/registers.py:401-457 | a record with no complaint has every required field |
| RegisterValidator.IntegerCheckOfInt | core/registers.py:423-428 | the check of a field holding an integer is the plain range check |
| RegisterValidator.HeldBatchErrors | core/registers.py:401-457 | validating a dict holding a batch reports the messages of the batch's own fields |
| RegisterValidator.BatchRecordErrors | core/registers.py:401-457 | a batch's dict is validated field by field in the validator's order |
| RegisterValidator.CollectMissing | core/registers.py:415-417 | the missing-field loop computes `MissingFields` |
| RegisterValidator.CollectTooLong | core/registers.py:452-455 | the length loop computes `LengthErrors` |
| RegisterValidator.ValidateBatchData | core/registers.py:401-457 | returns the specified messages, and valid iff there are none iff the record is valid |
| RegisterValidator.ValidFieldsValidate | core/registers.py:422-455 | a batch whose fields are within the rules validates |
| RegisterValidator.ValidatedBatchMayNotBuild | core/registers.py:424-426 | the validator admits indexes up to 99999 but the slot builder rejects any above 65535: a validated batch can fail to build |
| RegisterValidator.RangeErrors | core/registers.py:477-481 | no range message iff every word is in 0..65535; at most one per word |
| RegisterValidator.Tagged | core/registers.py:491-492 | each batch message is prefixed with its batch number, in order |
| RegisterValidator.AllSlotMessages | core/registers.py:485-494 | the messages of slots 1..5 of a full image, one list per slot |
| RegisterValidator.BatchErrorsEmpty | core/registers.py:487-494 | a slot reports nothing iff it is empty or holds a valid batch |
| RegisterValidator.RegisterArrayErrorsSpec | core/registers.py:459-496 | `validate_register_array` reports nothing iff the image has 120 words, each fits 16 bits, and every slot is empty or valid |
| RegisterValidator.RegisterArrayErrors | core/registers.py:459-496 | an image with no complaint has 120 words, each of them 16-bit |
| RegisterValidator.SlotMessagesReadable | core/registers.py:485-494 | every message about a slot of a 120-word image is about its batch |
| RegisterValidator.NoUnreadableBatch | core/registers.py:493-494 | on a 120-word image the "unreadable batch" branch never fires |
| RegisterValidator.CollectRangeErrors | core/registers.py:477-481 | the range loop computes `RangeErrors` |
| RegisterValidator.AppendTagged | core/registers.py:491-492 | the tagging loop appends the tagged messages |
| RegisterValidator.CheckSlot | core/registers.py:486-494 | one pass of the slot loop appends that slot's messages |
| RegisterValidator.ValidateRegisterArray | core/registers.py:459-496 | returns the specified messages, valid iff none |
| DataParser.ParseIntegerField | processing/data_parser.py:126-161 | a present None is missing; without a default it succeeds iff the field parses in range; with an in-range default it fails only on a present None and falls back to the default |
| DataParser.ParseStringField | processing/data_parser.py:163-177 | the text is stripped and then cut: within the length, a prefix of the stripped text, and equal to it when short enough |
| DataParser.BusinessRuleError | processing/data_parser.py:179-204 | no error iff the print count is valid and a PRINTING or PRINTED batch has all four texts non-blank |
| DataParser.ParseFields | processing/data_parser.py:88-124 | a parsed batch has an index in 1001..99999 read from the entry; a present None status or count fails; otherwise an out-of-range value defaults to 0 |
| DataParser.ParseEntry | processing/data_parser.py:70-124 | a non-dictionary is rejected; a parsed batch has the parsed shape |
| DataParser.ParsedBatchValidates | processing/data_parser.py:88-122 | every batch the parser accepts passes `validate_batch_data` |
| DataParser.Survivors | processing/data_parser.py:45-54 | the surviving batches are at most the entries and all well-shaped |
| DataParser.SurvivorsAndFailures | processing/data_parser.py:45-54 | every entry either survives or is reported |
| DataParser.SurvivorsAppend | processing/data_parser.py:45-54 | parsing keeps input order |
| DataParser.ParseAll | processing/data_parser.py:22-68 | fails iff the payload is not a list, or is non-empty with no survivor; otherwise returns the survivors; `[]` gives `[]` |
| DataParser.ParseFirebaseData | processing/data_parser.py:22-68 | the parsing loop returns `ParseAll` |
| DataParser.InsertDesc | processing/data_parser.py:228 | insertion adds exactly one batch (as a multiset) |
| DataParser.SortByIndexDesc | processing/data_parser.py:228 | the sort is a permutation |
| DataParser.SortedDescending | processing/data_parser.py:228 | the sort orders by descending index |
| DataParser.SortStable | processing/data_parser.py:228 | batches with equal index keep their input order |
| DataParser.SortDistinct | processing/data_parser.py:228 | sorting keeps indexes distinct |
| DataParser.PlcLookup | processing/data_parser.py:221-225 | the lookup maps positive indexes to batches carrying them |
| DataParser.PlcLookupSpec | processing/data_parser.py:221-225 | an index is in the lookup iff it is positive and present, mapped to the last batch carrying it |
| DataParser.BuildPlcLookup | processing/data_parser.py:221-225 | the lookup loop computes `PlcLookup` |
| DataParser.MergeExistingBatch | processing/data_parser.py:258-282 | fails iff the PLC status is no batch state; keeps the PLC print count, and also its status once printing or printed |
| DataParser.MapPrefix | processing/data_parser.py:233-253 | the prefix holds each position's batch, or fails at some position |
| DataParser.MapPositionsSpec | processing/data_parser.py:206-256 | five positions: the newest cloud batches first, differing only in status and count, a batch unknown to the PLC copied whole, empty batches after the last |
| DataParser.MapToPositions | processing/data_parser.py:206-256 | a mapping that succeeds fills exactly five positions |
| DataParser.MapError | processing/data_parser.py:239-241 | the mapping fails iff one of the first five sorted batches meets a PLC batch whose status is no batch state |
| DataParser.MapFirebaseToPlcPositions | processing/data_parser.py:206-256 | the mapping loop returns the mapping specification |
| DataParser.MergeAgain | processing/data_parser.py:258-282 | merging against a merge result changes nothing |
| DataParser.MapIdempotent | processing/data_parser.py:206-282 | mapping the same distinct cloud batches against the previous result gives it back |
| DataParser.FirstInvalid | processing/data_parser.py:311-317 | the first batch failing validation, every earlier one valid |
| DataParser.ValidateBatch | processing/data_parser.py:312 | validation of a batch's dict: the specified messages, valid iff the record is |
| DataParser.ImageConversion | processing/data_parser.py:319-328 | a returned image is the built one and passes `validate_register_array`; a build error becomes a conversion error |
| DataParser.Conversion | processing/data_parser.py:296-339 | a converted image is the complete image of the batches, 120 words, passes the array check, and every batch was valid |
| DataParser.CheckBatches | processing/data_parser.py:311-317 | the check passes iff all batches are valid, else names the first invalid one and its messages |
| DataParser.BuildAndCheckImage | processing/data_parser.py:319-328 | the image step computes `ImageConversion` |
| DataParser.ConvertBatchesToRegisters | processing/data_parser.py:296-339 | the conversion method returns `Conversion` |
| DataParser.PlaceholderRejected | processing/data_parser.py:284-294 | the empty placeholder fails validation on its index |
| DataParser.EmptyBatch | processing/data_parser.py:284-294 | the placeholder batch builds into a slot that reads back as empty |
| DataParser.ConversionRejectsInvalid | processing/data_parser.py:311-317 | any invalid batch stops the conversion |
| DataParser.ShortCloudListNotWritten | processing/data_parser.py:249-252 | fewer than five cloud batches leave a placeholder, so the mapped list never converts |
| DataParser.ExtractedBatches | processing/data_parser.py:341-365 | five entries, each the decoded slot or None |
| DataParser.ExtractBatchesFromRegisters | processing/data_parser.py:341-370 | the extraction loop returns `ExtractedBatches` |
| DataParser.ExtractedImage | processing/data_parser.py:341-365 | extracting from the image of storable batches gives each batch, None after them |
| DataParser.FieldComplaints | processing/data_parser.py:386-401 | a field draws no complaint iff it is a non-blank string with no quote or line break |
| DataParser.ZanasiDataErrorsSpec | processing/data_parser.py:372-403 | `validate_zanasi_data` reports nothing iff all four fields are fit to send |
| DataParser.ZanasiDataErrors | processing/data_parser.py:372-403 | a record with no complaint holds all four printer fields as non-blank strings |
| DataParser.ValidateZanasiData | processing/data_parser.py:372-403 | the method returns the specified complaints, valid iff all fields fit |
| DataParser.SanitizedClean | processing/data_parser.py:422-430 | a sanitised text has no quote, line break or tab, and no surrounding whitespace |
| DataParser.SanitizeText | processing/data_parser.py:405-434 | sanitising never lengthens a text |
| DataParser.SanitizeTextIdempotent | processing/data_parser.py:422-430 | sanitising twice is sanitising once |
| DataParser.Sanitized | processing/data_parser.py:405-434 | sanitising keeps the keys and leaves every non-text key alone |
| DataParser.SanitizedSpec | processing/data_parser.py:405-434 | every sanitised text field is a trimmed string that passes the character check, and sanitising is idempotent |
| DataParser.SanitizeFieldsSpec | processing/data_parser.py:420-432 | the field loop rewrites each present field once from its original value, and nothing else |
| DataParser.SanitizeForZanasi | processing/data_parser.py:405-434 | the sanitising method returns `Sanitized` |
| FirebaseResponse.FillFields | communication/firebase_client.py:219-233 | the filled dict has exactly the fields filled, each with the value read for it |
| FirebaseResponse.CheckNumbers | communication/firebase_client.py:248-263 | a status outside 0..4 becomes 0, the print count is clamped to 0..65535, and nothing else changes |
| FirebaseResponse.TruncateFields | communication/firebase_client.py:265-277 | each named text is cut once to its length, and every other key is untouched |
| FirebaseResponse.ValidateBatchValues | communication/firebase_client.py:240-277 | the in-place value check computes the clamp-and-cut specification |
| FirebaseResponse.CutTexts | communication/firebase_client.py:273-277 | the truncation loop computes `TruncateFields` |
| FirebaseResponse.FilledShape | communication/firebase_client.py:219-233 | the filled dict has numbers and texts where the value check expects them |
| FirebaseResponse.Normalized | communication/firebase_client.py:191-238 | a normalised entry has exactly the seven batch keys |
| FirebaseResponse.NormalizeEntry | communication/firebase_client.py:202-238 | an entry is rejected iff it is not a dictionary |
| FirebaseResponse.ValidateBatchEntry | communication/firebase_client.py:191-238 | the fill-then-check method computes `NormalizeEntry` |
| FirebaseResponse.FieldValueRaw | communication/firebase_client.py:221-233 | a numeric field takes `int()` of the value (0 where that raises), a text field its `str()` |
| FirebaseResponse.NormalizedNumbers | communication/firebase_client.py:248-263 | the index is kept as read even out of range; the status is reset outside 0..4; the print count is clamped |
| FirebaseResponse.NormalizedTexts | communication/firebase_client.py:266-277 | each text is the prefix of the text read, of length min(len, limit), and is not stripped |
| FirebaseResponse.NormalizedShape | communication/firebase_client.py:219-236 | numbers at numeric keys, texts at text keys |
| FirebaseResponse.NormalizedIsNormalised | communication/firebase_client.py:202-238 | every returned entry satisfies the independent `Normalised` predicate |
| FirebaseResponse.NormalisedFixed | communication/firebase_client.py:240-277 | a normalised record comes back unchanged |
| FirebaseResponse.NormalizeIdempotent | communication/firebase_client.py:191-238 | normalising twice is normalising once |
| FirebaseResponse.ResponseEntries | communication/firebase_client.py:154-162 | the response is rejected iff it is neither a list nor a dict |
| FirebaseResponse.Kept | communication/firebase_client.py:172-180 | no more records than entries |
| FirebaseResponse.ProcessedResponse | communication/firebase_client.py:152-189 | rejected iff neither a list nor a dict; at most five records otherwise |
| FirebaseResponse.ProcessResponse | communication/firebase_client.py:142-189 | the response method computes `ProcessedResponse` |
| FirebaseResponse.ValidateEntries | communication/firebase_client.py:172-180 | the entry loop keeps the records of the entries that validate |
| FirebaseResponse.KeepAppend | communication/firebase_client.py:172-180 | entries are kept in order |
| FirebaseResponse.ProcessedNormalised | communication/firebase_client.py:169-183 | every record of a response is normalised |
| FirebaseResponse.ProcessSingle | communication/firebase_client.py:154-166 | a single dict becomes a list of one normalised record; an empty list stays empty |
| Zanasi.BuildExternalFieldCommand | communication/zanasi_client.py:27-52 | raises a ZanasiException iff the field type is unknown or the index exceeds its maximum |
| Zanasi.BuildThenParse | communication/zanasi_client.py:39-52 | every command built reads back as the field type, index and value it was built from |
| Zanasi.BuildBatchCommands | communication/zanasi_client.py:55-71 | a batch gives four commands |
| Zanasi.BatchCommandsSpec | communication/zanasi_client.py:65-70 | command k is string field k holding the text of the k-th batch field, and reads back as such |
| Zanasi.BuiltCommandValid | communication/zanasi_client.py:74-89 | a built command passes `validate_command` iff its value holds no NUL and no CR |
| Zanasi.ValidateCommand | communication/zanasi_client.py:74-89 | a command passes iff it holds a non-whitespace character and no NUL or CR |
| Zanasi.SendPrecheck | communication/zanasi_client.py:121-131 | nothing is raised before connecting iff the list is non-empty and every command is valid |
| Zanasi.PrecheckNamesFirstInvalid | communication/zanasi_client.py:125-131 | the first invalid command is the one reported |
| Zanasi.CheckCommands | communication/zanasi_client.py:125-131 | the check loop computes `SendPrecheck` |
| Zanasi.BatchCommandsPass | communication/zanasi_client.py:121-131 | a batch's commands pass iff its four texts hold no NUL and no CR |
| Zanasi.PrintheadClient.constructor | communication/zanasi_client.py:95-106 | a fresh client has zero counters and no error |
| Zanasi.PrintheadClient.SendCommands | communication/zanasi_client.py:108-224 | precheck failures raise without connecting; otherwise success or RetryExhausted; success clears the error and sent every command; connections and commands are bounded by the retry count |
| Zanasi.PrintheadClient.Transmit | communication/zanasi_client.py:135-224 | the retry loop ends in success or RetryExhausted with the last error, within its bounds; zero attempts always fail |
| Zanasi.PrintheadClient.AttemptSend | communication/zanasi_client.py:136-204 | one attempt counts at most one connection; on success every command is counted, otherwise an error is kept |
| Zanasi.PrintheadClient.SendBatchData | communication/zanasi_client.py:226-237 | sends the batch commands; success implies sendable texts; unsendable texts fail before connecting |
| Zanasi.Reported | communication/zanasi_client.py:305-320 | a printhead counts as a success iff its send returned, and has an error iff it raised |
| Zanasi.ZanasiClient.constructor | communication/zanasi_client.py:270-280 | two distinct fresh printheads, nothing sent |
| Zanasi.ZanasiClient.SendBatchToBothPrintheads | communication/zanasi_client.py:282-339 | both printheads are called once with the batch commands whatever the first did; overall success iff both succeeded; the operation is counted and the batch remembered |
| Zanasi.ZanasiClient.SendSinglePrinthead | communication/zanasi_client.py:420-436 | numbers other than 1 and 2 are refused without sending; otherwise only that printhead is called |
| Zanasi.FieldProblems | communication/zanasi_client.py:521-540 | a field draws no complaint iff it is a string of at most 100 characters |
| Zanasi.TransmissionErrorsSpec | communication/zanasi_client.py:509-542 | nothing is reported iff all four fields are transmittable |
| Zanasi.TransmissionErrors | communication/zanasi_client.py:509-542 | a record with no complaint holds all four command fields as strings |
| Zanasi.ProblemsNameTheirField | communication/zanasi_client.py:521-540 | every complaint about a field names that field |
| Zanasi.MissingFieldReported | communication/zanasi_client.py:521-540 | a missing field is reported as missing and nothing else is said of it |
| Zanasi.ValidateBatchData | communication/zanasi_client.py:509-542 | the two-loop method returns the specified complaints, valid iff all fields are transmittable |
| Zanasi.EscapeForZanasi | communication/zanasi_client.py:545-553 | the escaped text has no line feed, carriage return or tab |
| Zanasi.QuotesEscaped | communication/zanasi_client.py:548 | after quote escaping, every quote is preceded by a backslash |
| Zanasi.EscapedQuotesPreceded | communication/zanasi_client.py:545-553 | in the escaped text every quote is preceded by a backslash |
| Zanasi.UnescapeEscapeQuotes | communication/zanasi_client.py:548 | unescaping undoes quote escaping |
| Zanasi.UnescapeEscape | communication/zanasi_client.py:545-553 | for text without line breaks or tabs the escaping is undone exactly |
| Collaborators.ModbusError | communication/modbus_client.py:154-158 | a ModbusException with the message and no error code |
| Collaborators.ReconnectFailed | communication/modbus_client.py:58-62 | a RetryExhaustedException with no error code |
| Collaborators.FirstBadValue | communication/modbus_client.py:210-215 | the first value outside 0..65535, every earlier one fitting |
| Collaborators.RegisterBus.constructor | communication/modbus_client.py:20-26 | a fresh bus with nothing sent |
| Collaborators.RegisterBus.EnsureConnected | communication/modbus_client.py:80-84 | either connected or the reconnection's RetryExhausted |
| Collaborators.RegisterBus.ReadHoldingRegisters | communication/modbus_client.py:86-135 | a read returns `count` words and logs both the request and those words as the controller's answer at the same position; an error is a bus error, logged as raised if the request went out and counted as unsent otherwise |
| Collaborators.RegisterBus.ReadHoldingRegister | communication/modbus_client.py:86-121 | the one-word read returns the word the controller answered, logged beside its request |
| Collaborators.RegisterBus.ReadAnswer | communication/modbus_client.py:105-121 | what the controller answers a read that went out: `count` words, or a bus error |
| Collaborators.RegisterBus.WriteHoldingRegister | communication/modbus_client.py:137-191 | a value outside 0..65535 is refused before sending; a write that returns logs its request and the controller's accept flag, which is the result; a raise before sending is counted as unsent |
| Collaborators.RegisterBus.WriteHoldingRegisters | communication/modbus_client.py:193-248 | any bad value refuses the whole write before sending; a write that returns logs its request and the accept flag it returns |
| Collaborators.RegisterBus.Answer | communication/modbus_client.py:163-191 | what the controller answers a sent write: success, or a bus error |
| Collaborators.CloudSource.constructor | communication/firebase_client.py:22-30 | a fresh source with no answers recorded |
| Collaborators.CloudSource.FetchBatchData | communication/firebase_client.py:47-140 | each fetch records its outcome as the cloud's answer; success is the processing of some response: at most five normalised records |
| StatusManager.LastEntriesSpec | processing/status_manager.py:323 | the last n entries are the list's suffix of length min(n, len) |
| StatusManager.RecordedKeepsNewest | processing/status_manager.py:98-102 | one recording keeps the newest 50 entries, the new one last |
| StatusManager.RecordedAllKeepsNewest | processing/status_manager.py:98-102 | however many changes are recorded, the history is the newest 50 of them all |
| StatusManager.HistorySlice | processing/status_manager.py:311-324 | `get_state_history(limit)`: the last `limit` entries, the whole list for a falsy limit, Python's slice for a negative one |
| StatusManager.Converted | processing/status_manager.py:61-75 | the update succeeds iff all four codes are valid, then mirrors all four; otherwise a ValueError, with the fields converted before the failure already set |
| StatusManager.ConvertedTwice | processing/status_manager.py:61-86 | converting the same registers twice changes nothing, so an unchanged read records no history |
| StatusManager.ConversionStopsAtFailure | processing/status_manager.py:71-74 | fields after the failing one keep their old values |
| StatusManager.AllowedTargets | processing/status_manager.py:238-247 | no state lists itself, and every state has one or two successors |
| StatusManager.ValidateStateTransition | processing/status_manager.py:227-250 | no state may be re-entered from itself, and IDLE is re-entered only from COMPLETE or ERROR |
| StatusManager.ErrorEdges | processing/status_manager.py:227-250 | ERROR is entered only from the three working states, and left only to IDLE |
| StatusManager.EveryStateReachable | processing/status_manager.py:227-250 | every state is reachable from IDLE in at most three steps |
| StatusManager.EveryStateReturnsToIdle | processing/status_manager.py:227-250 | every state can return to IDLE in at most three steps |
| StatusManager.ChangeEvents | processing/status_manager.py:426-448 | a trigger or processing-state event fires iff that value changed; an error event fires iff `has_error` changed to true; events come in the monitor's order |
| StatusManager.QuietWhenUnchanged | processing/status_manager.py:426-448 | an unchanged summary, or a cleared error, raises no event |
| StatusManager.StatusManager.constructor | processing/status_manager.py:18-31 | the mirror starts at IDLE / IDLE / IDLE / NO_ERROR with empty history |
| StatusManager.StatusManager.RecordStateChange | processing/status_manager.py:88-107 | the history becomes the newest 50 entries including the new one; the mirror is unchanged |
| StatusManager.StatusManager.UpdateInternalState | processing/status_manager.py:61-86 | the mirror follows `Converted`; a history entry is recorded iff the update succeeded and the snapshot changed |
| StatusManager.StatusManager.ReadStatusWords | processing/status_manager.py:40-49 | six reads in order; the six values are the words the controller answered, in that order; or a bus error |
| StatusManager.StatusManager.ReadThree | processing/status_manager.py:44-49 | three one-register reads in order, returning the words answered, or the first bus error |
| StatusManager.StatusManager.ReadAllStatusRegisters | processing/status_manager.py:33-59 | the six reads, then the mirror update from the words answered: on success or on a ValueError the mirror is their `Converted` image, success iff the codes are valid, and a history entry is added iff the update succeeded and changed the snapshot; a bus error leaves the mirror alone |
| StatusManager.StatusManager.SetProcessingStatus | processing/status_manager.py:109-128 | writes register 2; the mirror changes only if the write reported success |
| StatusManager.StatusManager.SetPlcStatus | processing/status_manager.py:130-149 | writes register 3; the mirror changes only on success |
| StatusManager.StatusManager.SetErrorCode | processing/status_manager.py:151-173 | writes register 5; the mirror changes only on success |
| StatusManager.StatusManager.ClearError | processing/status_manager.py:175-177 | writes NO_ERROR to register 5 |
| StatusManager.StatusManager.ResetTrigger | processing/status_manager.py:179-195 | writes IDLE to register 1; the mirror changes only on success |
| StatusManager.StatusManager.GetCurrentTrigger | processing/status_manager.py:197-210 | a fresh read of register 1: the trigger returned is the decoding of the word answered, mirrored on success; a word that is no trigger raises ValueError and leaves the mirror alone |
| StatusManager.StatusManager.GetSelectedBatch | processing/status_manager.py:212-225 | a fresh read of register 7: the word answered is returned and mirrored |
| StatusManager.StatusManager.TransitionToState | processing/status_manager.py:252-273 | a transition the table forbids is refused with a StateException, without writing, unless forced; otherwise the status write |
| StatusManager.StatusManager.ResetSystemState | processing/status_manager.py:337-363 | the four reset writes in order; a write answered False does not stop the later ones (`&=`), so every answer but the last is a write's answer and the sequence ends early only at a raise; true iff all four went out and the controller accepted each; then the system is ready |
| StatusManager.StatusManager.ResetStatusRegisters | processing/status_manager.py:350-352 | the processing, PLC and error resets in order, a False answer not stopping the later ones and only a raise ending them early; true iff all three went out and were accepted, leaving the mirror idle |
| StatusManager.StatusManager.IsSystemReady | processing/status_manager.py:326-330 | a ready system may start either a download or a send |
| StatusManager.StatusManager.IsErrorState | processing/status_manager.py:326-335 | an error state is never a ready one |
| ProcessingBatchManager.DownloadCodes | processing/processing_batch_manager.py:93-127 | a download reports FIREBASE_FAIL iff it caught a FirebaseException; the fetcher's RetryExhausted is reported as a data format error |
| ProcessingBatchManager.LoadCodes | processing/processing_batch_manager.py:194-219 | a load reports DATA_FORMAT_ERROR iff it caught a DataValidationException |
| ProcessingBatchManager.BatchProcessingError | processing/processing_batch_manager.py:97-100 | the re-raised exception is a BatchProcessingException with the message and no error code |
| ProcessingBatchManager.BatchProcessingErrorRaised | core/exceptions.py:125-138 | it is what the constructor builds: the operation does not reach `details` |
| ProcessingBatchManager.DataValidationError | processing/processing_batch_manager.py:352-356 | a DataValidationException carrying DATA_FORMAT_ERROR |
| ProcessingBatchManager.DataValidationErrorRaised | core/exceptions.py:106-122 | it is what the constructor builds with the raise sites' parameters |
| ProcessingBatchManager.ParseFailureThrown | processing/data_parser.py:58-61 | a parse failure raises DataValidationException |
| ProcessingBatchManager.MergeFailureThrown | processing/data_parser.py:269 | a merge failure raises ValueError |
| ProcessingBatchManager.ConversionFailureThrown | processing/data_parser.py:333-339 | a conversion failure raises DataValidationException |
| ProcessingBatchManager.WithPlaceholders | processing/processing_batch_manager.py:275-280 | one batch per slot |
| ProcessingBatchManager.DownloadPlan | processing/processing_batch_manager.py:65-75 | parse, merge and convert: success gives five valid batches and their 120-word image; failure is a DataValidationException or a foreign error |
| ProcessingBatchManager.DownloadNeedsFiveEntries | processing/processing_batch_manager.py:63-75 | a download reaches the write only when the cloud gave five entries and all of them parsed |
| ProcessingBatchManager.QuoteRejectedNotCleaned | processing/processing_batch_manager.py:162-169 | a double quote fails the load's validation although sanitising would have removed it |
| ProcessingBatchManager.SendFailureIsTypeError | processing/processing_batch_manager.py:379-382 | `ZanasiException(..., details=results)` raises TypeError, because a connection subclass receives `details` twice |
| ProcessingBatchManager.InvalidSelection | processing/processing_batch_manager.py:145-149 | a selected position outside 1..5 raises BatchProcessingException, not a bus error |
| ProcessingBatchManager.EmptySlot | processing/processing_batch_manager.py:155-160 | an empty slot or a zero index raises BatchProcessingException, not a bus error |
| ProcessingBatchManager.BatchManager.constructor | processing/processing_batch_manager.py:23-39 | a fresh manager with no batches, no operations and no send |
| ProcessingBatchManager.BatchManager.Fail | processing/processing_batch_manager.py:93-127 | writes the error code, then ERROR, then raises BatchProcessingException from the cause; a failing write raises instead and never resets the trigger |
| ProcessingBatchManager.BatchManager.ReadSlots | processing/processing_batch_manager.py:56-60 | the status writes and the full-image read; the slots are the extraction of the 120 words the controller answered |
| ProcessingBatchManager.BatchManager.FetchRecords | processing/processing_batch_manager.py:63-69 | the status writes around a fetch; the records returned are the cloud's recorded answer, at most five |
| ProcessingBatchManager.BatchManager.Prepare | processing/processing_batch_manager.py:55-69 | the slot read then the fetch, without resetting the trigger; the slots and records are the controller's and the cloud's answers |
| ProcessingBatchManager.BatchManager.Commit | processing/processing_batch_manager.py:74-83 | the image write, DATA_RECEIVED, READY_TO_SEND, the trigger reset and DISPLAYING, in order |
| ProcessingBatchManager.BatchManager.Announce | processing/processing_batch_manager.py:77-83 | DATA_RECEIVED, READY_TO_SEND, the trigger reset and DISPLAYING, in order, or the first bus error |
| ProcessingBatchManager.BatchManager.Download | processing/processing_batch_manager.py:54-83 | success writes the image `DownloadPlan` gives for the records the cloud answered and the slots decoded from the words the controller answered, with exactly the download's traffic; a failure before the image write is a bus or fetch error or the plan's own error, and never resets the trigger; a failure after it is a bus error or the refused write |
| ProcessingBatchManager.BatchManager.KeepBatches | processing/processing_batch_manager.py:85-88 | the merged batches are kept and the operation counted |
| ProcessingBatchManager.BatchManager.ProcessDownloadBatchTrigger | processing/processing_batch_manager.py:41-127 | success counts one operation and keeps the merged batches, planned from the words and records actually answered; failure writes the mapped error code and ERROR and re-raises a cause that is a bus or fetch error, the plan's error or the refused write; a plan failure leaves exactly the download's reads and the failure writes; nothing before the image write resets the trigger |
| ProcessingBatchManager.BatchManager.ReadBatchFromPlc | processing/processing_batch_manager.py:321-346 | reads slot n's 20 words and returns the slot decoder's result on the words the controller answered |
| ProcessingBatchManager.BatchManager.SlotBatch | processing/processing_batch_manager.py:153-160 | the batch returned is the decoding of the slot's words as answered; an empty slot or a zero index is refused with the slot-number message |
| ProcessingBatchManager.BatchManager.PickSlot | processing/processing_batch_manager.py:143-160 | the position is the word answered to the register-7 read; outside 1..5 it is refused after that one read; otherwise the batch decoded from the words answered for that slot |
| ProcessingBatchManager.BatchManager.SlotAt | processing/processing_batch_manager.py:145-160 | a position outside 1..5 is refused before any read; otherwise the batch decoded from that slot's answered words |
| ProcessingBatchManager.BatchManager.Select | processing/processing_batch_manager.py:142-163 | the batch decoded from the selected slot's answered words is passed on only if it passes the printer-field validation; a validation failure means it had complaints |
| ProcessingBatchManager.BatchManager.Send | processing/processing_batch_manager.py:165-192 | both printheads get the sanitised commands once each; success means both went through, then COMPLETE and the trigger reset; a failure that is not a bus error means some printhead did not go through |
| ProcessingBatchManager.BatchManager.Load | processing/processing_batch_manager.py:142-192 | success loads the batch decoded from the answered words of the answered position onto both printheads with exactly the load's traffic; a refused selection, slot or validation contacts no printhead; a failed send leaves some printhead not through |
| ProcessingBatchManager.BatchManager.RecordSend | processing/processing_batch_manager.py:176-183 | the send is recorded and the operation counted |
| ProcessingBatchManager.BatchManager.ProcessLoadToZanasiTrigger | processing/processing_batch_manager.py:129-219 | success loads the batch decoded from the answered words of the answered position onto both printheads and records it; failure writes the mapped code and ERROR and re-raises; a batch-processing or validation cause contacts no printhead; an out-of-range selection leaves exactly its read and the failure writes |
| ProcessingBatchManager.CheckForZanasi | processing/processing_batch_manager.py:348-356 | passes iff `validate_zanasi_data` reports nothing |
| ProcessingBatchManager.Transform | processing/processing_batch_manager.py:65-75 | the parse-map-convert steps compute `DownloadPlan` |
| ProcessingBatchManager.PlcBatchesForMapping | processing/processing_batch_manager.py:274-280 | empty slots become the placeholder, and the other slots keep their batch |
| TriggerLoop.LoopErrorCode | batch_processor.py:248 | the exception's code when truthy, else DATA_FORMAT_ERROR |
| TriggerLoop.BatchProcessor.constructor | batch_processor.py:41-47 | not running, last trigger IDLE, no operations or errors |
| TriggerLoop.BatchProcessor.HandleDownloadBatch | batch_processor.py:283-294 | runs the download handler, passing on what it raises |
| TriggerLoop.BatchProcessor.HandleLoadToZanasi | batch_processor.py:296-307 | runs the load handler, passing on what it raises |
| TriggerLoop.BatchProcessor.Dispatch | batch_processor.py:266-273 | IDLE runs nothing; otherwise the matching handler |
| TriggerLoop.BatchProcessor.ProcessTriggerChange | batch_processor.py:262-281 | success counts one operation; a handler failure writes DATA_FORMAT_ERROR and ERROR and re-raises; IDLE touches no register |
| TriggerLoop.BatchProcessor.HandleLoopException | batch_processor.py:242-260 | every caught exception is counted and kept; a taxonomy exception also writes its code (or DATA_FORMAT_ERROR) and ERROR |
| TriggerLoop.BatchProcessor.Tick | batch_processor.py:229-260 | the trigger acted on is the decoding of the first answer the controller gives in the pass; an unchanged trigger only reads; a changed one is remembered only if handled without an exception; each pass counts at most one operation or one error |
| TriggerLoop.BatchProcessor.Run | batch_processor.py:225-260 | the loop runs until its condition fails or an exception escapes; the counters only grow, by at most one per pass |

## Left out

- Timing: sleeps, timestamps, timeouts and `last_operation_time` are not modelled. History entries and `last_zanasi_send` carry no timestamp.
- Logging: log calls and their message texts are not modelled. The exception messages that the model's contracts compare are modelled.
- Threads: the status monitor thread and its callback registration are not modelled. Only its change diff (`_check_for_changes`) is. Signal handling, start/stop plumbing and configuration loading are not modelled either.
- Reporting helpers: the status and summary builders (`get_*status`, the status reporter, `get_batch_summary_for_logging`, `compare_batch_data`, `get_processing_statistics`) are not modelled. They only gather values for display.
- Connection tests and extra entry points: `test_connection`, `test_both_printheads`, `send_commands_to_both_printheads`, the cached fetch and the factory functions are not modelled. They are diagnostics or alternative entry points outside the trigger-driven core.
- Sockets, Modbus framing and HTTP: these are abstract in `Collaborators` and in the printhead attempt. Each call may succeed or fail, and only what the interface promises about each outcome is fixed. HTTP status handling and JSON decoding inside `fetch_batch_data` are not modelled beyond "some response was processed, or the fetch raised".
- The register manager facade over the Modbus client, and the duplicate enum module `core/core_enums.py`, are not part of this model.
- Floating-point values in the cloud JSON are not modelled. Values are integers, strings, booleans, None and nested structures.
- Registers.TextFieldRoundTrip: the round trip is proved only for NUL-free ASCII text. Non-ASCII text is encoded to UTF-8 but not proved to decode back, because the decoder reads one byte per character.
- The logs in the model are not fields of the original objects: the bus log of register requests with the controller's answers beside them, the bus's count of calls that raised before sending, each printhead's call history and the cloud's recorded answers exist so that contracts can state the order of traffic and tie results to what was answered.
- TriggerLoop.BatchProcessor.Tick: states that the trigger acted on is the pass's first answer, and, for an unchanged trigger, that the pass's only request is the read of register 1; after a changed trigger the handlers' logs are not stated to keep that first request in place.
- ProcessingBatchManager.ResultsRecord: the `results` dict handed to `ZanasiException` is approximated by a record holding its success flags. This is enough to show the duplicate `details` argument.
- TriggerLoop.BatchProcessor.Run: runs for at most a given number of passes, since the original loops until shutdown. The shutdown flag is only checked at the top of each pass, as in the original.
- RegisterValidator.AllSlotMessages: requires a full 120-word image. Shorter images are handled by `RegisterArrayErrors`, whose slot messages are stated per slot.
- Values.ParseIntLiteral: only the ASCII digits 0-9 are digits. Python's `int()` also accepts other Unicode decimal digits, such as Arabic-Indic or full-width ones; the model refuses them. The cloud data this core reads carries ASCII numbers.
