# DataDescription: a verified model

This project models the data description of a machine-learning job in
Elasticsearch's ML plugin (`DataDescription.java`). The description says how a
job's input records are shaped:

- the wire format (`json`, `delimited`, `single_line`, or the deprecated `elasticsearch`);
- the field that carries the timestamp, and how that timestamp is written (`epoch`, `epoch_ms` or a date pattern);
- the delimiter and quote characters of delimited text.

The model covers:

- the `DataFormat` enum, with its case-insensitive lookup and the legacy alias `DELINEATED`;
- the immutable five-field record and its structural equality;
- the three derived flags that decide whether records must be transformed before analysis;
- single-character extraction for the delimiter and quote;
- the binary encoding, which writes the fields in a fixed order and each character as one byte;
- the mutable `Builder`, its validating setters, and the parser's dispatch of configuration fields to those setters.

Modules, one per concern:

| file | module | models |
|---|---|---|
| `results.dfy` | `Results` | Java `null` as `Option.None`; thrown exceptions as `Result.Err`/`Outcome.Fail`, keeping only the kind of error |
| `java_text.dfy` | `JavaText` | Java `char` (one UTF-16 code unit), `String.length()`, `toUpperCase(Locale.ROOT)` |
| `streams.dfy` | `Streams` | `StreamOutput`/`StreamInput` as classes over a sequence of written items (VInt, string, byte) |
| `data_format.dfy` | `DataFormats` | the `DataFormat` enum |
| `data_description.dfy` | `DataDescriptions` | the record, its flags, `equals`, `extractChar`, `writeTo` and the stream constructor |
| `builder.dfy` | `Builders` | `Builder` (a class with five mutable fields) and the parser's per-field dispatch |

The date-pattern compiler `DateTimeFormatterTimestampConverter.ofPattern` is
not part of this model. It enters as a predicate `validPattern: string -> bool`,
which is true when a pattern compiles. It is a constant of each `Builder` and a
parameter of the pure functions that validate time formats.

`setTimeField` stores any non-null name, the empty one included
(DataDescription.java:324-326), and so does the model.

## Model

| member | source | states |
|---|---|---|
| `JavaText.Utf16LengthIsOne` | elasticsearch/src/main/java/org/elasticsearch/xpack/ml/job/DataDescription.java:272 | a Java string has length 1 exactly when it is a single character of the Basic Multilingual Plane |
| `JavaText.ToUpperAscii` | elasticsearch/src/main/java/org/elasticsearch/xpack/ml/job/DataDescription.java:71 | on ASCII text, upper-casing maps character by character and changes only 'a' to 'z' |
| `Streams.VIntAt` | elasticsearch/src/main/java/org/elasticsearch/xpack/ml/job/DataDescription.java:77 | `readVInt` succeeds exactly on an int item, returns that item and advances by one; otherwise it fails and consumes nothing |
| `Streams.StringAt` | elasticsearch/src/main/java/org/elasticsearch/xpack/ml/job/DataDescription.java:156-157 | `readString` succeeds exactly on a string item, returns it (never null) and advances by one |
| `Streams.ByteAt` | elasticsearch/src/main/java/org/elasticsearch/xpack/ml/job/DataDescription.java:158-159 | `read()` returns an unsigned byte in 0..255, or -1 without error exactly at the end of the stream |
| `Streams.StreamOutput.WriteVInt` | elasticsearch/src/main/java/org/elasticsearch/xpack/ml/job/DataDescription.java:86 | appends exactly one int item |
| `Streams.StreamOutput.WriteString` | elasticsearch/src/main/java/org/elasticsearch/xpack/ml/job/DataDescription.java:165-166 | appends the string, or throws on null and writes nothing |
| `Streams.StreamOutput.Write` | elasticsearch/src/main/java/org/elasticsearch/xpack/ml/job/DataDescription.java:167-168 | appends only the low eight bits of its argument |
| `Streams.StreamInput.ReadVInt` | elasticsearch/src/main/java/org/elasticsearch/xpack/ml/job/DataDescription.java:77 | its result and new position are those of `VIntAt` at the old position |
| `Streams.StreamInput.ReadString` | elasticsearch/src/main/java/org/elasticsearch/xpack/ml/job/DataDescription.java:156-157 | its result and new position are those of `StringAt` at the old position |
| `Streams.StreamInput.Read` | elasticsearch/src/main/java/org/elasticsearch/xpack/ml/job/DataDescription.java:158-159 | its result and new position are those of `ByteAt` at the old position |
| `DataFormats.Ordinal` | elasticsearch/src/main/java/org/elasticsearch/xpack/ml/job/DataDescription.java:42-46 | `values()[ordinal()]` is the constant itself, and every ordinal is below 4 |
| `DataFormats.ValueOf` | elasticsearch/src/main/java/org/elasticsearch/xpack/ml/job/DataDescription.java:72-73 | `valueOf` returns a constant exactly when the name is that constant's identifier, and fails otherwise |
| `DataFormats.ForString` | elasticsearch/src/main/java/org/elasticsearch/xpack/ml/job/DataDescription.java:70-74 | `forString(s)` returns `f` exactly when the upper case of `s` is `f`'s identifier, or `f` is DELIMITED and the upper case is `DELINEATED`; any other string fails |
| `DataFormats.ForStringByUpperCase` | elasticsearch/src/main/java/org/elasticsearch/xpack/ml/job/DataDescription.java:70-74 | lookup is case-insensitive: any string whose upper case is an identifier finds that constant |
| `DataFormats.UpperCaseOfName` | elasticsearch/src/main/java/org/elasticsearch/xpack/ml/job/DataDescription.java:42-46 | a constant's lower-case name and its identifier both upper-case to the identifier |
| `DataFormats.ForStringFindsEveryName` | elasticsearch/src/main/java/org/elasticsearch/xpack/ml/job/DataDescription.java:70-74 | every constant is found from both its lower-case name and its identifier |
| `DataFormats.DelineatedIsDelimited` | elasticsearch/src/main/java/org/elasticsearch/xpack/ml/job/DataDescription.java:52-74 | `DELINEATED` and `delineated` both resolve to DELIMITED |
| `DataFormats.FromOrdinal` | elasticsearch/src/main/java/org/elasticsearch/xpack/ml/job/DataDescription.java:78-81 | an ordinal is accepted exactly when `0 <= ordinal < 4`, giving the constant with that ordinal; any other ordinal gives an unknown-ordinal error |
| `DataFormats.FormatAt` | elasticsearch/src/main/java/org/elasticsearch/xpack/ml/job/DataDescription.java:76-82 | reading a format succeeds exactly on an int item in range, and that item is the format's ordinal |
| `DataFormats.ReadFrom` | elasticsearch/src/main/java/org/elasticsearch/xpack/ml/job/DataDescription.java:76-82 | `readFromStream` yields what `FormatAt` yields, and leaves the stream where it says |
| `DataFormats.WriteTo` | elasticsearch/src/main/java/org/elasticsearch/xpack/ml/job/DataDescription.java:84-87 | `writeTo` appends exactly the ordinal |
| `DataFormats.FormatRoundTrip` | elasticsearch/src/main/java/org/elasticsearch/xpack/ml/job/DataDescription.java:76-87 | reading back what `writeTo` wrote gives the same constant, anywhere in a stream |
| `DataFormats.UnknownOrdinalRejected` | elasticsearch/src/main/java/org/elasticsearch/xpack/ml/job/DataDescription.java:78-79 | an out-of-range ordinal gives an error and no value, and is consumed |
| `DataDescriptions.NoTransformExactly` | elasticsearch/src/main/java/org/elasticsearch/xpack/ml/job/DataDescription.java:244-258 | `transform()` is false exactly when the format is not JSON and the time format is null or `epoch` |
| `DataDescriptions.TimeFlagsByFormat` | elasticsearch/src/main/java/org/elasticsearch/xpack/ml/job/DataDescription.java:244-267 | the three flags for each kind of time format (null, `epoch`, `epoch_ms`, a pattern); JSON always transforms |
| `DataDescriptions.EmptyTimeFormatIsTransformed` | elasticsearch/src/main/java/org/elasticsearch/xpack/ml/job/DataDescription.java:256-258 | an empty time format counts as a pattern to transform, not as epoch seconds |
| `DataDescriptions.EpochMsIsTransformed` | elasticsearch/src/main/java/org/elasticsearch/xpack/ml/job/DataDescription.java:256-267 | `isEpochMs()` implies `isTransformTime()` and `transform()` |
| `DataDescriptions.EqualsIsStructural` | elasticsearch/src/main/java/org/elasticsearch/xpack/ml/job/DataDescription.java:283-300 | `equals` holds exactly between descriptions equal in all five fields, so it is an equivalence; it is false for null or another class |
| `DataDescriptions.ExtractChar` | elasticsearch/src/main/java/org/elasticsearch/xpack/ml/job/DataDescription.java:269-278 | succeeds exactly on a string token that is one BMP character, returning that character; fails with a length error on any other string, and an unsupported-token error on any other token |
| `DataDescriptions.CharOfRead` | elasticsearch/src/main/java/org/elasticsearch/xpack/ml/job/DataDescription.java:158-159 | `(char) in.read()` is the byte's value, or 0xFFFF for the -1 that marks the end of the stream |
| `DataDescriptions.Encode` | elasticsearch/src/main/java/org/elasticsearch/xpack/ml/job/DataDescription.java:162-169 | the encoding starts with the format ordinal; it completes with five items exactly when neither string is null, and otherwise fails with a null error |
| `DataDescriptions.WriteTo` | elasticsearch/src/main/java/org/elasticsearch/xpack/ml/job/DataDescription.java:162-169 | `writeTo` appends exactly `Encode`'s items in order: format, time field, time format, delimiter byte, quote byte |
| `DataDescriptions.ReadFrom` | elasticsearch/src/main/java/org/elasticsearch/xpack/ml/job/DataDescription.java:154-160 | the stream constructor yields what `DecodeAt` yields and consumes what it says |
| `DataDescriptions.Truncated` | elasticsearch/src/main/java/org/elasticsearch/xpack/ml/job/DataDescription.java:158-168 | keeps format and strings, replaces each character by its value modulo 256, and changes nothing when both already fit in a byte |
| `DataDescriptions.DecodeEncode` | elasticsearch/src/main/java/org/elasticsearch/xpack/ml/job/DataDescription.java:154-169 | decoding an encoding anywhere in a stream consumes exactly five items and yields the description with both characters truncated to their low byte |
| `DataDescriptions.RoundTrip` | elasticsearch/src/main/java/org/elasticsearch/xpack/ml/job/DataDescription.java:154-169 | with non-null strings and delimiter and quote below 256, decoding the encoding gives the same description |
| `DataDescriptions.WideDelimiterIsTruncated` | elasticsearch/src/main/java/org/elasticsearch/xpack/ml/job/DataDescription.java:158-167 | a delimiter of 256 or more comes back as its low byte, so the round trip fails |
| `DataDescriptions.UnknownOrdinalFails` | elasticsearch/src/main/java/org/elasticsearch/xpack/ml/job/DataDescription.java:154-155 | a stream with an unknown leading ordinal decodes to an error, with no partial description |
| `DataDescriptions.CutStream` | elasticsearch/src/main/java/org/elasticsearch/xpack/ml/job/DataDescription.java:154-160 | an encoding cut before its strings end fails at end of stream; cut in its bytes, the missing characters read as 0xFFFF |
| `Builders.CheckTimeFormat` | elasticsearch/src/main/java/org/elasticsearch/xpack/ml/job/DataDescription.java:328-340 | a time format is accepted exactly when it is non-null and `epoch`, `epoch_ms` or a compiling pattern; null gives a null error, anything else an invalid-format error |
| `Builders.ReservedTimeFormatsAlwaysAccepted` | elasticsearch/src/main/java/org/elasticsearch/xpack/ml/job/DataDescription.java:330-333 | `epoch` and `epoch_ms` are accepted whatever the pattern compiler says; null never is |
| `Builders.WellFormedTimeFlags` | elasticsearch/src/main/java/org/elasticsearch/xpack/ml/job/DataDescription.java:256-258 | for a built description, time needs transforming exactly when the format is not `epoch`; a non-pattern time format that needs it is `epoch_ms` |
| `Builders.Builder.constructor` | elasticsearch/src/main/java/org/elasticsearch/xpack/ml/job/DataDescription.java:310-314 | a fresh builder holds `(DELIMITED, "time", "epoch", '\t', '"')` and its time format is valid |
| `Builders.Builder.SetFormat` | elasticsearch/src/main/java/org/elasticsearch/xpack/ml/job/DataDescription.java:316-318 | null fails and changes nothing; otherwise only the format changes |
| `Builders.Builder.SetFormatString` | elasticsearch/src/main/java/org/elasticsearch/xpack/ml/job/DataDescription.java:320-322 | succeeds exactly when `forString` finds a constant and then sets only the format to it; null or an unknown name fails and changes nothing |
| `Builders.Builder.SetTimeField` | elasticsearch/src/main/java/org/elasticsearch/xpack/ml/job/DataDescription.java:324-326 | null fails and changes nothing; any other name, empty included, sets only the time field |
| `Builders.Builder.SetTimeFormat` | elasticsearch/src/main/java/org/elasticsearch/xpack/ml/job/DataDescription.java:328-342 | succeeds exactly when `CheckTimeFormat` accepts, setting only the time format; on failure the stored time format and everything else is unchanged; the builder stays valid |
| `Builders.Builder.SetFieldDelimiter` | elasticsearch/src/main/java/org/elasticsearch/xpack/ml/job/DataDescription.java:344-346 | sets only the delimiter |
| `Builders.Builder.SetQuoteCharacter` | elasticsearch/src/main/java/org/elasticsearch/xpack/ml/job/DataDescription.java:348-350 | sets only the quote character |
| `Builders.Builder.Build` | elasticsearch/src/main/java/org/elasticsearch/xpack/ml/job/DataDescription.java:352-354 | returns the five current fields; the result has no null string and an accepted time format |
| `Builders.BuildDefaults` | elasticsearch/src/main/java/org/elasticsearch/xpack/ml/job/DataDescription.java:310-314 | a builder with no setter applied builds `(DELIMITED, "time", "epoch", '\t', '"')`, which needs no transformation |
| `Builders.ApplyField` | elasticsearch/src/main/java/org/elasticsearch/xpack/ml/job/DataDescription.java:138-144 | an undeclared field name or a non-string token fails; a member changes only the field it names; validity is preserved |
| `Builders.ParseFrom` | elasticsearch/src/main/java/org/elasticsearch/xpack/ml/job/DataDescription.java:135-144 | parsing keeps validity; success means every member was declared and a string; a field no member names keeps its value; when the object's final member is `time_field`, its text is the time field |
| `Builders.LastMemberWins` | elasticsearch/src/main/java/org/elasticsearch/xpack/ml/job/DataDescription.java:135-144 | for every field, the last member naming it decides its final value: the constant `forString` finds for `format`, the text for `time_field` and `time_format` (which must be accepted), the single character for `field_delimiter` and `quote_character` |
| `Builders.Parse` | elasticsearch/src/main/java/org/elasticsearch/xpack/ml/job/DataDescription.java:135-144 | every parsed description is well formed; an empty object gives the defaults |
| `Builders.ParseField` | elasticsearch/src/main/java/org/elasticsearch/xpack/ml/job/DataDescription.java:138-144 | dispatching a member through the builder's setters succeeds exactly when `ApplyField` does, and gives its state; a refused member leaves the builder unchanged |
| `Builders.ApplyFormatField` | elasticsearch/src/main/java/org/elasticsearch/xpack/ml/job/DataDescription.java:139 | a `format` member whose name `forString` finds sets only the format, to that constant |
| `Builders.ApplyTimeFieldNameField` | elasticsearch/src/main/java/org/elasticsearch/xpack/ml/job/DataDescription.java:140 | a `time_field` member sets only the time field, to its text |
| `Builders.ApplyTimeFormatField` | elasticsearch/src/main/java/org/elasticsearch/xpack/ml/job/DataDescription.java:141 | a `time_format` member with an accepted format sets only the time format |
| `Builders.ApplyCharacterFields` | elasticsearch/src/main/java/org/elasticsearch/xpack/ml/job/DataDescription.java:142-143 | a one-character `field_delimiter` or `quote_character` member sets only that character |
| `Builders.ParseAllFields` | elasticsearch/src/main/java/org/elasticsearch/xpack/ml/job/DataDescription.java:135-144 | an object that sets all five fields once, with a known format name and an accepted time format, parses to exactly those five values |
| `Builders.LegacyDelimitedConfiguration` | elasticsearch/src/main/java/org/elasticsearch/xpack/ml/job/DataDescription.java:139-143 | `{"format":"DELINEATED","time_field":"ts","time_format":"epoch","field_delimiter":",","quote_character":"'"}` parses to `(DELIMITED, "ts", "epoch", ',', '\'')` |

## Left out

- `RestUpdateModelSnapshotAction.java`: REST route registration and delegation to a transport action, with no logic of its own.
- `toXContent` and the `ObjectParser` machinery: JSON rendering and parsing belong to the library. Only the per-field dispatch to the setters is modelled (`ApplyField`, `ParseFrom`), over an abstract list of name/token members.
- `hashCode`: it is `Objects.hash`, a library call.
- Getters: they are the record's field selectors. `LINE_ENDING` is never used by the modelled code.
- `ofPattern`, the date-pattern compiler: it is the predicate `validPattern`, so no particular pattern is known to pass or fail.
- The byte layouts of VInt and length-prefixed strings: the stream is a sequence of items. Reading an item of the wrong kind is an abstract `UnexpectedToken` error, where the real stream would reinterpret bytes.
- Exception messages: only the kind of error is kept.
- A null `DataFormat` passed straight to the public constructor: the record's format is never null in the model. The builder cannot produce a null format.
- Lone UTF-16 surrogates: a Java `char` is modelled as a Dafny character below 0x10000, which excludes the surrogate range.
- DataDescriptions.ExtractChar: a string holding one lone surrogate cannot be represented, so that single-character case is not covered.
- DataFormats.ForString: `toUpperCase(Locale.ROOT)` is modelled exactly for ASCII and for the non-ASCII characters whose upper case is all ASCII (dotless i, long s, sharp s, the Latin ligatures). Every other character is kept unchanged. Its true upper case is also non-ASCII, so neither can match an enum identifier, and the outcome of `forString` is the same.
- An empty time format: the getter's documentation (DataDescription.java:203-206) treats it like null, as epoch seconds, but `isTransformTime` (256-258) compares only with null and `epoch`. The model follows the code, and `EmptyTimeFormatIsTransformed` records the choice.
- No cross-field check that the delimiter differs from the quote character: the code does not make one, and neither does the model.
