/** `DataDescription`: the immutable description of a job's input data
    (format, time field, time format, field delimiter, quote character), its
    derived transformation flags, equality, single-character extraction and
    its binary encoding. */
module DataDescriptions {
  import opened Results
  import opened JavaText
  import opened Streams
  import opened DataFormats

  /** Reserved time format: seconds since the epoch. */
  const Epoch := "epoch"
  /** Reserved time format: milliseconds since the epoch. */
  const EpochMs := "epoch_ms"
  const DefaultTimeField := "time"
  const DefaultDelimiter: JChar := '\t'
  const DefaultQuoteChar: JChar := '"'

  /** The five final fields; a `None` string is a Java null, which the public
      constructor admits although the builder never produces it. */
  datatype DataDescription = DataDescription(
    format: DataFormat,
    timeFieldName: Option<string>,
    timeFormat: Option<string>,
    fieldDelimiter: JChar,
    quoteCharacter: JChar)

  /** What a builder with no setter applied produces. */
  const Defaults := DataDescription(Delimited, Some(DefaultTimeField), Some(Epoch), DefaultDelimiter, DefaultQuoteChar)

  /** `transform()`: the data must be reshaped before analysis. */
  predicate Transform(d: DataDescription) {
    d.format == Json || IsTransformTime(d)
  }

  /** `isTransformTime()`: the timestamp is not already in epoch seconds. */
  predicate IsTransformTime(d: DataDescription) {
    d.timeFormat.Some? && d.timeFormat.value != Epoch
  }

  /** `isEpochMs()`. */
  predicate IsEpochMs(d: DataDescription) {
    d.timeFormat == Some(EpochMs)
  }

  /** The data passes through untouched exactly when it is not JSON and its
      time is absent or already in epoch seconds. */
  lemma NoTransformExactly(d: DataDescription)
    ensures !Transform(d) <==> d.format != Json && (d.timeFormat == None || d.timeFormat == Some(Epoch))
  {
  }

  /** The three derived flags on each kind of time format. */
  lemma TimeFlagsByFormat(d: DataDescription)
    ensures d.timeFormat == None ==> !IsTransformTime(d) && !IsEpochMs(d)
    ensures d.timeFormat == Some(Epoch) ==> !IsTransformTime(d) && !IsEpochMs(d) && (Transform(d) <==> d.format == Json)
    ensures d.timeFormat == Some(EpochMs) ==> IsTransformTime(d) && IsEpochMs(d) && Transform(d)
    ensures d.timeFormat.Some? && d.timeFormat.value != Epoch && d.timeFormat.value != EpochMs ==>
      IsTransformTime(d) && !IsEpochMs(d) && Transform(d)
    ensures d.format == Json ==> Transform(d)
  {
  }

  /** An empty time format is not `epoch`, so it counts as a date pattern
      that needs transforming, whatever the documentation of the getter says. */
  lemma EmptyTimeFormatIsTransformed(d: DataDescription)
    ensures d.timeFormat == Some("") ==> IsTransformTime(d) && !IsEpochMs(d) && Transform(d)
  {
  }

  /** Milliseconds since the epoch still need converting. */
  lemma EpochMsIsTransformed(d: DataDescription)
    ensures IsEpochMs(d) ==> IsTransformTime(d) && Transform(d)
  {
  }

  /** `equals(Object)`: `other` is `None` when it is null or not a
      DataDescription; otherwise the five fields are compared. */
  predicate Equals(d: DataDescription, other: Option<DataDescription>) {
    match other
    case None => false
    case Some(that) =>
      && d.format == that.format
      && d.quoteCharacter == that.quoteCharacter
      && d.timeFieldName == that.timeFieldName
      && d.timeFormat == that.timeFormat
      && d.fieldDelimiter == that.fieldDelimiter
  }

  /** Equality is structural: it holds exactly between equal values, so it
      is reflexive, symmetric and transitive. */
  lemma EqualsIsStructural(a: DataDescription, b: DataDescription, c: DataDescription)
    ensures Equals(a, Some(b)) <==> a == b
    ensures Equals(a, Some(a))
    ensures Equals(a, Some(b)) ==> Equals(b, Some(a))
    ensures Equals(a, Some(b)) && Equals(b, Some(c)) ==> Equals(a, Some(c))
    ensures !Equals(a, None)
  {
  }

  /** The kind of token an XContent parser stands on. */
  datatype ParserToken =
    | StartObject | EndObject | StartArray | EndArray | FieldName
    | ValueString(text: string) | ValueNumber | ValueBoolean | ValueEmbeddedObject | ValueNull

  /** `extractChar`: the one character of a string token of length 1. */
  function ExtractChar(token: ParserToken): (r: Result<JChar>)
    ensures r.Ok? <==> token.ValueString? && |token.text| == 1 && IsBmp(token.text[0])
    ensures r.Ok? ==> token.text == [r.value]
    ensures r.Err? ==> r.error == if token.ValueString? then NotSingleCharacter else UnsupportedToken
  {
    if token.ValueString? then
      var charStr := token.text;
      Utf16LengthIsOne(charStr);
      if Utf16Length(charStr) != 1 then Err(NotSingleCharacter) else Ok(charStr[0])
    else
      Err(UnsupportedToken)
  }

  /** The low eight bits of a character, all that `write(int)` keeps. */
  function LowByte(c: JChar): Byte {
    c as int % 0x100
  }

  /** `(char) in.read()`: a byte, or 0xFFFF for the -1 of the end of stream. */
  function CharOfRead(b: int): (c: JChar)
    requires -1 <= b < 0x100
    ensures b >= 0 ==> c as int == b
    ensures b == -1 ==> c as int == 0xFFFF
  {
    if b == -1 then '\U{FFFF}' else b as char
  }

  /** What `writeTo` has written when it returns or throws. */
  datatype Emitted = Emitted(outcome: Outcome, tokens: seq<Token>)

  /** `writeTo`: format ordinal, time field, time format, delimiter byte,
      quote byte.  A null string throws after the items before it. */
  function Encode(d: DataDescription): (e: Emitted)
    ensures e.outcome.Pass? <==> d.timeFieldName.Some? && d.timeFormat.Some?
    ensures e.outcome.Fail? ==> e.outcome.error == NullValue
    ensures 1 <= |e.tokens| <= 5 && e.tokens[0] == VIntToken(Ordinal(d.format))
    ensures e.outcome.Pass? ==> |e.tokens| == 5
  {
    var head := [VIntToken(Ordinal(d.format))];
    match d.timeFieldName
    case None => Emitted(Fail(NullValue), head)
    case Some(name) =>
      match d.timeFormat
      case None => Emitted(Fail(NullValue), head + [StringToken(name)])
      case Some(timeFormat) =>
        Emitted(Pass, head + [StringToken(name), StringToken(timeFormat),
                              ByteToken(LowByte(d.fieldDelimiter)), ByteToken(LowByte(d.quoteCharacter))])
  }

  /** The stream constructor: read the five fields in the order `writeTo`
      wrote them; the first failing read ends it, with the items read so far
      consumed. */
  function DecodeAt(ts: seq<Token>, pos: nat): Step<DataDescription> {
    var format := FormatAt(ts, pos);
    if format.result.Err? then Step(Err(format.result.error), format.next) else
    var name := StringAt(ts, format.next);
    if name.result.Err? then Step(Err(name.result.error), name.next) else
    var timeFormat := StringAt(ts, name.next);
    if timeFormat.result.Err? then Step(Err(timeFormat.result.error), timeFormat.next) else
    var delimiter := ByteAt(ts, timeFormat.next);
    if delimiter.result.Err? then Step(Err(delimiter.result.error), delimiter.next) else
    var quote := ByteAt(ts, delimiter.next);
    if quote.result.Err? then Step(Err(quote.result.error), quote.next) else
    Step(Ok(DataDescription(format.result.value, Some(name.result.value), Some(timeFormat.result.value),
                            CharOfRead(delimiter.result.value), CharOfRead(quote.result.value))),
         quote.next)
  }

  /** `writeTo(StreamOutput)`. */
  method WriteTo(d: DataDescription, output: StreamOutput) returns (r: Outcome)
    modifies output
    ensures r == Encode(d).outcome
    ensures output.tokens == old(output.tokens) + Encode(d).tokens
  {
    DataFormats.WriteTo(d.format, output);
    r := output.WriteString(d.timeFieldName);
    if r.Fail? {
      return;
    }
    r := output.WriteString(d.timeFormat);
    if r.Fail? {
      return;
    }
    output.Write(d.fieldDelimiter as int);
    output.Write(d.quoteCharacter as int);
  }

  /** `DataDescription(StreamInput)`. */
  method ReadFrom(input: StreamInput) returns (r: Result<DataDescription>)
    requires input.Valid()
    modifies input
    ensures input.Valid()
    ensures Step(r, input.pos) == DecodeAt(input.tokens, old(input.pos))
  {
    var format := DataFormats.ReadFrom(input);
    if format.Err? {
      return Err(format.error);
    }
    var timeFieldName := input.ReadString();
    if timeFieldName.Err? {
      return Err(timeFieldName.error);
    }
    var timeFormat := input.ReadString();
    if timeFormat.Err? {
      return Err(timeFormat.error);
    }
    var fieldDelimiter := input.Read();
    if fieldDelimiter.Err? {
      return Err(fieldDelimiter.error);
    }
    var quoteCharacter := input.Read();
    if quoteCharacter.Err? {
      return Err(quoteCharacter.error);
    }
    r := Ok(DataDescription(format.value, Some(timeFieldName.value), Some(timeFormat.value),
                            CharOfRead(fieldDelimiter.value), CharOfRead(quoteCharacter.value)));
  }

  /** What decoding an encoding yields: the description with each character
      cut down to its low byte. */
  function Truncated(d: DataDescription): (t: DataDescription)
    ensures t.format == d.format && t.timeFieldName == d.timeFieldName && t.timeFormat == d.timeFormat
    ensures t.fieldDelimiter as int == d.fieldDelimiter as int % 0x100
    ensures t.quoteCharacter as int == d.quoteCharacter as int % 0x100
    ensures d.fieldDelimiter as int < 0x100 && d.quoteCharacter as int < 0x100 ==> t == d
  {
    d.(fieldDelimiter := CharOfRead(LowByte(d.fieldDelimiter)),
       quoteCharacter := CharOfRead(LowByte(d.quoteCharacter)))
  }

  /** Decoding a complete encoding, wherever it sits in the stream, consumes
      exactly its five items and yields the truncated description. */
  lemma DecodeEncode(d: DataDescription, prefix: seq<Token>, suffix: seq<Token>)
    requires d.timeFieldName.Some? && d.timeFormat.Some?
    ensures DecodeAt(prefix + Encode(d).tokens + suffix, |prefix|) == Step(Ok(Truncated(d)), |prefix| + 5)
  {
  }

  /** The binary round trip is exact when both characters fit in a byte. */
  lemma RoundTrip(d: DataDescription)
    requires d.timeFieldName.Some? && d.timeFormat.Some?
    requires d.fieldDelimiter as int < 0x100 && d.quoteCharacter as int < 0x100
    ensures DecodeAt(Encode(d).tokens, 0) == Step(Ok(d), 5)
  {
  }

  /** A delimiter above 255 does not survive the round trip: only its low
      byte comes back. */
  lemma WideDelimiterIsTruncated(d: DataDescription)
    requires d.timeFieldName.Some? && d.timeFormat.Some?
    requires d.fieldDelimiter as int >= 0x100
    ensures DecodeAt(Encode(d).tokens, 0).result.Ok?
    ensures DecodeAt(Encode(d).tokens, 0).result.value.fieldDelimiter as int == d.fieldDelimiter as int % 0x100
    ensures DecodeAt(Encode(d).tokens, 0).result != Ok(d)
  {
  }

  /** A stream whose leading ordinal is unknown yields an error and no value,
      with just the ordinal consumed. */
  lemma UnknownOrdinalFails(ordinal: Int32, prefix: seq<Token>, suffix: seq<Token>)
    requires ordinal < 0 || ordinal >= |Values|
    ensures DecodeAt(prefix + [VIntToken(ordinal)] + suffix, |prefix|) == Step(Err(UnknownOrdinal(ordinal)), |prefix| + 1)
  {
  }

  /** A stream cut inside an encoding: a missing ordinal or string is an
      end-of-stream error, but a missing byte is read as -1, that is as the
      character 0xFFFF, and decoding succeeds. */
  lemma {:induction false} CutStream(d: DataDescription, n: nat)
    requires d.timeFieldName.Some? && d.timeFormat.Some?
    requires n < 5
    ensures n < 3 ==> DecodeAt(Encode(d).tokens[..n], 0).result == Err(EndOfStream)
    ensures n == 3 ==>
      DecodeAt(Encode(d).tokens[..n], 0).result == Ok(d.(fieldDelimiter := '\U{FFFF}', quoteCharacter := '\U{FFFF}'))
    ensures n == 4 ==>
      DecodeAt(Encode(d).tokens[..n], 0).result == Ok(Truncated(d).(quoteCharacter := '\U{FFFF}'))
  {
  }
}
