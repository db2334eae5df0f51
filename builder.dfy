/** `DataDescription.Builder` and the parser that drives it: mutable
    defaults, setters that validate before they overwrite one field, and
    `build`.  The date-pattern compiler is not modelled; it enters as the
    predicate `validPattern`, true when a pattern compiles. */
module Builders {
  import opened Results
  import opened JavaText
  import opened DataFormats
  import opened DataDescriptions

  /** The time formats `setTimeFormat` stores: a reserved token, or a
      pattern the compiler accepts. */
  predicate AcceptedTimeFormat(format: string, validPattern: string -> bool) {
    format == Epoch || format == EpochMs || validPattern(format)
  }

  /** What every built description satisfies: no null string, and an
      accepted time format. */
  predicate WellFormed(d: DataDescription, validPattern: string -> bool) {
    d.timeFieldName.Some? && d.timeFormat.Some? && AcceptedTimeFormat(d.timeFormat.value, validPattern)
  }

  /** The validation of `setTimeFormat`: null is refused, the reserved tokens
      skip the pattern compiler, anything else must compile. */
  function CheckTimeFormat(format: Option<string>, validPattern: string -> bool): (r: Result<string>)
    ensures r.Ok? <==> format.Some? && AcceptedTimeFormat(format.value, validPattern)
    ensures r.Ok? ==> r.value == format.value
    ensures r.Err? ==> r.error == if format.None? then NullValue else InvalidTimeFormat
  {
    match format
    case None => Err(NullValue)
    case Some(f) =>
      if f == Epoch || f == EpochMs then Ok(f)
      else if validPattern(f) then Ok(f)
      else Err(InvalidTimeFormat)
  }

  /** The reserved tokens are accepted whatever the pattern compiler says. */
  lemma ReservedTimeFormatsAlwaysAccepted(validPattern: string -> bool)
    ensures CheckTimeFormat(Some(Epoch), validPattern) == Ok(Epoch)
    ensures CheckTimeFormat(Some(EpochMs), validPattern) == Ok(EpochMs)
    ensures CheckTimeFormat(None, validPattern) == Err(NullValue)
  {
  }

  /** A built description's time needs transforming exactly when its time
      format is not `epoch`; `epoch_ms` is the only reserved one that does. */
  lemma WellFormedTimeFlags(d: DataDescription, validPattern: string -> bool)
    requires WellFormed(d, validPattern)
    ensures IsTransformTime(d) <==> d.timeFormat.value != Epoch
    ensures IsTransformTime(d) && !validPattern(d.timeFormat.value) ==> IsEpochMs(d)
  {
  }

  class Builder {
    var dataFormat: DataFormat
    var timeFieldName: string
    var timeFormat: string
    var fieldDelimiter: JChar
    var quoteCharacter: JChar
    /** Whether the date-pattern compiler accepts a pattern. */
    const validPattern: string -> bool

    ghost predicate Valid()
      reads this
    {
      AcceptedTimeFormat(timeFormat, validPattern)
    }

    /** The description `build` would return now. */
    function Model(): DataDescription
      reads this
    {
      DataDescription(dataFormat, Some(timeFieldName), Some(timeFormat), fieldDelimiter, quoteCharacter)
    }

    constructor(validPattern: string -> bool)
      ensures this.validPattern == validPattern
      ensures Valid() && Model() == Defaults
    {
      dataFormat := Delimited;
      timeFieldName := DefaultTimeField;
      timeFormat := Epoch;
      fieldDelimiter := DefaultDelimiter;
      quoteCharacter := DefaultQuoteChar;
      this.validPattern := validPattern;
    }

    /** `setFormat(DataFormat)`: null is refused. */
    method SetFormat(format: Option<DataFormat>) returns (r: Outcome)
      requires Valid()
      modifies this`dataFormat
      ensures Valid()
      ensures r == if format.Some? then Pass else Fail(NullValue)
      ensures Model() == if format.Some? then old(Model()).(format := format.value) else old(Model())
    {
      if format.None? {
        return Fail(NullValue);
      }
      dataFormat := format.value;
      r := Pass;
    }

    /** `setFormat(String)`: the name is looked up with `forString`; null and
        unknown names are refused. */
    method SetFormatString(format: Option<string>) returns (r: Outcome)
      requires Valid()
      modifies this`dataFormat
      ensures Valid()
      ensures r.Pass? <==> format.Some? && ForString(format.value).Ok?
      ensures r.Fail? ==> r.error == if format.None? then NullValue else UnknownFormat
      ensures Model() == if r.Pass? then old(Model()).(format := ForString(format.value).value) else old(Model())
    {
      if format.None? {
        return Fail(NullValue);
      }
      var found := ForString(format.value);
      if found.Err? {
        return Fail(found.error);
      }
      r := SetFormat(Some(found.value));
    }

    /** `setTimeField`: null is refused, any other name (the empty one too)
        is stored. */
    method SetTimeField(fieldName: Option<string>) returns (r: Outcome)
      requires Valid()
      modifies this`timeFieldName
      ensures Valid()
      ensures r == if fieldName.Some? then Pass else Fail(NullValue)
      ensures Model() == if fieldName.Some? then old(Model()).(timeFieldName := fieldName) else old(Model())
    {
      if fieldName.None? {
        return Fail(NullValue);
      }
      timeFieldName := fieldName.value;
      r := Pass;
    }

    /** `setTimeFormat`: stores the format only when it passes
        `CheckTimeFormat`; on failure the stored format is unchanged. */
    method SetTimeFormat(format: Option<string>) returns (r: Outcome)
      requires Valid()
      modifies this`timeFormat
      ensures Valid()
      ensures r.Pass? <==> CheckTimeFormat(format, validPattern).Ok?
      ensures r.Fail? ==> r.error == CheckTimeFormat(format, validPattern).error
      ensures Model() == if r.Pass? then old(Model()).(timeFormat := format) else old(Model())
    {
      if format.None? {
        return Fail(NullValue);
      }
      var f := format.value;
      if f != Epoch && f != EpochMs {
        if !validPattern(f) {
          return Fail(InvalidTimeFormat);
        }
      }
      timeFormat := f;
      r := Pass;
    }

    method SetFieldDelimiter(delimiter: JChar)
      requires Valid()
      modifies this`fieldDelimiter
      ensures Valid()
      ensures Model() == old(Model()).(fieldDelimiter := delimiter)
    {
      fieldDelimiter := delimiter;
    }

    method SetQuoteCharacter(value: JChar)
      requires Valid()
      modifies this`quoteCharacter
      ensures Valid()
      ensures Model() == old(Model()).(quoteCharacter := value)
    {
      quoteCharacter := value;
    }

    /** `build`: the five fields as they stand, which are well formed. */
    method Build() returns (d: DataDescription)
      requires Valid()
      ensures d == Model()
      ensures WellFormed(d, validPattern)
    {
      d := DataDescription(dataFormat, Some(timeFieldName), Some(timeFormat), fieldDelimiter, quoteCharacter);
    }
  }

  /** `new Builder().build()`: with no setter applied the builder yields the
      documented defaults, which need no transformation. */
  method BuildDefaults(validPattern: string -> bool) returns (d: DataDescription)
    ensures d == DataDescription(Delimited, Some("time"), Some("epoch"), '\t', '"')
    ensures !Transform(d) && !IsEpochMs(d)
  {
    var builder := new Builder(validPattern);
    d := builder.Build();
  }

  const FormatField := "format"
  const TimeFieldNameField := "time_field"
  const TimeFormatField := "time_format"
  const FieldDelimiterField := "field_delimiter"
  const QuoteCharacterField := "quote_character"
  const FieldNames := {FormatField, TimeFieldNameField, TimeFormatField, FieldDelimiterField, QuoteCharacterField}

  /** One `"name": value` member of a `data_description` object. */
  datatype ConfigField = ConfigField(name: string, value: ParserToken)

  /** The parser's dispatch of one member to the setter declared for it.
      Every declared field takes a string token only; an undeclared name is
      refused. */
  function ApplyField(b: DataDescription, field: ConfigField, validPattern: string -> bool): (r: Result<DataDescription>)
    ensures r.Ok? ==> field.name in FieldNames && field.value.ValueString?
    ensures field.name !in FieldNames ==> r == Err(UnknownField)
    ensures r.Ok? && field.name != FormatField ==> r.value.format == b.format
    ensures r.Ok? && field.name != TimeFieldNameField ==> r.value.timeFieldName == b.timeFieldName
    ensures r.Ok? && field.name != TimeFormatField ==> r.value.timeFormat == b.timeFormat
    ensures r.Ok? && field.name != FieldDelimiterField ==> r.value.fieldDelimiter == b.fieldDelimiter
    ensures r.Ok? && field.name != QuoteCharacterField ==> r.value.quoteCharacter == b.quoteCharacter
    ensures r.Ok? && field.name == TimeFieldNameField ==> r.value.timeFieldName == Some(field.value.text)
    ensures WellFormed(b, validPattern) && r.Ok? ==> WellFormed(r.value, validPattern)
  {
    if field.name !in FieldNames then Err(UnknownField)
    else if !field.value.ValueString? then Err(UnsupportedToken)
    else
      var text := field.value.text;
      if field.name == FormatField then
        var format :- ForString(text);
        Ok(b.(format := format))
      else if field.name == TimeFieldNameField then
        Ok(b.(timeFieldName := Some(text)))
      else if field.name == TimeFormatField then
        var timeFormat :- CheckTimeFormat(Some(text), validPattern);
        Ok(b.(timeFormat := Some(timeFormat)))
      else if field.name == FieldDelimiterField then
        var delimiter :- ExtractChar(field.value);
        Ok(b.(fieldDelimiter := delimiter))
      else
        var quote :- ExtractChar(field.value);
        Ok(b.(quoteCharacter := quote))
  }

  /** True when no member of `fields` is named `name`. */
  predicate Untouched(fields: seq<ConfigField>, name: string) {
    forall i :: 0 <= i < |fields| ==> fields[i].name != name
  }

  /** The parser applied to the members of an object in order, from builder
      state `b`; the first refused member ends it. */
  function ParseFrom(b: DataDescription, fields: seq<ConfigField>, validPattern: string -> bool): (r: Result<DataDescription>)
    ensures WellFormed(b, validPattern) && r.Ok? ==> WellFormed(r.value, validPattern)
    ensures r.Ok? ==> forall i :: 0 <= i < |fields| ==> fields[i].name in FieldNames && fields[i].value.ValueString?
    ensures r.Ok? && Untouched(fields, FormatField) ==> r.value.format == b.format
    ensures r.Ok? && Untouched(fields, TimeFieldNameField) ==> r.value.timeFieldName == b.timeFieldName
    ensures r.Ok? && Untouched(fields, TimeFormatField) ==> r.value.timeFormat == b.timeFormat
    ensures r.Ok? && Untouched(fields, FieldDelimiterField) ==> r.value.fieldDelimiter == b.fieldDelimiter
    ensures r.Ok? && Untouched(fields, QuoteCharacterField) ==> r.value.quoteCharacter == b.quoteCharacter
    ensures r.Ok? && fields != [] && fields[|fields| - 1].name == TimeFieldNameField ==>
      r.value.timeFieldName == Some(fields[|fields| - 1].value.text)
    decreases |fields|
  {
    if fields == [] then Ok(b)
    else
      match ApplyField(b, fields[0], validPattern)
      case Err(e) => Err(e)
      case Ok(next) => ParseFrom(next, fields[1..], validPattern)
  }

  /** `PARSER` followed by `build`: a fresh builder fed the members in order. */
  function Parse(fields: seq<ConfigField>, validPattern: string -> bool): (r: Result<DataDescription>)
    ensures r.Ok? ==> WellFormed(r.value, validPattern)
    ensures fields == [] ==> r == Ok(Defaults)
  {
    ParseFrom(Defaults, fields, validPattern)
  }

  /** The dispatch of one member done on a builder through its setters:
      it succeeds exactly when `ApplyField` does, and a refused member leaves
      the builder as it was. */
  method ParseField(builder: Builder, field: ConfigField) returns (r: Outcome)
    requires builder.Valid()
    modifies builder
    ensures builder.Valid()
    ensures r.Pass? <==> ApplyField(old(builder.Model()), field, builder.validPattern).Ok?
    ensures builder.Model() ==
      if r.Pass? then ApplyField(old(builder.Model()), field, builder.validPattern).value else old(builder.Model())
  {
    if field.name !in FieldNames {
      return Fail(UnknownField);
    }
    if !field.value.ValueString? {
      return Fail(UnsupportedToken);
    }
    var text := field.value.text;
    if field.name == FormatField {
      r := builder.SetFormatString(Some(text));
    } else if field.name == TimeFieldNameField {
      r := builder.SetTimeField(Some(text));
    } else if field.name == TimeFormatField {
      r := builder.SetTimeFormat(Some(text));
    } else if field.name == FieldDelimiterField {
      var delimiter := ExtractChar(field.value);
      if delimiter.Err? {
        return Fail(delimiter.error);
      }
      builder.SetFieldDelimiter(delimiter.value);
      r := Pass;
    } else {
      var quote := ExtractChar(field.value);
      if quote.Err? {
        return Fail(quote.error);
      }
      builder.SetQuoteCharacter(quote.value);
      r := Pass;
    }
  }

  /** The parser takes the members one at a time. */
  lemma {:induction false} ParseFromStep(b: DataDescription, fields: seq<ConfigField>, validPattern: string -> bool, next: DataDescription)
    requires fields != [] && ApplyField(b, fields[0], validPattern) == Ok(next)
    ensures ParseFrom(b, fields, validPattern) == ParseFrom(next, fields[1..], validPattern)
  {
  }

  /** What each declared member does to the builder state when it is accepted. */
  lemma ApplyFormatField(b: DataDescription, text: string, validPattern: string -> bool, f: DataFormat)
    requires ForString(text) == Ok(f)
    ensures ApplyField(b, ConfigField(FormatField, ValueString(text)), validPattern) == Ok(b.(format := f))
  {
  }

  lemma ApplyTimeFieldNameField(b: DataDescription, text: string, validPattern: string -> bool)
    ensures ApplyField(b, ConfigField(TimeFieldNameField, ValueString(text)), validPattern) == Ok(b.(timeFieldName := Some(text)))
  {
  }

  lemma ApplyTimeFormatField(b: DataDescription, text: string, validPattern: string -> bool)
    requires AcceptedTimeFormat(text, validPattern)
    ensures ApplyField(b, ConfigField(TimeFormatField, ValueString(text)), validPattern) == Ok(b.(timeFormat := Some(text)))
  {
  }

  lemma ApplyCharacterFields(b: DataDescription, text: string, validPattern: string -> bool, c: JChar)
    requires text == [c]
    ensures ApplyField(b, ConfigField(FieldDelimiterField, ValueString(text)), validPattern) == Ok(b.(fieldDelimiter := c))
    ensures ApplyField(b, ConfigField(QuoteCharacterField, ValueString(text)), validPattern) == Ok(b.(quoteCharacter := c))
  {
  }

  /** True when `fields[k]` is the last member of `fields` named as it is. */
  predicate IsLastNamed(fields: seq<ConfigField>, k: int) {
    0 <= k < |fields| && forall j :: k < j < |fields| ==> fields[j].name != fields[k].name
  }

  /** A field named more than once ends with the value of its last member;
      the value is that member's text, read as the setter for the field reads it. */
  lemma {:induction false} LastMemberWins(b: DataDescription, fields: seq<ConfigField>, validPattern: string -> bool, k: int)
    requires IsLastNamed(fields, k)
    requires ParseFrom(b, fields, validPattern).Ok?
    ensures fields[k].value.ValueString?
    ensures fields[k].name == FormatField ==>
      ForString(fields[k].value.text).Ok? &&
      ParseFrom(b, fields, validPattern).value.format == ForString(fields[k].value.text).value
    ensures fields[k].name == TimeFieldNameField ==>
      ParseFrom(b, fields, validPattern).value.timeFieldName == Some(fields[k].value.text)
    ensures fields[k].name == TimeFormatField ==>
      AcceptedTimeFormat(fields[k].value.text, validPattern) &&
      ParseFrom(b, fields, validPattern).value.timeFormat == Some(fields[k].value.text)
    ensures fields[k].name == FieldDelimiterField ==>
      |fields[k].value.text| == 1 && ParseFrom(b, fields, validPattern).value.fieldDelimiter == fields[k].value.text[0]
    ensures fields[k].name == QuoteCharacterField ==>
      |fields[k].value.text| == 1 && ParseFrom(b, fields, validPattern).value.quoteCharacter == fields[k].value.text[0]
    decreases |fields|
  {
    var next := ApplyField(b, fields[0], validPattern).value;
    ParseFromStep(b, fields, validPattern, next);
    if k == 0 {
      assert Untouched(fields[1..], fields[0].name) by {
        forall i | 0 <= i < |fields[1..]|
          ensures fields[1..][i].name != fields[0].name
        {
          assert fields[1..][i] == fields[i + 1];
        }
      }
    } else {
      assert IsLastNamed(fields[1..], k - 1) by {
        forall j | k - 1 < j < |fields[1..]|
          ensures fields[1..][j].name != fields[1..][k - 1].name
        {
          assert fields[1..][j] == fields[j + 1];
        }
      }
      LastMemberWins(next, fields[1..], validPattern, k - 1);
    }
  }

  /** The members of an object that sets all five fields once, in the
      order the parser declares them. */
  function AllFields(format: string, timeField: string, timeFormat: string, delimiter: JChar, quote: JChar): seq<ConfigField> {
    [ConfigField(FormatField, ValueString(format)),
     ConfigField(TimeFieldNameField, ValueString(timeField)),
     ConfigField(TimeFormatField, ValueString(timeFormat)),
     ConfigField(FieldDelimiterField, ValueString([delimiter])),
     ConfigField(QuoteCharacterField, ValueString([quote]))]
  }

  /** An object that sets each field once with acceptable values parses to
      exactly those values. */
  lemma {:induction false} ParseAllFields(format: string, timeField: string, timeFormat: string, delimiter: JChar, quote: JChar,
                                          validPattern: string -> bool, f: DataFormat)
    requires ForString(format) == Ok(f)
    requires AcceptedTimeFormat(timeFormat, validPattern)
    ensures Parse(AllFields(format, timeField, timeFormat, delimiter, quote), validPattern) ==
      Ok(DataDescription(f, Some(timeField), Some(timeFormat), delimiter, quote))
  {
    var fields := AllFields(format, timeField, timeFormat, delimiter, quote);
    var b1 := Defaults.(format := f);
    ApplyFormatField(Defaults, format, validPattern, f);
    ParseFromStep(Defaults, fields, validPattern, b1);
    var b2 := b1.(timeFieldName := Some(timeField));
    ApplyTimeFieldNameField(b1, timeField, validPattern);
    ParseFromStep(b1, fields[1..], validPattern, b2);
    var b3 := b2.(timeFormat := Some(timeFormat));
    ApplyTimeFormatField(b2, timeFormat, validPattern);
    ParseFromStep(b2, fields[2..], validPattern, b3);
    var b4 := b3.(fieldDelimiter := delimiter);
    ApplyCharacterFields(b3, [delimiter], validPattern, delimiter);
    ParseFromStep(b3, fields[3..], validPattern, b4);
    var b5 := b4.(quoteCharacter := quote);
    ApplyCharacterFields(b4, [quote], validPattern, quote);
    ParseFromStep(b4, fields[4..], validPattern, b5);
    assert fields[4..][1..] == [];
  }

  /** A configuration that spells the format the legacy way, with a comma
      delimiter and a single quote, parses to the expected description. */
  lemma LegacyDelimitedConfiguration(format: string, validPattern: string -> bool)
    requires format == "DELINEATED"
    ensures Parse(AllFields(format, "ts", Epoch, ',', '\''), validPattern) ==
      Ok(DataDescription(Delimited, Some("ts"), Some(Epoch), ',', '\''))
  {
    DelineatedIsDelimited(format);
    ParseAllFields(format, "ts", Epoch, ',', '\'', validPattern, Delimited);
  }
}
