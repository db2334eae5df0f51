/** `DataDescription.DataFormat`: the wire format of a job's input records,
    its case-insensitive lookup by name and its ordinal encoding. */
module DataFormats {
  import opened Results
  import opened JavaText
  import opened Streams

  /** Declaration order fixes the ordinals; `Elasticsearch` is deprecated but
      still accepted. */
  datatype DataFormat = Json | Delimited | SingleLine | Elasticsearch

  /** `values()`, in declaration order. */
  const Values: seq<DataFormat> := [Json, Delimited, SingleLine, Elasticsearch]

  /** The legacy spelling that still resolves to `Delimited`. */
  const DeprecatedDelineated := "DELINEATED"

  /** `getName()`: the lower-case name given to each constant. */
  function Name(f: DataFormat): string {
    match f
    case Json => "json"
    case Delimited => "delimited"
    case SingleLine => "single_line"
    case Elasticsearch => "elasticsearch"
  }

  /** `name()`: the identifier of the enum constant, which `valueOf` matches. */
  function ConstantName(f: DataFormat): string {
    match f
    case Json => "JSON"
    case Delimited => "DELIMITED"
    case SingleLine => "SINGLE_LINE"
    case Elasticsearch => "ELASTICSEARCH"
  }

  /** `ordinal()`: the position of `f` in `values()`. */
  function Ordinal(f: DataFormat): (k: nat)
    ensures k < |Values| && Values[k] == f
  {
    match f
    case Json => 0
    case Delimited => 1
    case SingleLine => 2
    case Elasticsearch => 3
  }

  /** `Enum.valueOf`: the constant whose identifier is exactly `name`. */
  function ValueOf(name: string): (r: Result<DataFormat>)
    ensures forall f :: r == Ok(f) <==> ConstantName(f) == name
    ensures r.Err? ==> r.error == UnknownFormat
  {
    if name == "JSON" then Ok(Json)
    else if name == "DELIMITED" then Ok(Delimited)
    else if name == "SINGLE_LINE" then Ok(SingleLine)
    else if name == "ELASTICSEARCH" then Ok(Elasticsearch)
    else Err(UnknownFormat)
  }

  /** `forString`: upper-case the value, map the legacy spelling to
      `Delimited`, otherwise look the constant up by identifier. */
  function ForString(value: string): (r: Result<DataFormat>)
    ensures forall f :: r == Ok(f) <==>
      (ConstantName(f) == ToUpper(value) || (f == Delimited && ToUpper(value) == DeprecatedDelineated))
    ensures r.Err? <==>
      ToUpper(value) != DeprecatedDelineated && forall f :: ConstantName(f) != ToUpper(value)
    ensures r.Err? ==> r.error == UnknownFormat
  {
    var upper := ToUpper(value);
    if DeprecatedDelineated == upper then Ok(Delimited) else ValueOf(upper)
  }

  /** The range check of `readFromStream` on a decoded ordinal. */
  function FromOrdinal(ordinal: int): (r: Result<DataFormat>)
    ensures r.Ok? <==> 0 <= ordinal < |Values|
    ensures r.Ok? ==> Ordinal(r.value) == ordinal && r.value == Values[ordinal]
    ensures r.Err? ==> r.error == UnknownOrdinal(ordinal)
  {
    if ordinal < 0 || ordinal >= |Values| then Err(UnknownOrdinal(ordinal))
    else Ok(Values[ordinal])
  }

  /** `readFromStream` as a function of the stream's items: the ordinal is
      consumed even when it is rejected. */
  function FormatAt(ts: seq<Token>, pos: nat): (s: Step<DataFormat>)
    ensures s.result.Ok? <==> pos < |ts| && ts[pos].VIntToken? && 0 <= ts[pos].i < |Values|
    ensures s.result.Ok? ==> ts[pos] == VIntToken(Ordinal(s.result.value)) && s.next == pos + 1
  {
    var v := VIntAt(ts, pos);
    match v.result
    case Err(e) => Step(Err(e), v.next)
    case Ok(ordinal) => Step(FromOrdinal(ordinal), v.next)
  }

  /** `DataFormat.readFromStream`. */
  method ReadFrom(input: StreamInput) returns (r: Result<DataFormat>)
    requires input.Valid()
    modifies input
    ensures input.Valid()
    ensures Step(r, input.pos) == FormatAt(input.tokens, old(input.pos))
  {
    var ordinal := input.ReadVInt();
    if ordinal.Err? {
      return Err(ordinal.error);
    }
    var k := ordinal.value;
    if k < 0 || k >= |Values| {
      return Err(UnknownOrdinal(k));
    }
    r := Ok(Values[k]);
  }

  /** `DataFormat.writeTo`. */
  method WriteTo(f: DataFormat, output: StreamOutput)
    modifies output
    ensures output.tokens == old(output.tokens) + [VIntToken(Ordinal(f))]
  {
    output.WriteVInt(Ordinal(f));
  }

  /** Reading back what `writeTo` wrote yields the same constant, wherever it
      sits in the stream. */
  lemma FormatRoundTrip(f: DataFormat, prefix: seq<Token>, suffix: seq<Token>)
    ensures FormatAt(prefix + [VIntToken(Ordinal(f))] + suffix, |prefix|) == Step(Ok(f), |prefix| + 1)
  {
  }

  /** An ordinal outside `values()` is rejected, consumed, and yields no value. */
  lemma UnknownOrdinalRejected(ordinal: Int32, prefix: seq<Token>, suffix: seq<Token>)
    requires ordinal < 0 || ordinal >= |Values|
    ensures FormatAt(prefix + [VIntToken(ordinal)] + suffix, |prefix|) == Step(Err(UnknownOrdinal(ordinal)), |prefix| + 1)
  {
  }

  /** A value whose upper case is a constant's identifier selects that constant. */
  lemma ForStringByUpperCase(value: string, f: DataFormat)
    requires ToUpper(value) == ConstantName(f)
    ensures ForString(value) == Ok(f)
  {
  }

  /** Upper-casing a constant's lower-case name or its identifier gives the
      identifier (`name` stands for either, so that no literal is evaluated). */
  lemma UpperCaseOfName(f: DataFormat, name: string)
    requires name == Name(f) || name == ConstantName(f)
    ensures ToUpper(name) == ConstantName(f)
  {
    ToUpperAscii(name, ConstantName(f));
  }

  /** Every constant is found both by its lower-case name and by its identifier. */
  lemma ForStringFindsEveryName(f: DataFormat)
    ensures ForString(Name(f)) == Ok(f)
    ensures ForString(ConstantName(f)) == Ok(f)
  {
    UpperCaseOfName(f, Name(f));
    UpperCaseOfName(f, ConstantName(f));
    ForStringByUpperCase(Name(f), f);
    ForStringByUpperCase(ConstantName(f), f);
  }

  /** The legacy spelling, in upper or lower case, resolves to `Delimited`. */
  lemma DelineatedIsDelimited(value: string)
    requires value == "DELINEATED" || value == "delineated"
    ensures ForString(value) == Ok(Delimited)
  {
    if value == "delineated" {
      ToUpperAscii("delineated", DeprecatedDelineated);
    } else {
      ToUpperAscii("DELINEATED", DeprecatedDelineated);
    }
  }
}
