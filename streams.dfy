/** The binary transport streams, abstracted to a sequence of items.  The
    byte layouts of a variable-length int and of a length-prefixed string are
    the library's concern; what matters here is which item is written or read
    in which order.  A single byte stays a byte, because that is where a
    character is truncated. */
module Streams {
  import opened Results

  type Int32 = i: int | -0x8000_0000 <= i < 0x8000_0000
  type Byte = b: int | 0 <= b < 0x100

  /** One item on the wire: `writeVInt`, `writeString` or `write(int)`. */
  datatype Token = VIntToken(i: Int32) | StringToken(s: string) | ByteToken(b: Byte)

  /** What a read yields and where the stream stands afterwards. */
  datatype Step<T> = Step(result: Result<T>, next: nat)

  /** `readVInt` at position `pos`. */
  function VIntAt(ts: seq<Token>, pos: nat): (s: Step<Int32>)
    ensures s.result.Ok? <==> pos < |ts| && ts[pos].VIntToken?
    ensures s.result.Ok? ==> ts[pos] == VIntToken(s.result.value) && s.next == pos + 1
    ensures s.result.Err? ==> s.next == pos
  {
    if pos >= |ts| then Step(Err(EndOfStream), pos)
    else if ts[pos].VIntToken? then Step(Ok(ts[pos].i), pos + 1)
    else Step(Err(UnexpectedToken), pos)
  }

  /** `readString` at position `pos`; it never yields null. */
  function StringAt(ts: seq<Token>, pos: nat): (s: Step<string>)
    ensures s.result.Ok? <==> pos < |ts| && ts[pos].StringToken?
    ensures s.result.Ok? ==> ts[pos] == StringToken(s.result.value) && s.next == pos + 1
    ensures s.result.Err? ==> s.next == pos
  {
    if pos >= |ts| then Step(Err(EndOfStream), pos)
    else if ts[pos].StringToken? then Step(Ok(ts[pos].s), pos + 1)
    else Step(Err(UnexpectedToken), pos)
  }

  /** `InputStream.read()` at position `pos`: the unsigned byte, or -1 (and
      no error) at the end of the stream. */
  function ByteAt(ts: seq<Token>, pos: nat): (s: Step<int>)
    ensures s.result.Ok? ==> -1 <= s.result.value < 0x100
    ensures s.result.Ok? && s.result.value == -1 <==> pos >= |ts|
    ensures pos < |ts| ==> (s.result.Ok? <==> ts[pos].ByteToken?)
    ensures pos < |ts| && s.result.Ok? ==> ts[pos] == ByteToken(s.result.value) && s.next == pos + 1
    ensures pos >= |ts| || s.result.Err? ==> s.next == pos
  {
    if pos >= |ts| then Step(Ok(-1), pos)
    else if ts[pos].ByteToken? then Step(Ok(ts[pos].b), pos + 1)
    else Step(Err(UnexpectedToken), pos)
  }

  /** An output stream: everything written so far, in order. */
  class StreamOutput {
    var tokens: seq<Token>

    constructor()
      ensures tokens == []
    {
      tokens := [];
    }

    method WriteVInt(i: Int32)
      modifies this
      ensures tokens == old(tokens) + [VIntToken(i)]
    {
      tokens := tokens + [VIntToken(i)];
    }

    /** `writeString` dereferences its argument: null throws before anything is written. */
    method WriteString(s: Option<string>) returns (r: Outcome)
      modifies this
      ensures r == if s.Some? then Pass else Fail(NullValue)
      ensures tokens == if s.Some? then old(tokens) + [StringToken(s.value)] else old(tokens)
    {
      if s.None? {
        return Fail(NullValue);
      }
      tokens := tokens + [StringToken(s.value)];
      r := Pass;
    }

    /** `write(int)`: only the low eight bits of the argument are written. */
    method Write(b: int)
      modifies this
      ensures tokens == old(tokens) + [ByteToken(b % 0x100)]
    {
      tokens := tokens + [ByteToken(b % 0x100)];
    }
  }

  /** An input stream over a fixed sequence of items and a read position. */
  class StreamInput {
    const tokens: seq<Token>
    var pos: nat

    ghost predicate Valid()
      reads this
    {
      pos <= |tokens|
    }

    constructor(ts: seq<Token>)
      ensures Valid() && tokens == ts && pos == 0
    {
      tokens, pos := ts, 0;
    }

    method ReadVInt() returns (r: Result<Int32>)
      requires Valid()
      modifies this
      ensures Valid()
      ensures Step(r, pos) == VIntAt(tokens, old(pos))
    {
      if pos == |tokens| {
        return Err(EndOfStream);
      }
      match tokens[pos]
      case VIntToken(i) =>
        r := Ok(i);
        pos := pos + 1;
      case _ =>
        r := Err(UnexpectedToken);
    }

    method ReadString() returns (r: Result<string>)
      requires Valid()
      modifies this
      ensures Valid()
      ensures Step(r, pos) == StringAt(tokens, old(pos))
    {
      if pos == |tokens| {
        return Err(EndOfStream);
      }
      match tokens[pos]
      case StringToken(s) =>
        r := Ok(s);
        pos := pos + 1;
      case _ =>
        r := Err(UnexpectedToken);
    }

    method Read() returns (r: Result<int>)
      requires Valid()
      modifies this
      ensures Valid()
      ensures Step(r, pos) == ByteAt(tokens, old(pos))
    {
      if pos == |tokens| {
        return Ok(-1);
      }
      match tokens[pos]
      case ByteToken(b) =>
        r := Ok(b);
        pos := pos + 1;
      case _ =>
        r := Err(UnexpectedToken);
    }
  }
}
