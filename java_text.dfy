/** Java's text primitives as the model needs them.  A Java `String` is
    modelled by the Unicode scalar values it spells (`string`); a Java `char`
    is one UTF-16 code unit, here a character of the Basic Multilingual Plane. */
module JavaText {

  /** True when `c` fits in one UTF-16 code unit. */
  predicate IsBmp(c: char) {
    c as int < 0x1_0000
  }

  /** A Java `char` (lone surrogate code units are not representable). */
  type JChar = c: char | IsBmp(c) witness 'a'

  /** `String.length()`: the number of UTF-16 code units, two for a
      character outside the Basic Multilingual Plane. */
  function Utf16Length(s: string): nat {
    if s == [] then 0 else (if IsBmp(s[0]) then 1 else 2) + Utf16Length(s[1..])
  }

  /** A Java string has length 1 exactly when it is one BMP character. */
  lemma Utf16LengthIsOne(s: string)
    ensures Utf16Length(s) == 1 <==> |s| == 1 && IsBmp(s[0])
  {
  }

  /** Upper case of one character under `Locale.ROOT`.  The ASCII letters and
      the non-ASCII characters whose upper case is made only of ASCII letters
      are mapped; every other character is kept, which can only differ from
      Java on characters whose upper case is again non-ASCII. */
  function UpperOf(c: char): string {
    if IsAscii(c) then [AsciiUpper(c)]
    else if c == '\U{0131}' then "I"     // dotless i
    else if c == '\U{017F}' then "S"     // long s
    else if c == '\U{00DF}' then "SS"    // sharp s
    else if c == '\U{FB00}' then "FF"
    else if c == '\U{FB01}' then "FI"
    else if c == '\U{FB02}' then "FL"
    else if c == '\U{FB03}' then "FFI"
    else if c == '\U{FB04}' then "FFL"
    else if c == '\U{FB05}' || c == '\U{FB06}' then "ST"
    else [c]
  }

  /** `String.toUpperCase(Locale.ROOT)`, character by character. */
  function ToUpper(s: string): string {
    if s == [] then [] else UpperOf(s[0]) + ToUpper(s[1..])
  }

  /** True for the ASCII range, where upper-casing maps one character to one. */
  predicate IsAscii(c: char) {
    c as int < 0x80
  }

  /** Upper case of an ASCII character: only 'a' to 'z' change. */
  function AsciiUpper(c: char): char {
    if 'a' <= c <= 'z' then (c as int - 32) as char else c
  }

  /** On ASCII text upper-casing works character by character: `t` is the
      upper case of `s` when each of its characters is. */
  lemma {:induction false} ToUpperAscii(s: string, t: string)
    requires |s| == |t|
    requires forall i :: 0 <= i < |s| ==> IsAscii(s[i]) && t[i] == AsciiUpper(s[i])
    ensures ToUpper(s) == t
  {
    if s != [] {
      ToUpperAscii(s[1..], t[1..]);
    }
  }
}
