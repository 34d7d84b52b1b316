/** JavaScript string values as the service sees them.

    A JavaScript string is a sequence of UTF-16 code units; a character
    outside the Basic Multilingual Plane takes two of them (a surrogate
    pair). Values of the request that may be missing are `Option`s, with
    `None` standing for `undefined`.
 */
module JsText {

  datatype Option<+T> = None | Some(value: T)

  /** One UTF-16 code unit. */
  newtype CodeUnit = x: int | 0 <= x < 0x1_0000

  type JsString = seq<CodeUnit>

  /** The code units of one Unicode scalar value. */
  function EncodeScalar(c: char): (r: JsString)
    ensures c as int < 0x1_0000 ==> r == [c as int as CodeUnit]
    ensures 0x1_0000 <= c as int ==> |r| == 2 && 0xD800 <= r[0] as int < 0xDC00 && 0xDC00 <= r[1] as int < 0xE000
  {
    var n := c as int;
    if n < 0x1_0000 then [n as CodeUnit]
    else
      var m := n - 0x1_0000;
      [(0xD800 + m / 0x400) as CodeUnit, (0xDC00 + m % 0x400) as CodeUnit]
  }

  /** The UTF-16 encoding of `s`: what a JavaScript string holding the
      text `s` is made of. */
  function Utf16(s: string): (r: JsString)
    ensures |s| <= |r| <= 2 * |s|
    ensures (forall i :: 0 <= i < |s| ==> s[i] as int < 0x1_0000) ==>
              |r| == |s| && forall i :: 0 <= i < |s| ==> r[i] as int == s[i] as int
  {
    if s == [] then [] else EncodeScalar(s[0]) + Utf16(s[1..])
  }

  predicate IsAscii(s: string) {
    forall i :: 0 <= i < |s| ==> s[i] as int < 0x80
  }

  /** The string a literal of the program denotes; every literal the
      service uses is ASCII, and an ASCII text is one code unit per
      character. */
  function Js(s: string): (r: JsString)
    requires IsAscii(s)
    ensures |r| == |s| && forall i :: 0 <= i < |s| ==> r[i] as int == s[i] as int
  {
    seq(|s|, i requires 0 <= i < |s| => s[i] as int as CodeUnit)
  }

  /** JavaScript truthiness of a string that may be `undefined`: only a
      present, non-empty string is truthy. */
  predicate Truthy(s: Option<JsString>)
    ensures !Truthy(s) <==> s == None || s == Some([])
  {
    s.Some? && s.value != []
  }
}
