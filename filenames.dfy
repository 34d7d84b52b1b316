/** Local file names for fetched files.

    A file reference from the request is turned into a file-system-safe
    name: the display name, or `<id>.bin` when the name is missing or empty,
    with every code unit outside `[A-Za-z0-9_.-]` replaced by `_`. The
    replacing regular expression has no `u` flag, so it looks at one UTF-16
    code unit at a time.
 */
module Filenames {
  import opened JsText

  /** One entry of the request's `files` array. */
  datatype FileRef = FileRef(id: Option<JsString>, name: Option<JsString>)

  /** Directory that receives the fetched files. */
  const UploadDir: JsString := Js("/app/uploads")

  const Underscore: CodeUnit := 0x5F

  /** The class `[\w.-]`: ASCII letters, digits, `_`, `.` and `-`. */
  predicate IsAllowed(c: CodeUnit)
    ensures IsAllowed(c) ==> c < 0x80
    ensures c == 0x2F ==> !IsAllowed(c)
  {
    || 0x41 <= c <= 0x5A  // A-Z
    || 0x61 <= c <= 0x7A  // a-z
    || 0x30 <= c <= 0x39  // 0-9
    || c == Underscore
    || c == 0x2E          // .
    || c == 0x2D          // -
  }

  predicate AllAllowed(s: JsString) {
    forall i :: 0 <= i < |s| ==> IsAllowed(s[i])
  }

  /** The global replacement of `[^\w.-]` by `_`. */
  function ReplaceDisallowed(s: JsString): (r: JsString)
    ensures |r| == |s|
    ensures AllAllowed(r)
    ensures forall i :: 0 <= i < |s| && IsAllowed(s[i]) ==> r[i] == s[i]
    ensures forall i :: 0 <= i < |s| && !IsAllowed(s[i]) ==> r[i] == Underscore
  {
    if s == [] then []
    else [if IsAllowed(s[0]) then s[0] else Underscore] + ReplaceDisallowed(s[1..])
  }

  /** `${f.id}` for an id that is a string or missing. */
  function IdText(id: Option<JsString>): JsString {
    if id.Some? then id.value else Js("undefined")
  }

  /** `f.name || \`${f.id}.bin\``: the name before sanitising. */
  function RawName(f: FileRef): (r: JsString)
    ensures r != []
    ensures Truthy(f.name) ==> r == f.name.value
    ensures !Truthy(f.name) ==> |r| >= 4 && r[..|r| - 4] == IdText(f.id) && r[|r| - 4..] == Js(".bin")
  {
    if Truthy(f.name) then f.name.value else IdText(f.id) + Js(".bin")
  }

  /** The sanitised local name of a file reference. */
  function SafeName(f: FileRef): (r: JsString)
    ensures |r| == |RawName(f)|
    ensures AllAllowed(r)
  {
    ReplaceDisallowed(RawName(f))
  }

  /** `path.join(UPLOAD_DIR, safe)`, as plain concatenation with `/`. */
  function Dest(f: FileRef): (r: JsString)
    ensures |r| == |UploadDir| + 1 + |SafeName(f)|
    ensures r[..|UploadDir|] == UploadDir && r[|UploadDir|] == 0x2F
    ensures r[|UploadDir| + 1..] == SafeName(f)
    ensures forall i :: |UploadDir| < i < |r| ==> r[i] != 0x2F
  {
    UploadDir + Js("/") + SafeName(f)
  }

  /** The destination of every file, in order. */
  function DestPaths(files: seq<FileRef>): (r: seq<JsString>)
    ensures |r| == |files|
    ensures forall i :: 0 <= i < |files| ==> r[i] == Dest(files[i])
  {
    seq(|files|, i requires 0 <= i < |files| => Dest(files[i]))
  }

  /** Replacement works code unit by code unit, so it distributes over concatenation. */
  lemma {:induction false} ReplaceConcat(a: JsString, b: JsString)
    ensures ReplaceDisallowed(a + b) == ReplaceDisallowed(a) + ReplaceDisallowed(b)
  {
    if a != [] {
      assert (a + b)[1..] == a[1..] + b;
      ReplaceConcat(a[1..], b);
    }
  }

  /** A string of allowed code units only is left as it is. */
  lemma {:induction false} ReplaceKeepsAllowed(s: JsString)
    requires AllAllowed(s)
    ensures ReplaceDisallowed(s) == s
  {
    if s != [] {
      ReplaceKeepsAllowed(s[1..]);
    }
  }

  /** On names made of allowed code units only, sanitising cannot map two
      different names to one. */
  lemma AllowedNamesDoNotCollide(a: JsString, b: JsString)
    requires AllAllowed(a) && AllAllowed(b)
    requires ReplaceDisallowed(a) == ReplaceDisallowed(b)
    ensures a == b
  {
    ReplaceKeepsAllowed(a);
    ReplaceKeepsAllowed(b);
  }

  /** Sanitising a second time changes nothing. */
  lemma SanitiseIdempotent(s: JsString)
    ensures ReplaceDisallowed(ReplaceDisallowed(s)) == ReplaceDisallowed(s)
  {
    ReplaceKeepsAllowed(ReplaceDisallowed(s));
  }

  /** A character outside the Basic Multilingual Plane is two code units,
      both surrogates, and so becomes `__`. */
  lemma AstralCharacterBecomesTwoUnderscores(c: char)
    requires 0x1_0000 <= c as int
    ensures ReplaceDisallowed(Utf16([c])) == [Underscore, Underscore]
  {
    var units := Utf16([c]);
    assert units == EncodeScalar(c) + Utf16([]);
    assert !IsAllowed(units[0]) && !IsAllowed(units[1]);
  }

  /** A missing or empty name falls back to `<id>.bin`; the `.bin` suffix
      survives sanitising unchanged. */
  lemma FallbackName(f: FileRef)
    requires !Truthy(f.name)
    ensures SafeName(f) == ReplaceDisallowed(IdText(f.id)) + Js(".bin")
  {
    ReplaceConcat(IdText(f.id), Js(".bin"));
    ReplaceKeepsAllowed(Js(".bin"));
  }

  /** The local name is never empty: a name is used only when it is
      non-empty, and the fallback always ends in `.bin`. */
  lemma SafeNameNonEmpty(f: FileRef)
    ensures |SafeName(f)| > 0
  {
    if !Truthy(f.name) {
      assert |Js(".bin")| == 4;
    }
  }
}
