/** Byte strings as they cross the C boundary: NUL-terminated C strings, the
    UTF-8 check Rust applies before a byte string may become a `str`, and the
    ASCII protocol tokens the host and plugin exchange. A Rust `String` is
    modelled by its UTF-8 bytes. */
module CStrings {
  import opened Results

  newtype byte = b: int | 0 <= b < 256

  const NUL: byte := 0

  predicate IsContinuation(b: byte) {
    0x80 <= b <= 0xBF
  }

  /** Well-formed UTF-8 as in Table 3-7 of the Unicode Standard: no overlong
      forms, no surrogates, nothing above U+10FFFF. This is the check made by
      Rust's `str::from_utf8`, `CStr::to_str` and `CString::into_string`. */
  predicate ValidUtf8(s: seq<byte>)
    decreases |s|
  {
    if |s| == 0 then true
    else if s[0] < 0x80 then ValidUtf8(s[1..])
    else if 0xC2 <= s[0] <= 0xDF then
      |s| >= 2 && IsContinuation(s[1]) && ValidUtf8(s[2..])
    else if s[0] == 0xE0 then
      |s| >= 3 && 0xA0 <= s[1] <= 0xBF && IsContinuation(s[2]) && ValidUtf8(s[3..])
    else if 0xE1 <= s[0] <= 0xEC || 0xEE <= s[0] <= 0xEF then
      |s| >= 3 && IsContinuation(s[1]) && IsContinuation(s[2]) && ValidUtf8(s[3..])
    else if s[0] == 0xED then
      |s| >= 3 && 0x80 <= s[1] <= 0x9F && IsContinuation(s[2]) && ValidUtf8(s[3..])
    else if s[0] == 0xF0 then
      |s| >= 4 && 0x90 <= s[1] <= 0xBF && IsContinuation(s[2]) && IsContinuation(s[3])
      && ValidUtf8(s[4..])
    else if 0xF1 <= s[0] <= 0xF3 then
      |s| >= 4 && IsContinuation(s[1]) && IsContinuation(s[2]) && IsContinuation(s[3])
      && ValidUtf8(s[4..])
    else if s[0] == 0xF4 then
      |s| >= 4 && 0x80 <= s[1] <= 0x8F && IsContinuation(s[2]) && IsContinuation(s[3])
      && ValidUtf8(s[4..])
    else false
  }

  /** The contents of a Rust `String` or `&str`. */
  type Utf8 = s: seq<byte> | ValidUtf8(s) witness []

  predicate NoNul(s: seq<byte>) {
    forall i | 0 <= i < |s| :: s[i] != NUL
  }

  /** `CStr::from_bytes_with_nul`: accepted exactly when the only NUL is the
      last byte; yields the bytes before it. */
  function FromBytesWithNul(s: seq<byte>): (r: Option<seq<byte>>)
    ensures r.Some? <==> |s| > 0 && s[|s| - 1] == NUL && NoNul(s[..|s| - 1])
    ensures r.Some? ==> s == r.value + [NUL] && NoNul(r.value)
  {
    if |s| > 0 && s[|s| - 1] == NUL && NoNul(s[..|s| - 1]) then Some(s[..|s| - 1]) else None
  }

  /** `CString::new`: refuses bytes holding a NUL anywhere, otherwise yields
      the buffer `into_bytes_with_nul` hands to the host. */
  function CStringNew(s: seq<byte>): (r: Option<seq<byte>>)
    ensures r.Some? <==> NoNul(s)
    ensures r.Some? ==> r.value == s + [NUL] && FromBytesWithNul(r.value) == Some(s)
  {
    if NoNul(s) then
      assert (s + [NUL])[..|s|] == s;
      Some(s + [NUL])
    else None
  }

  /** `CStr::to_str` and `CString::into_string`: the same bytes, once they are
      known to be UTF-8. */
  function ToStr(s: seq<byte>): (r: Option<Utf8>)
    ensures r.Some? <==> ValidUtf8(s)
    ensures r.Some? ==> r.value == s
  {
    if ValidUtf8(s) then Some(s) else None
  }

  /** What `CStr::from_ptr` reads from a host buffer: the bytes before the
      first NUL (all of them if there is none). */
  function CStrContents(buf: seq<byte>): (r: seq<byte>)
    ensures NoNul(r) && r <= buf
    ensures |r| < |buf| ==> buf[|r|] == NUL
  {
    if |buf| == 0 || buf[0] == NUL then []
    else [buf[0]] + CStrContents(buf[1..])
  }

  lemma {:induction false} CStrContentsOfCString(s: seq<byte>)
    requires NoNul(s)
    ensures CStrContents(s + [NUL]) == s
  {
    if |s| > 0 {
      assert (s + [NUL])[1..] == s[1..] + [NUL];
      CStrContentsOfCString(s[1..]);
    }
  }

  /** A NUL-free ASCII character, the alphabet of every protocol token. */
  type CChar = c: char | 0 < c as int < 128 witness 'A'

  /** NUL-free ASCII text. */
  type CText = seq<CChar>

  /** The bytes of a NUL-free ASCII string. */
  function Ascii(s: CText): (r: seq<byte>)
    ensures |r| == |s|
    ensures forall i | 0 <= i < |s| :: r[i] as int == s[i] as int
    ensures NoNul(r) && ValidUtf8(r)
  {
    var r := seq(|s|, i requires 0 <= i < |s| => s[i] as int as byte);
    AsciiIsUtf8(r);
    r
  }

  /** The bytes of a C string literal, terminating NUL included: the shape of
      every protocol constant the plugin is compiled against. */
  function CLiteral(s: CText): (r: seq<byte>)
    ensures r == Ascii(s) + [NUL]
    ensures FromBytesWithNul(r) == Some(Ascii(s))
  {
    assert (Ascii(s) + [NUL])[..|s|] == Ascii(s);
    Ascii(s) + [NUL]
  }

  /** Distinct ASCII strings have distinct bytes. */
  lemma AsciiInjective(a: CText, b: CText)
    ensures Ascii(a) == Ascii(b) ==> a == b
  {
    if Ascii(a) == Ascii(b) {
      forall i | 0 <= i < |a|
        ensures a[i] == b[i]
      {
        assert Ascii(a)[i] == Ascii(b)[i];
      }
    }
  }

  /** Every byte below 0x80 is a one-byte UTF-8 sequence. */
  lemma {:induction false} AsciiIsUtf8(s: seq<byte>)
    requires forall i | 0 <= i < |s| :: s[i] < 0x80
    ensures ValidUtf8(s)
  {
    if |s| > 0 {
      AsciiIsUtf8(s[1..]);
    }
  }
}
