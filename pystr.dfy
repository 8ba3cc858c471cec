/** The two pieces of Python's `str` that the streamer relies on: the whitespace
    test behind `str.isspace()` and `str.lstrip()` called without arguments. */
module PyStr {

  /** True of exactly the characters CPython's Unicode database treats as
      whitespace (the set `str.isspace()` and `str.lstrip()` use). */
  predicate IsSpace(c: char) {
    || ('\U{0009}' <= c <= '\U{000D}')   // \t \n \v \f \r
    || ('\U{001C}' <= c <= '\U{001F}')   // file, group, record and unit separators
    || c == ' '
    || c == '\U{0085}'
    || c == '\U{00A0}'
    || c == '\U{1680}'
    || ('\U{2000}' <= c <= '\U{200A}')
    || c == '\U{2028}'
    || c == '\U{2029}'
    || c == '\U{202F}'
    || c == '\U{205F}'
    || c == '\U{3000}'
  }

  /** `s.lstrip()`: `s` without its leading whitespace. The result is a suffix
      of `s`, everything cut off is whitespace, and what is left does not start
      with whitespace. */
  function LStrip(s: string): (r: string)
    ensures |r| <= |s| && r == s[|s| - |r|..]
    ensures forall i :: 0 <= i < |s| - |r| ==> IsSpace(s[i])
    ensures r == [] || !IsSpace(r[0])
  {
    if s != [] && IsSpace(s[0]) then LStrip(s[1..]) else s
  }

  /** The three facts of LStrip's contract determine its result: splitting `s`
      into a whitespace run followed by a part that does not start with
      whitespace always yields that part. */
  lemma {:induction false} LStripUnique(w: string, rest: string)
    requires forall i :: 0 <= i < |w| ==> IsSpace(w[i])
    requires rest == [] || !IsSpace(rest[0])
    ensures LStrip(w + rest) == rest
  {
    if w != [] {
      assert (w + rest)[1..] == w[1..] + rest;
      LStripUnique(w[1..], rest);
    } else {
      assert w + rest == rest;
    }
  }

  /** A general property of `lstrip()`, not one the streamer relies on:
      stripping twice strips nothing more. */
  lemma LStripIdempotent(s: string)
    ensures LStrip(LStrip(s)) == LStrip(s)
  {
    var r := LStrip(s);
    LStripUnique([], r);
  }
}
