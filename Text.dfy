/** The string operations of Python's `str` that the application relies on:
    `upper`, `endswith`, `rstrip` with one character, and `join`.
 */
module Text {

  /** The upper-case form of one character. ASCII letters are mapped to
      capitals; so are the two non-ASCII letters whose capital is an ASCII
      letter (dotless i and long s). Every other character is unchanged. */
  function UpperChar(c: char): (u: char)
    ensures 'a' <= c <= 'z' ==> u as int == c as int - 32
    ensures !('a' <= u <= 'z')
  {
    if 'a' <= c <= 'z' then (c as int - 32) as char
    else if c == '\U{0131}' then 'I'
    else if c == '\U{017F}' then 'S'
    else c
  }

  /** `s.upper()`: character by character, same length. */
  function ToUpper(s: string): (r: string)
    ensures |r| == |s|
    ensures forall i :: 0 <= i < |s| ==> r[i] == UpperChar(s[i])
  {
    seq(|s|, i requires 0 <= i < |s| => UpperChar(s[i]))
  }

  /** Upper-casing twice is upper-casing once. */
  lemma UpperIdempotent(s: string)
    ensures ToUpper(ToUpper(s)) == ToUpper(s)
  {
    var u := ToUpper(s);
    forall i | 0 <= i < |u|
      ensures ToUpper(u)[i] == u[i]
    {
      assert !('a' <= u[i] <= 'z');
    }
  }

  /** A string made only of capitals, digits and `_` is its own upper case. */
  lemma UpperOfCapitals(s: string)
    requires forall i :: 0 <= i < |s| ==> 'A' <= s[i] <= 'Z' || '0' <= s[i] <= '9' || s[i] == '_'
    ensures ToUpper(s) == s
  {
  }

  /** `s.endswith(suffix)`. */
  predicate EndsWith(s: string, suffix: string): (b: bool)
    ensures b <==> |suffix| <= |s| && forall i :: 0 <= i < |suffix| ==> s[|s| - |suffix| + i] == suffix[i]
  {
    |suffix| <= |s| && s[|s| - |suffix|..] == suffix
  }

  lemma EndsWithAppend(s: string, suffix: string, tail: string)
    requires EndsWith(s, suffix)
    ensures EndsWith(s + tail, suffix + tail)
  {
    assert (s + tail)[|s + tail| - |suffix + tail|..] == s[|s| - |suffix|..] + tail;
  }

  /** `s.rstrip(c)` for a single character `c`: the longest prefix of `s`
      that does not end in `c` and after which only copies of `c` follow. */
  function TrimTrailing(s: string, c: char): (r: string)
    ensures |r| <= |s| && r == s[..|r|]
    ensures forall i :: |r| <= i < |s| ==> s[i] == c
    ensures r == [] || r[|r| - 1] != c
    decreases |s|
  {
    if |s| > 0 && s[|s| - 1] == c then TrimTrailing(s[..|s| - 1], c) else s
  }

  /** `sep.join(parts)`. */
  function Join(parts: seq<string>, sep: string): (r: string)
    ensures parts == [] ==> r == ""
    ensures |parts| == 1 ==> r == parts[0]
    decreases |parts|
  {
    if |parts| == 0 then ""
    else if |parts| == 1 then parts[0]
    else parts[0] + sep + Join(parts[1..], sep)
  }

  /** Appending a part to a non-empty list appends one separator and
      the part to the joined text. */
  lemma {:induction false} JoinAppend(parts: seq<string>, p: string, sep: string)
    requires parts != []
    ensures Join(parts + [p], sep) == Join(parts, sep) + sep + p
    decreases |parts|
  {
    if |parts| == 1 {
      assert parts + [p] == [parts[0], p];
      JoinTwo(parts[0], p, sep);
    } else {
      assert (parts + [p])[1..] == parts[1..] + [p];
      JoinAppend(parts[1..], p, sep);
    }
  }

  /** Joining two parts puts exactly one separator between them. */
  lemma JoinTwo(a: string, b: string, sep: string)
    ensures Join([a, b], sep) == a + sep + b
  {
    assert [a, b][1..] == [b];
  }
}
