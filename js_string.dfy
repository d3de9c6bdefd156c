/**
 * The few JavaScript string operations the page script relies on, with the
 * exact clamping and whitespace rules of the language: `s.substring(0, end)`,
 * `s.substring(1)` and `s.trim()`.
 */
module JsString {

  /** `s.substring(0, end)`: the end index is clamped into `[0, |s|]`. */
  function Prefix(s: string, end: int): (r: string)
    ensures 0 <= end <= |s| ==> r == s[..end]
    ensures end < 0 ==> r == ""
    ensures end > |s| ==> r == s
  {
    if end <= 0 then "" else if end >= |s| then s else s[..end]
  }

  /** `s.substring(1)`: everything after the first character, or "" for "". */
  function DropFirst(s: string): (r: string)
    ensures |s| > 0 ==> [s[0]] + r == s
    ensures |s| == 0 ==> r == ""
  {
    if |s| == 0 then "" else s[1..]
  }

  lemma DropFirstOfHash(id: string)
    ensures DropFirst("#" + id) == id
  {
    assert ("#" + id)[1..] == id;
  }

  /**
   * The characters `String.prototype.trim` removes: the WhiteSpace and
   * LineTerminator productions of ECMAScript (tab, vertical tab, form feed,
   * the byte order mark, every space separator of category Zs, line feed,
   * carriage return, line and paragraph separators).
   */
  predicate IsWhiteSpace(c: char) {
    c == '\t' || c == '\n' || c == '\U{000B}' || c == '\U{000C}' || c == '\r' ||
    c == ' ' || c == '\U{00A0}' || c == '\U{1680}' ||
    ('\U{2000}' <= c <= '\U{200A}') ||
    c == '\U{2028}' || c == '\U{2029}' || c == '\U{202F}' || c == '\U{205F}' ||
    c == '\U{3000}' || c == '\U{FEFF}'
  }

  predicate AllWhiteSpace(s: string) {
    forall i :: 0 <= i < |s| ==> IsWhiteSpace(s[i])
  }

  /** Length of the longest all-whitespace prefix. */
  function LeadingSpace(s: string): (n: nat)
    ensures n <= |s|
    ensures AllWhiteSpace(s[..n])
    ensures n < |s| ==> !IsWhiteSpace(s[n])
  {
    if s == [] || !IsWhiteSpace(s[0]) then 0 else 1 + LeadingSpace(s[1..])
  }

  /** Length of the longest all-whitespace suffix. */
  function TrailingSpace(s: string): (n: nat)
    ensures n <= |s|
    ensures AllWhiteSpace(s[|s| - n..])
    ensures n < |s| ==> !IsWhiteSpace(s[|s| - n - 1])
  {
    if s == [] || !IsWhiteSpace(s[|s| - 1]) then 0 else 1 + TrailingSpace(s[..|s| - 1])
  }

  /** `s.trim()`: drops the leading and the trailing whitespace. */
  function Trim(s: string): (r: string)
    ensures LeadingSpace(s) + |r| <= |s|
    ensures r == s[LeadingSpace(s)..LeadingSpace(s) + |r|]
  {
    var rest := s[LeadingSpace(s)..];
    rest[..|rest| - TrailingSpace(rest)]
  }

  /** What `trim` drops is whitespace, at both ends. */
  lemma TrimDropsOnlyWhiteSpace(s: string)
    ensures AllWhiteSpace(s[..LeadingSpace(s)])
    ensures AllWhiteSpace(s[LeadingSpace(s) + |Trim(s)|..])
  {
    var a := LeadingSpace(s);
    var rest := s[a..];
    var b := TrailingSpace(rest);
    assert s[a + |Trim(s)|..] == rest[|rest| - b..];
  }

  /** What `trim` keeps neither starts nor ends with whitespace, and it is
      empty exactly when the whole string is whitespace. */
  lemma TrimEdges(s: string)
    ensures Trim(s) != [] ==> !IsWhiteSpace(Trim(s)[0]) && !IsWhiteSpace(Trim(s)[|Trim(s)| - 1])
    ensures Trim(s) == [] <==> AllWhiteSpace(s)
  {
    var a := LeadingSpace(s);
    var rest := s[a..];
    var b := TrailingSpace(rest);
    var r := Trim(s);
    if r != [] {
      assert r[0] == s[a];
      assert r[|r| - 1] == rest[|rest| - b - 1];
      assert !AllWhiteSpace(s) by { assert !IsWhiteSpace(s[a]); }
    } else {
      assert a == |s|;
      assert s[..a] == s;
    }
  }

  lemma {:induction false} TrimIdempotent(s: string)
    ensures Trim(Trim(s)) == Trim(s)
  {
    var t := Trim(s);
    if t != [] {
      assert LeadingSpace(t) == 0;
      assert TrailingSpace(t[0..]) == 0 by { assert t[0..] == t; }
      assert t[0..][..|t|] == t;
    }
  }

  lemma {:induction false} LeadingSpaceOfPadded(pad: string, t: string)
    requires AllWhiteSpace(pad) && (t == [] || !IsWhiteSpace(t[0]))
    ensures LeadingSpace(pad + t) == |pad|
    decreases |pad|
  {
    if pad != [] {
      assert (pad + t)[0] == pad[0];
      assert (pad + t)[1..] == pad[1..] + t;
      LeadingSpaceOfPadded(pad[1..], t);
    } else {
      assert pad + t == t;
    }
  }

  lemma {:induction false} TrailingSpaceOfPadded(t: string, pad: string)
    requires AllWhiteSpace(pad) && (t == [] || !IsWhiteSpace(t[|t| - 1]))
    ensures TrailingSpace(t + pad) == |pad|
    decreases |pad|
  {
    if pad != [] {
      assert (t + pad)[|t + pad| - 1] == pad[|pad| - 1];
      assert (t + pad)[..|t + pad| - 1] == t + pad[..|pad| - 1];
      TrailingSpaceOfPadded(t, pad[..|pad| - 1]);
    } else {
      assert t + pad == t;
    }
  }

  /** Trimming a string that neither starts nor ends with whitespace, padded with whitespace, gives it back. */
  lemma TrimOfPadded(front: string, s: string, back: string)
    requires AllWhiteSpace(front) && AllWhiteSpace(back)
    requires s != [] && !IsWhiteSpace(s[0]) && !IsWhiteSpace(s[|s| - 1])
    ensures Trim(front + s + back) == s
  {
    var whole := front + s + back;
    assert whole == front + (s + back);
    LeadingSpaceOfPadded(front, s + back);
    assert whole[|front|..] == s + back;
    TrailingSpaceOfPadded(s, back);
    assert (s + back)[..|s|] == s;
  }
}
