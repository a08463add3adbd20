/** `String.prototype.trim` (section 22.1.3.32 of ECMA-262), which the
    timeline panel applies to a typed name. JavaScript strings are sequences of UTF-16 code units; here
    they are sequences of `char`, which are Unicode scalar values, so lone
    surrogates are not modelled. */
module JsText {
  import opened Wrappers

  /** WhiteSpace and LineTerminator code points: the characters `trim`
      strips and `parseInt` skips before the number. */
  predicate IsWhitespace(c: char) {
    || c == '\t' || c == '\n' || c == '\U{000B}' || c == '\U{000C}' || c == '\r'
    || c == ' ' || c == '\U{00A0}' || c == '\U{1680}'
    || ('\U{2000}' <= c <= '\U{200A}')
    || c == '\U{2028}' || c == '\U{2029}' || c == '\U{202F}' || c == '\U{205F}'
    || c == '\U{3000}' || c == '\U{FEFF}'
  }

  /** The number of whitespace characters `s` starts with. */
  function LeadingSpace(s: string): (n: nat)
    ensures n <= |s|
    ensures forall i :: 0 <= i < n ==> IsWhitespace(s[i])
    ensures n == |s| || !IsWhitespace(s[n])
  {
    if |s| > 0 && IsWhitespace(s[0]) then 1 + LeadingSpace(s[1..]) else 0
  }

  /** The number of whitespace characters `s` ends with. */
  function TrailingSpace(s: string): (n: nat)
    ensures n <= |s|
    ensures forall i :: |s| - n <= i < |s| ==> IsWhitespace(s[i])
    ensures n == |s| || !IsWhitespace(s[|s| - n - 1])
  {
    if |s| > 0 && IsWhitespace(s[|s| - 1]) then 1 + TrailingSpace(s[..|s| - 1]) else 0
  }

  /** `s` without its leading whitespace. */
  function TrimStart(s: string): string {
    s[LeadingSpace(s)..]
  }

  /** `s` without its trailing whitespace. */
  function TrimEnd(s: string): string {
    s[..|s| - TrailingSpace(s)]
  }

  /** `s.trim()`. */
  function Trim(s: string): (r: string)
    ensures |r| <= |s|
    ensures r == [] || (!IsWhitespace(r[0]) && !IsWhitespace(r[|r| - 1]))
  {
    TrimEnd(TrimStart(s))
  }

  /** Trim keeps one contiguous piece of `s`, from the first character
      that is not whitespace on, and everything it drops is whitespace. */
  lemma TrimSlice(s: string)
    ensures var i := LeadingSpace(s);
            var j := i + |Trim(s)|;
            && j <= |s| && Trim(s) == s[i..j]
            && forall k :: 0 <= k < |s| && !(i <= k < j) ==> IsWhitespace(s[k])
  {
    var i := LeadingSpace(s);
    var t := s[i..];
    var m := TrailingSpace(t);
    var j := |s| - m;
    assert Trim(s) == t[..|t| - m];
    assert t[..|t| - m] == s[i..j];
    forall k | 0 <= k < |s| && !(i <= k < j)
      ensures IsWhitespace(s[k])
    {
      if k >= j {
        assert s[k] == t[k - i];
      }
    }
  }

  /** Trim leaves nothing exactly when every character is whitespace. */
  lemma TrimEmptyIff(s: string)
    ensures Trim(s) == [] <==> forall i :: 0 <= i < |s| ==> IsWhitespace(s[i])
  {
    TrimSlice(s);
  }

  /** Trimming twice is trimming once. */
  lemma TrimIdempotent(s: string)
    ensures Trim(Trim(s)) == Trim(s)
  {
    var r := Trim(s);
    assert LeadingSpace(r) == 0;
    assert r[0..] == r;
    assert TrailingSpace(r) == 0;
    assert r[..|r|] == r;
  }
}
