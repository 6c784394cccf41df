/** Promo-code matching: the input is trimmed, upper-cased and compared with
    the single accepted code. Whitespace and case mapping are modelled for the
    ASCII range (plus no-break space and the byte-order mark as whitespace). */
module PromoCode {

  const AcceptedCode: string := "HOMIES"

  predicate IsWhitespace(c: char) {
    c == ' ' || c == '\t' || c == '\n' || c == '\r' || c == '\U{0B}' || c == '\U{0C}' ||
    c == '\U{A0}' || c == '\U{FEFF}'
  }

  predicate AllWhitespace(s: string) {
    forall i :: 0 <= i < |s| ==> IsWhitespace(s[i])
  }

  /** The index of the first non-whitespace character at or after `i`. */
  function SkipForward(s: string, i: nat): (k: nat)
    requires i <= |s|
    ensures i <= k <= |s|
    ensures forall j :: i <= j < k ==> IsWhitespace(s[j])
    ensures k == |s| || !IsWhitespace(s[k])
    decreases |s| - i
  {
    if i < |s| && IsWhitespace(s[i]) then SkipForward(s, i + 1) else i
  }

  /** The index just past the last non-whitespace character before `j`. */
  function SkipBackward(s: string, j: nat): (k: nat)
    requires j <= |s|
    ensures k <= j
    ensures forall m :: k <= m < j ==> IsWhitespace(s[m])
    ensures k == 0 || !IsWhitespace(s[k - 1])
  {
    if j > 0 && IsWhitespace(s[j - 1]) then SkipBackward(s, j - 1) else j
  }

  /** The input without its leading whitespace. */
  function TrimStart(s: string): (r: string)
    ensures |r| <= |s| && r == s[|s| - |r|..]
    ensures AllWhitespace(s[..|s| - |r|])
    ensures r == [] || !IsWhitespace(r[0])
  {
    s[SkipForward(s, 0)..]
  }

  /** The input without its trailing whitespace. */
  function TrimEnd(s: string): (r: string)
    ensures |r| <= |s| && r == s[..|r|]
    ensures AllWhitespace(s[|r|..])
    ensures r == [] || !IsWhitespace(r[|r| - 1])
  {
    s[..SkipBackward(s, |s|)]
  }

  /** `String.prototype.trim`: both ends stripped of whitespace. */
  function Trim(s: string): (r: string)
    ensures r == [] || (!IsWhitespace(r[0]) && !IsWhitespace(r[|r| - 1]))
    ensures var i := |s| - |TrimStart(s)|;
      i + |r| <= |s| && r == s[i..i + |r|] && AllWhitespace(s[..i]) && AllWhitespace(s[i + |r|..])
  {
    var t := TrimStart(s);
    var r := TrimEnd(t);
    var i := |s| - |t|;
    assert s[i..i + |r|] == t[..|r|];
    assert s[i + |r|..] == t[|r|..];
    r
  }

  /** Upper case of one character: ASCII a-z map to A-Z, all else is kept. */
  function UpperChar(c: char): (u: char)
    ensures 'a' <= c <= 'z' ==> u as int == c as int - 32
    ensures !('a' <= c <= 'z') ==> u == c
  {
    if 'a' <= c <= 'z' then (c as int - 32) as char else c
  }

  /** `String.prototype.toUpperCase`, character by character. */
  function Upper(s: string): (r: string)
    ensures |r| == |s|
    ensures forall i :: 0 <= i < |s| ==> r[i] == UpperChar(s[i])
  {
    seq(|s|, i requires 0 <= i < |s| => UpperChar(s[i]))
  }

  /** The code as compared: `input.value.trim().toUpperCase()`. */
  function Normalize(s: string): (r: string)
    ensures |r| <= |s|
    ensures forall i :: 0 <= i < |r| ==> !('a' <= r[i] <= 'z')
    ensures r == [] || (!IsWhitespace(r[0]) && !IsWhitespace(r[|r| - 1]))
    ensures var i := |s| - |TrimStart(s)|;
      i + |r| <= |s| && AllWhitespace(s[..i]) && AllWhitespace(s[i + |r|..]) && r == Upper(s[i..i + |r|])
  {
    Upper(Trim(s))
  }

  /** Whether submitting `s` activates the discount. */
  predicate IsAccepted(s: string): (b: bool)
    ensures b ==> |Trim(s)| == |AcceptedCode| && |AcceptedCode| <= |s|
  {
    Normalize(s) == AcceptedCode
  }

  // ---------- Properties ----------

  lemma UpperCharIdempotent(c: char)
    ensures UpperChar(UpperChar(c)) == UpperChar(c)
    ensures IsWhitespace(UpperChar(c)) <==> IsWhitespace(c)
  {
  }

  lemma {:induction false} TrimStartOfTrimmed(s: string)
    requires s == [] || !IsWhitespace(s[0])
    ensures TrimStart(s) == s
  {
  }

  lemma {:induction false} TrimEndOfTrimmed(s: string)
    requires s == [] || !IsWhitespace(s[|s| - 1])
    ensures TrimEnd(s) == s
  {
  }

  lemma UpperIdempotent(t: string)
    ensures Upper(Upper(t)) == Upper(t)
  {
    var u := Upper(t);
    forall i | 0 <= i < |u| ensures Upper(u)[i] == u[i] {
      UpperCharIdempotent(t[i]);
    }
  }

  /** Upper-casing a trimmed string leaves it trimmed. */
  lemma UpperOfTrimmedIsTrimmed(t: string)
    requires t == [] || (!IsWhitespace(t[0]) && !IsWhitespace(t[|t| - 1]))
    ensures Trim(Upper(t)) == Upper(t)
  {
    var u := Upper(t);
    if u != [] {
      UpperCharIdempotent(t[0]);
      UpperCharIdempotent(t[|t| - 1]);
    }
    TrimStartOfTrimmed(u);
    TrimEndOfTrimmed(u);
  }

  /** Normalizing a normalized code changes nothing. */
  lemma NormalizeIdempotent(s: string)
    ensures Normalize(Normalize(s)) == Normalize(s)
  {
    var t := Trim(s);
    UpperOfTrimmedIsTrimmed(t);
    UpperIdempotent(t);
  }

  /** Leading whitespace is dropped in front of a word that starts with a
      non-whitespace character. */
  lemma {:induction false} TrimStartDropsPadding(pre: string, w: string)
    requires AllWhitespace(pre) && w != [] && !IsWhitespace(w[0])
    ensures TrimStart(pre + w) == w
  {
    if pre == [] {
      assert pre + w == w;
    } else {
      assert (pre + w)[1..] == pre[1..] + w;
      TrimStartDropsPadding(pre[1..], w);
    }
  }

  /** Trailing whitespace is dropped after a word that ends with a
      non-whitespace character. */
  lemma {:induction false} TrimEndDropsPadding(w: string, post: string)
    requires AllWhitespace(post) && w != [] && !IsWhitespace(w[|w| - 1])
    ensures TrimEnd(w + post) == w
  {
    if post == [] {
      assert w + post == w;
    } else {
      var q := post[..|post| - 1];
      assert (w + post)[..|w + post| - 1] == w + q;
      TrimEndDropsPadding(w, q);
    }
  }

  /** Any letter case of the code, padded with whitespace, is accepted. */
  lemma PaddedCodeAccepted(pre: string, w: string, post: string)
    requires AllWhitespace(pre) && AllWhitespace(post) && Upper(w) == AcceptedCode
    ensures IsAccepted(pre + w + post)
  {
    assert UpperChar(w[0]) == 'H' && UpperChar(w[|w| - 1]) == 'S';
    assert pre + w + post == pre + (w + post);
    TrimStartDropsPadding(pre, w + post);
    TrimEndDropsPadding(w, post);
  }

  /** Conversely, an accepted input is such a padded code: it splits into
      whitespace, a word that upper-cases to the code, and whitespace. */
  lemma AcceptedIsPaddedCode(s: string) returns (i: nat, j: nat)
    requires IsAccepted(s)
    ensures i <= j <= |s| && AllWhitespace(s[..i]) && AllWhitespace(s[j..])
    ensures Upper(s[i..j]) == AcceptedCode
  {
    var ts := TrimStart(s);
    i := |s| - |ts|;
    var t := TrimEnd(ts);
    j := i + |t|;
    assert ts == s[i..] && t == ts[..|t|];
    assert s[i..j] == t;
    assert s[j..] == ts[|t|..];
  }

  /** A six-letter word whose letters upper-case to H, O, M, I, E, S. */
  lemma UpperToCode(w: string)
    requires |w| == 6
    requires UpperChar(w[0]) == 'H' && UpperChar(w[1]) == 'O' && UpperChar(w[2]) == 'M'
    requires UpperChar(w[3]) == 'I' && UpperChar(w[4]) == 'E' && UpperChar(w[5]) == 'S'
    ensures Upper(w) == AcceptedCode
  {
  }

  /** Lower case is accepted. */
  lemma LowerCaseAccepted()
    ensures IsAccepted("homies")
  {
    var w := "homies";
    TrimStartOfTrimmed(w);
    TrimEndOfTrimmed(w);
    assert Trim(w) == w;
    UpperToCode(w);
  }

  /** Anything else, the empty input included, is rejected. */
  lemma RejectedExamples()
    ensures !IsAccepted("")
    ensures !IsAccepted("WRONG")
    ensures !IsAccepted("HOMIE")
  {
    TrimStartOfTrimmed("WRONG");
    TrimEndOfTrimmed("WRONG");
    assert Normalize("WRONG")[0] == 'W';
    TrimStartOfTrimmed("HOMIE");
    TrimEndOfTrimmed("HOMIE");
  }
}
