/** The string operations the annotations are read with. */
module Text {

  import opened Wrappers

  /******* Splitting *******/

  /** The pieces between separators; there is always at least one piece. */
  function SplitOn(s: string, sep: char): (pieces: seq<string>)
    ensures pieces != []
  {
    if s == "" then [""]
    else
      var rest := SplitOn(s[1..], sep);
      if s[0] == sep then [""] + rest else [[s[0]] + rest[0]] + rest[1..]
  }

  function Join(pieces: seq<string>, sep: char): string
    requires pieces != []
  {
    if |pieces| == 1 then pieces[0] else pieces[0] + [sep] + Join(pieces[1..], sep)
  }

  /** No piece contains the separator, and the pieces joined again give the string. */
  lemma {:induction false} SplitOnJoins(s: string, sep: char)
    ensures forall i | 0 <= i < |SplitOn(s, sep)| :: sep !in SplitOn(s, sep)[i]
    ensures Join(SplitOn(s, sep), sep) == s
  {
    if s != "" {
      var rest := SplitOn(s[1..], sep);
      SplitOnJoins(s[1..], sep);
      if s[0] == sep {
        assert ([""] + rest)[1..] == rest;
      } else {
        var pieces := [[s[0]] + rest[0]] + rest[1..];
        assert pieces[1..] == rest[1..];
        assert Join(pieces, sep) == [s[0]] + Join(rest, sep);
      }
    }
  }

  /******* Trimming and case *******/

  predicate IsWhitespace(c: char) {
    || '\U{9}' <= c <= '\U{d}'
    || c in {' ', '\U{85}', '\U{a0}', '\U{1680}', '\U{2028}', '\U{2029}', '\U{202f}', '\U{205f}', '\U{3000}'}
    || '\U{2000}' <= c <= '\U{200a}'
  }

  /** The code points with the Unicode property White_Space. */
  lemma WhitespaceIff(c: char)
    ensures IsWhitespace(c) <==>
            (c as int) in {9, 10, 11, 12, 13, 32, 133, 160, 5760, 8192, 8193, 8194, 8195, 8196, 8197, 8198, 8199, 8200,
                           8201, 8202, 8232, 8233, 8239, 8287, 12288}
  {
  }

  function TrimStart(s: string): string {
    if s != "" && IsWhitespace(s[0]) then TrimStart(s[1..]) else s
  }

  function TrimEnd(s: string): string {
    if s != "" && IsWhitespace(s[|s| - 1]) then TrimEnd(s[..|s| - 1]) else s
  }

  function Trim(s: string): string {
    TrimEnd(TrimStart(s))
  }

  predicate Blank(s: string) {
    forall i | 0 <= i < |s| :: IsWhitespace(s[i])
  }

  /** `t` is `s` without the blanks around it. */
  predicate TrimsBy(s: string, t: string, pre: string, post: string) {
    && s == pre + t + post && Blank(pre) && Blank(post)
    && (t != "" ==> !IsWhitespace(t[0]) && !IsWhitespace(t[|t| - 1]))
  }

  ghost predicate TrimsTo(s: string, t: string) {
    exists pre, post :: TrimsBy(s, t, pre, post)
  }

  lemma {:induction false} TrimStartShape(s: string) returns (pre: string)
    ensures s == pre + TrimStart(s) && Blank(pre)
    ensures TrimStart(s) != "" ==> !IsWhitespace(TrimStart(s)[0])
  {
    pre := "";
    if s != "" && IsWhitespace(s[0]) {
      pre := TrimStartShape(s[1..]);
      pre := [s[0]] + pre;
    }
  }

  lemma {:induction false} TrimEndShape(s: string) returns (post: string)
    ensures s == TrimEnd(s) + post && Blank(post)
    ensures TrimEnd(s) != "" ==> !IsWhitespace(TrimEnd(s)[|TrimEnd(s)| - 1]) && TrimEnd(s)[0] == s[0]
  {
    post := "";
    if s != "" && IsWhitespace(s[|s| - 1]) {
      post := TrimEndShape(s[..|s| - 1]);
      post := post + [s[|s| - 1]];
    }
  }

  lemma {:induction false} TrimStartSkips(pre: string, rest: string)
    requires Blank(pre) && (rest != "" ==> !IsWhitespace(rest[0]))
    ensures TrimStart(pre + rest) == rest
    decreases |pre|
  {
    if pre == "" {
      assert pre + rest == rest;
    } else {
      assert (pre + rest)[1..] == pre[1..] + rest;
      TrimStartSkips(pre[1..], rest);
    }
  }

  lemma {:induction false} TrimEndSkips(rest: string, post: string)
    requires Blank(post) && (rest != "" ==> !IsWhitespace(rest[|rest| - 1]))
    ensures TrimEnd(rest + post) == rest
    decreases |post|
  {
    if post == "" {
      assert rest + post == rest;
    } else {
      assert (rest + post)[..|rest + post| - 1] == rest + post[..|post| - 1];
      TrimEndSkips(rest, post[..|post| - 1]);
    }
  }

  /** Trimming takes off all blanks at both ends, and nothing else. */
  lemma TrimIff(s: string, t: string)
    ensures Trim(s) == t <==> TrimsTo(s, t)
  {
    if Trim(s) == t {
      var pre := TrimStartShape(s);
      var post := TrimEndShape(TrimStart(s));
      assert pre + (t + post) == pre + t + post;
      assert TrimsBy(s, t, pre, post);
    }
    if TrimsTo(s, t) {
      var pre, post :| TrimsBy(s, t, pre, post);
      if t == "" {
        assert s == pre + post && Blank(s);
        TrimStartSkips(s, "");
        assert s + "" == s;
      } else {
        assert s == pre + (t + post);
        TrimStartSkips(pre, t + post);
        TrimEndSkips(t, post);
      }
    }
  }

  function AsciiLower(c: char): char {
    if 'A' <= c <= 'Z' then c - 'A' + 'a' else c
  }

  function ToAsciiLower(s: string): (r: string)
    ensures |r| == |s|
  {
    seq(|s|, i requires 0 <= i < |s| => AsciiLower(s[i]))
  }

  /** The same characters, but that ASCII capitals may stand for their small letters. */
  predicate SameIgnoringCase(s: string, word: string) {
    && |s| == |word|
    && forall i | 0 <= i < |s| ::
         s[i] == word[i] || (65 <= s[i] as int <= 90 && word[i] as int == s[i] as int + 32)
  }

  /** The text is the word, up to blanks around it and the case of its letters. */
  ghost predicate Says(text: string, word: string) {
    exists t :: TrimsTo(text, t) && SameIgnoringCase(t, word)
  }

  lemma SaysIff(text: string, word: string)
    requires forall i | 0 <= i < |word| :: !(65 <= word[i] as int <= 90)
    ensures ToAsciiLower(Trim(text)) == word <==> Says(text, word)
  {
    TrimIff(text, Trim(text));
    if Says(text, word) {
      var t :| TrimsTo(text, t) && SameIgnoringCase(t, word);
      TrimIff(text, t);
    }
    assert ToAsciiLower(Trim(text)) == word <==> SameIgnoringCase(Trim(text), word);
  }

  /******* Decimal numbers *******/

  predicate IsDigit(c: char) {
    '0' <= c <= '9'
  }

  function DigitChar(d: nat): (c: char)
    requires d < 10
    ensures IsDigit(c) && c as int - '0' as int == d
  {
    '0' + d as char
  }

  function Show(n: nat): (s: string)
    ensures s != "" && forall i | 0 <= i < |s| :: IsDigit(s[i])
  {
    if n < 10 then [DigitChar(n)] else Show(n / 10) + [DigitChar(n % 10)]
  }

  /** The value of a non-empty string of digits. */
  function ParseNat(s: string): Option<nat> {
    if s == "" || !IsDigit(s[|s| - 1]) then None
    else
      var d: nat := s[|s| - 1] as int - '0' as int;
      if |s| == 1 then Some(d)
      else
        match ParseNat(s[..|s| - 1])
        case Some(n) => Some(10 * n + d)
        case None => None
  }

  lemma {:induction false} ParseShow(n: nat)
    ensures ParseNat(Show(n)) == Some(n)
  {
    if n >= 10 {
      ParseShow(n / 10);
      var s := Show(n);
      assert s[..|s| - 1] == Show(n / 10);
    }
  }

  /** Distinct numbers have distinct decimal forms. */
  lemma ShowInjective(m: nat, n: nat)
    requires Show(m) == Show(n)
    ensures m == n
  {
    ParseShow(m);
    ParseShow(n);
  }

  const I64_MIN: int := -0x8000_0000_0000_0000
  const I64_MAX: int := 0x7fff_ffff_ffff_ffff

  /** An optional sign and digits; anything else, and anything out of the 64-bit range, is rejected. */
  function ParseI64(s: string): Option<int> {
    var negative := s != "" && s[0] == '-';
    var digits := if s != "" && s[0] in {'-', '+'} then s[1..] else s;
    match ParseNat(digits)
    case Some(n) =>
      var magnitude: int := n;
      var v := if negative then -magnitude else magnitude;
      if I64_MIN <= v <= I64_MAX then Some(v) else None
    case None => None
  }

  function Zeros(k: nat): (s: string)
    ensures |s| == k && forall i | 0 <= i < k :: s[i] == '0'
  {
    if k == 0 then "" else Zeros(k - 1) + "0"
  }

  function Magnitude(v: int): nat {
    if v < 0 then -v else v
  }

  /** The sign fits the number, and the rest is its magnitude's decimal form after `k` zeros. */
  predicate DenotesBy(s: string, v: int, sign: string, k: nat) {
    && sign in {"", "+", "-"} && (if sign == "-" then v <= 0 else v >= 0)
    && s == sign + (Zeros(k) + Show(Magnitude(v)))
  }

  ghost predicate Denotes(s: string, v: int) {
    exists sign, k :: DenotesBy(s, v, sign, k)
  }

  lemma {:induction false} ParseZeros(k: nat, n: nat)
    ensures ParseNat(Zeros(k) + Show(n)) == Some(n)
  {
    var s := Zeros(k) + Show(n);
    if n >= 10 {
      ParseZeros(k, n / 10);
      assert s[..|s| - 1] == Zeros(k) + Show(n / 10);
    } else if k > 0 {
      ParseZeros(k - 1, 0);
      assert s[..|s| - 1] == Zeros(k - 1) + Show(0);
    }
  }

  lemma ShowStep(n: nat, d: nat)
    requires d < 10
    ensures Show(10 * n + d) == (if n == 0 then "" else Show(n)) + [DigitChar(d)]
  {
    assert (10 * n + d) / 10 == n && (10 * n + d) % 10 == d;
  }

  /** One more digit after a number written with zeros in front. */
  lemma DigitAfter(k: nat, n: nat, d: nat) returns (k': nat)
    requires d < 10
    ensures Zeros(k) + Show(n) + [DigitChar(d)] == Zeros(k') + Show(10 * n + d)
  {
    ShowStep(n, d);
    if n == 0 {
      k' := k + 1;
      assert Zeros(k) + "0" == Zeros(k + 1);
    } else {
      k' := k;
      assert Zeros(k) + Show(n) + [DigitChar(d)] == Zeros(k) + (Show(n) + [DigitChar(d)]);
    }
  }

  lemma ParseNatLast(s: string) returns (d: nat)
    requires |s| > 1 && ParseNat(s).Some?
    ensures d < 10 && s == s[..|s| - 1] + [DigitChar(d)]
    ensures ParseNat(s[..|s| - 1]).Some? && ParseNat(s).value == 10 * ParseNat(s[..|s| - 1]).value + d
  {
    d := s[|s| - 1] as int - '0' as int;
  }

  /** Every string of digits is the decimal form of its value after some zeros. */
  lemma {:induction false} ParseNatForm(s: string) returns (k: nat)
    requires ParseNat(s).Some?
    ensures s == Zeros(k) + Show(ParseNat(s).value)
    decreases |s|
  {
    if |s| == 1 {
      k := 0;
    } else {
      var d := ParseNatLast(s);
      k := ParseNatForm(s[..|s| - 1]);
      k := DigitAfter(k, ParseNat(s[..|s| - 1]).value, d);
    }
  }

  lemma DigitsFirst(k: nat, n: nat)
    ensures var s := Zeros(k) + Show(n); s != "" && s[0] !in {'-', '+'}
  {
    assert IsDigit(Show(n)[0]);
  }

  lemma DenotedIsParsed(s: string, v: int, sign: string, k: nat)
    requires DenotesBy(s, v, sign, k)
    ensures ParseI64(s) == if I64_MIN <= v <= I64_MAX then Some(v) else None
  {
    var digits := Zeros(k) + Show(Magnitude(v));
    ParseZeros(k, Magnitude(v));
    DigitsFirst(k, Magnitude(v));
    if sign == "" {
      assert s == digits;
    } else {
      assert s[0] == sign[0] && s[1..] == digits;
    }
  }

  lemma ParsedIsDenoted(s: string)
    requires ParseI64(s).Some?
    ensures I64_MIN <= ParseI64(s).value <= I64_MAX && Denotes(s, ParseI64(s).value)
  {
    var v := ParseI64(s).value;
    if s[0] in {'-', '+'} {
      var k := ParseNatForm(s[1..]);
      assert s == [s[0]] + s[1..];
      assert DenotesBy(s, v, [s[0]], k);
    } else {
      var k := ParseNatForm(s);
      assert s == "" + s;
      assert DenotesBy(s, v, "", k);
    }
  }

  /** Accepted exactly are the decimal forms of numbers in the 64-bit range, with the value they denote. */
  lemma ParseI64Iff(s: string, v: int)
    ensures ParseI64(s) == Some(v) <==> -0x8000_0000_0000_0000 <= v <= 0x7fff_ffff_ffff_ffff && Denotes(s, v)
  {
    if Denotes(s, v) {
      var sign, k :| DenotesBy(s, v, sign, k);
      DenotedIsParsed(s, v, sign, k);
    }
    if ParseI64(s).Some? {
      ParsedIsDenoted(s);
    }
  }

  /******* Lexicographic order *******/

  predicate LexLeq(s: string, t: string) {
    if s == "" then true
    else if t == "" then false
    else if s[0] != t[0] then s[0] < t[0]
    else LexLeq(s[1..], t[1..])
  }

  lemma {:induction false} LexReflexive(s: string)
    ensures LexLeq(s, s)
  {
    if s != "" {
      LexReflexive(s[1..]);
    }
  }

  lemma {:induction false} LexTotal(s: string, t: string)
    ensures LexLeq(s, t) || LexLeq(t, s)
  {
    if s != "" && t != "" && s[0] == t[0] {
      LexTotal(s[1..], t[1..]);
    }
  }

  lemma {:induction false} LexAntisymmetric(s: string, t: string)
    requires LexLeq(s, t) && LexLeq(t, s)
    ensures s == t
  {
    if s != "" {
      LexAntisymmetric(s[1..], t[1..]);
      assert s == [s[0]] + s[1..] && t == [t[0]] + t[1..];
    }
  }

  lemma {:induction false} LexTransitive(s: string, t: string, u: string)
    requires LexLeq(s, t) && LexLeq(t, u)
    ensures LexLeq(s, u)
  {
    if s != "" && s[0] == t[0] && t[0] == u[0] {
      LexTransitive(s[1..], t[1..], u[1..]);
    }
  }

  /** `s` is a beginning of `t`, or has the smaller character where they first differ. */
  lemma {:induction false} LexLeqIff(s: string, t: string)
    ensures LexLeq(s, t) <==>
            s <= t || exists k | 0 <= k < |s| && k < |t| :: s[..k] == t[..k] && s[k] < t[k]
  {
    if s != "" && t != "" && s[0] == t[0] {
      LexLeqIff(s[1..], t[1..]);
      assert s == [s[0]] + s[1..] && t == [t[0]] + t[1..];
      if k :| 0 <= k < |s[1..]| && k < |t[1..]| && s[1..][..k] == t[1..][..k] && s[1..][k] < t[1..][k] {
        assert s[..k + 1] == [s[0]] + s[1..][..k] && t[..k + 1] == [t[0]] + t[1..][..k];
        assert s[k + 1] < t[k + 1];
      }
      if k :| 0 <= k < |s| && k < |t| && s[..k] == t[..k] && s[k] < t[k] {
        assert s[1..][..k - 1] == s[..k][1..] && t[1..][..k - 1] == t[..k][1..];
        assert s[1..][k - 1] < t[1..][k - 1];
      }
    } else if s != "" && t != "" {
      assert s[..0] == t[..0];
      forall k | 0 < k < |s| && k < |t| ensures s[..k] != t[..k] {
        assert s[..k][0] == s[0] && t[..k][0] == t[0];
      }
    }
  }
}
