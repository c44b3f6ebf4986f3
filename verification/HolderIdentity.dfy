/** The identity a process writes into the Lease (`src/lock.rs`): a base name cut to fit 63 bytes on a
    character boundary, a colon, and the process id. Strings are UTF-8 (section 3 of RFC 3629). */
module HolderIdentity {

  import opened Text
  import LeaseProtocol

  type Byte = b: int | 0 <= b < 256
  type Scalar = c: int | 0 <= c < 0xd800 || 0xe000 <= c < 0x11_0000

  /******* UTF-8 *******/

  function EncodeScalar(c: Scalar): (bytes: seq<Byte>)
    ensures 1 <= |bytes| <= 4
  {
    if c < 0x80 then [c]
    else if c < 0x800 then [0xc0 + c / 64, 0x80 + c % 64]
    else if c < 0x1_0000 then [0xe0 + c / 4096, 0x80 + c / 64 % 64, 0x80 + c % 64]
    else [0xf0 + c / 26_2144, 0x80 + c / 4096 % 64, 0x80 + c / 64 % 64, 0x80 + c % 64]
  }

  function Encode(s: seq<Scalar>): seq<Byte> {
    if s == [] then [] else EncodeScalar(s[0]) + Encode(s[1..])
  }

  predicate IsContinuation(b: Byte) {
    0x80 <= b < 0xc0
  }

  predicate IsCharBoundary(s: seq<Byte>, i: nat) {
    i == 0 || i == |s| || (i < |s| && !IsContinuation(s[i]))
  }

  lemma ScalarShape(c: Scalar)
    ensures !IsContinuation(EncodeScalar(c)[0])
    ensures forall i | 0 < i < |EncodeScalar(c)| :: IsContinuation(EncodeScalar(c)[i])
  {
  }

  lemma ScalarLength(c: Scalar)
    ensures var b := EncodeScalar(c)[0];
            |EncodeScalar(c)| == if b < 0x80 then 1 else if b < 0xe0 then 2 else if b < 0xf0 then 3 else 4
  {
  }

  /** The bits a byte carries beyond its marker. */
  function Payload(b: Byte, marker: int): int {
    b as int - marker
  }

  function DecodeScalar(bytes: seq<Byte>): int {
    if |bytes| == 1 then bytes[0]
    else if |bytes| == 2 then 64 * Payload(bytes[0], 0xc0) + Payload(bytes[1], 0x80)
    else if |bytes| == 3 then
      4096 * Payload(bytes[0], 0xe0) + 64 * Payload(bytes[1], 0x80) + Payload(bytes[2], 0x80)
    else if |bytes| == 4 then
      26_2144 * Payload(bytes[0], 0xf0) + 4096 * Payload(bytes[1], 0x80)
      + 64 * Payload(bytes[2], 0x80) + Payload(bytes[3], 0x80)
    else 0
  }

  lemma DecodeEncode(c: Scalar)
    ensures DecodeScalar(EncodeScalar(c)) == c
  {
    assert c == 64 * (c / 64) + c % 64;
    if c >= 0x800 {
      assert c / 64 == 64 * (c / 4096) + c / 64 % 64;
    }
    if c >= 0x1_0000 {
      assert c / 4096 == 64 * (c / 26_2144) + c / 4096 % 64;
    }
  }

  lemma {:induction false} EncodeInjective(s: seq<Scalar>, t: seq<Scalar>)
    requires Encode(s) == Encode(t)
    ensures s == t
  {
    if s == [] || t == [] {
    } else {
      var x, y := EncodeScalar(s[0]), EncodeScalar(t[0]);
      assert Encode(s)[0] == x[0] && Encode(t)[0] == y[0];
      ScalarLength(s[0]);
      ScalarLength(t[0]);
      assert x == Encode(s)[..|x|] && y == Encode(t)[..|y|];
      DecodeEncode(s[0]);
      DecodeEncode(t[0]);
      assert Encode(s)[|x|..] == Encode(s[1..]) && Encode(t)[|y|..] == Encode(t[1..]);
      EncodeInjective(s[1..], t[1..]);
      assert s == [s[0]] + s[1..] && t == [t[0]] + t[1..];
    }
  }

  /******* Truncation *******/

  /** The number of leading characters that fit into `maxBytes`. */
  function Fitting(s: seq<Scalar>, maxBytes: nat): (k: nat)
    ensures k <= |s|
  {
    if s == [] || |EncodeScalar(s[0])| > maxBytes then 0
    else 1 + Fitting(s[1..], maxBytes - |EncodeScalar(s[0])|)
  }

  lemma {:induction false} EncodeConcat(s: seq<Scalar>, t: seq<Scalar>)
    ensures Encode(s + t) == Encode(s) + Encode(t)
  {
    if s == [] {
      assert s + t == t;
    } else {
      assert (s + t)[1..] == s[1..] + t;
      EncodeConcat(s[1..], t);
    }
  }

  /** The longest prefix of whole characters: it fits, and one character more would not. */
  lemma {:induction false} FittingIsLongest(s: seq<Scalar>, maxBytes: nat)
    ensures |Encode(s[..Fitting(s, maxBytes)])| <= maxBytes
    ensures Fitting(s, maxBytes) < |s| ==> |Encode(s[..Fitting(s, maxBytes) + 1])| > maxBytes
    ensures Fitting(s, maxBytes) == |s| <==> |Encode(s)| <= maxBytes
  {
    if s != [] && |EncodeScalar(s[0])| <= maxBytes {
      var left := maxBytes - |EncodeScalar(s[0])|;
      var k := Fitting(s[1..], left);
      FittingIsLongest(s[1..], left);
      assert s[..k + 1][1..] == s[1..][..k];
      if k < |s[1..]| {
        assert s[..k + 2][1..] == s[1..][..k + 1];
      }
    } else if s != [] {
      assert s[..1][1..] == [];
    }
  }

  /** A byte position at most `maxBytes` with no character boundary between the two is the end of the
      longest fitting prefix. */
  lemma {:induction false} LastBoundaryIsFitting(s: seq<Scalar>, maxBytes: nat, end: nat)
    requires end <= maxBytes < |Encode(s)|
    requires IsCharBoundary(Encode(s), end)
    requires forall i | end < i <= maxBytes :: !IsCharBoundary(Encode(s), i)
    ensures Encode(s)[..end] == Encode(s[..Fitting(s, maxBytes)])
    decreases |s|
  {
    var first := EncodeScalar(s[0]);
    var rest := Encode(s[1..]);
    var bytes := Encode(s);
    ScalarShape(s[0]);
    assert bytes == first + rest;
    if |first| > maxBytes {
      assert end == 0;
    } else {
      assert IsCharBoundary(bytes, |first|) by {
        if s[1..] != [] {
          ScalarShape(s[1..][0]);
          assert rest[0] == EncodeScalar(s[1..][0])[0];
        }
      }
      assert end >= |first|;
      var e := end - |first|;
      var m := maxBytes - |first|;
      assert forall i | 0 < i <= |rest| :: IsCharBoundary(rest, i) == IsCharBoundary(bytes, i + |first|);
      assert IsCharBoundary(rest, e);
      forall i | e < i <= m
        ensures !IsCharBoundary(rest, i)
      {
        assert !IsCharBoundary(bytes, i + |first|);
      }
      LastBoundaryIsFitting(s[1..], m, e);
      assert bytes[..end] == first + rest[..e];
      assert s[..Fitting(s, maxBytes)][1..] == s[1..][..Fitting(s[1..], m)];
    }
  }

  /** Cut a string to at most `maxBytes` bytes; the result is its longest fitting prefix of whole
      characters. `chars` are the characters that `s` encodes. */
  method TruncateCharBoundary(s: seq<Byte>, ghost chars: seq<Scalar>, maxBytes: nat) returns (r: seq<Byte>)
    requires s == Encode(chars)
    ensures |r| <= maxBytes
    ensures r == Encode(chars[..Fitting(chars, maxBytes)])
  {
    FittingIsLongest(chars, maxBytes);
    if |s| <= maxBytes {
      assert chars[..|chars|] == chars;
      return s;
    }
    var end := maxBytes;
    while end > 0 && !IsCharBoundary(s, end)
      invariant 0 <= end <= maxBytes
      invariant forall i | end < i <= maxBytes :: !IsCharBoundary(s, i)
    {
      end := end - 1;
    }
    LastBoundaryIsFitting(chars, maxBytes, end);
    r := s[..end];
  }

  /******* The identity *******/

  const MAX_IDENTITY: nat := 63

  const COLON: Byte := 0x3a

  function Ascii(s: string): (r: seq<Scalar>)
    requires forall i | 0 <= i < |s| :: s[i] < '\U{80}'
    ensures |r| == |s| && forall i | 0 <= i < |s| :: r[i] == s[i] as int
  {
    seq(|s|, i requires 0 <= i < |s| => s[i] as int)
  }

  function PidBytes(pid: nat): (r: seq<Byte>)
    ensures |r| == |Show(pid)|
    ensures forall i | 0 <= i < |r| :: r[i] == Show(pid)[i] as int && r[i] != COLON
  {
    seq(|Show(pid)|, i requires 0 <= i < |Show(pid)| => Show(pid)[i] as int)
  }

  function Suffix(pid: nat): seq<Byte> {
    [COLON] + PidBytes(pid)
  }

  function MaxBase(pid: nat): nat {
    if |Suffix(pid)| <= MAX_IDENTITY then MAX_IDENTITY - |Suffix(pid)| else 0
  }

  /** The characters of the base that end up in the identity; an empty base stands for `leancd`. */
  function ChosenBase(base: seq<Scalar>, pid: nat): seq<Scalar> {
    if base == [] then Ascii("leancd") else base[..Fitting(base, MaxBase(pid))]
  }

  method MakeHolderIdentity(base: seq<Byte>, ghost chars: seq<Scalar>, pid: nat) returns (id: seq<Byte>)
    requires base == Encode(chars)
    ensures id == Encode(ChosenBase(chars, pid)) + Suffix(pid)
  {
    var suffix := Suffix(pid);
    var maxBase := if |suffix| <= MAX_IDENTITY then MAX_IDENTITY - |suffix| else 0;
    var chosen;
    if base == [] {
      assert chars == [];
      chosen := Encode(Ascii("leancd"));
    } else {
      chosen := TruncateCharBoundary(base, chars, maxBase);
    }
    id := chosen + suffix;
  }

  function Identity(base: seq<Scalar>, pid: nat): seq<Byte> {
    Encode(ChosenBase(base, pid)) + Suffix(pid)
  }

  lemma {:induction false} ShowLength(n: nat, digits: nat, bound: nat)
    requires 0 < digits && n < bound
    requires bound == PowerOfTen(digits)
    ensures |Show(n)| <= digits
    decreases digits
  {
    if n >= 10 {
      ShowLength(n / 10, digits - 1, PowerOfTen(digits - 1));
    }
  }

  function PowerOfTen(k: nat): nat {
    if k == 0 then 1 else 10 * PowerOfTen(k - 1)
  }

  lemma PidLength(pid: nat)
    requires pid < 0x1_0000_0000
    ensures |Suffix(pid)| <= 11
  {
    assert PowerOfTen(5) == 10_0000;
    assert PowerOfTen(8) == 1000 * PowerOfTen(5);
    assert PowerOfTen(10) == 100 * PowerOfTen(8);
    ShowLength(pid, 10, PowerOfTen(10));
  }

  lemma LeancdLength()
    ensures |Encode(Ascii("leancd"))| == 6
  {
    var s := Ascii("leancd");
    EncodeAscii(s);
  }

  lemma {:induction false} EncodeAscii(s: seq<Scalar>)
    requires forall i | 0 <= i < |s| :: s[i] < 0x80
    ensures |Encode(s)| == |s| && forall i | 0 <= i < |s| :: Encode(s)[i] == s[i]
  {
    if s != [] {
      EncodeAscii(s[1..]);
    }
  }

  /** An identity has at most 63 bytes, and is whole characters followed by the suffix. */
  lemma IdentityFits(base: seq<Scalar>, pid: nat)
    requires pid < 0x1_0000_0000
    ensures |Identity(base, pid)| <= 63
    ensures base != [] ==> ChosenBase(base, pid) <= base
    ensures base != [] && |Encode(base)| <= 52 ==> ChosenBase(base, pid) == base
    ensures base != [] && |ChosenBase(base, pid)| < |base| ==>
              |Encode(base[..|ChosenBase(base, pid)| + 1])| + 1 + |Show(pid)| > 63
  {
    PidLength(pid);
    if base == [] {
      LeancdLength();
    } else {
      FittingIsLongest(base, MaxBase(pid));
      assert base[..|base|] == base;
    }
  }

  /** The last colon separates base and process id. */
  lemma SuffixSplit(x: seq<Byte>, y: seq<Byte>, p: nat, q: nat)
    requires x + Suffix(p) == y + Suffix(q)
    ensures x == y && p == q
  {
    var whole := x + Suffix(p);
    assert whole[|x|] == COLON && whole[|y|] == COLON;
    assert |x| == |y|;
    assert x == whole[..|x|] && y == whole[..|y|];
    assert PidBytes(p) == whole[|x| + 1..] && PidBytes(q) == whole[|y| + 1..];
    forall i | 0 <= i < |Show(p)|
      ensures Show(p)[i] == Show(q)[i]
    {
      assert PidBytes(p)[i] == PidBytes(q)[i];
    }
    ShowInjective(p, q);
  }

  /** Two identities are equal exactly when the process ids and the characters kept of the bases are. */
  lemma IdentityEqualIff(b1: seq<Scalar>, p1: nat, b2: seq<Scalar>, p2: nat)
    ensures Identity(b1, p1) == Identity(b2, p2) <==> p1 == p2 && ChosenBase(b1, p1) == ChosenBase(b2, p2)
  {
    if Identity(b1, p1) == Identity(b2, p2) {
      SuffixSplit(Encode(ChosenBase(b1, p1)), Encode(ChosenBase(b2, p2)), p1, p2);
      EncodeInjective(ChosenBase(b1, p1), ChosenBase(b2, p2));
    }
  }

  /** So non-empty bases of at most 52 bytes give distinct processes distinct identities. */
  lemma IdentityInjective(b1: seq<Scalar>, p1: nat, b2: seq<Scalar>, p2: nat)
    requires p1 < 0x1_0000_0000 && p2 < 0x1_0000_0000
    requires b1 != [] && |Encode(b1)| <= 52 && b2 != [] && |Encode(b2)| <= 52
    ensures Identity(b1, p1) == Identity(b2, p2) <==> b1 == b2 && p1 == p2
  {
    IdentityFits(b1, p1);
    IdentityFits(b2, p2);
    IdentityEqualIff(b1, p1, b2, p2);
  }

  /******* The identities of the lease protocol *******/

  function SuffixChars(pid: nat): (r: seq<Scalar>)
    ensures forall i | 0 <= i < |r| :: r[i] < 0x80
  {
    Ascii(":") + Ascii(Show(pid))
  }

  /** The characters that the identity encodes. */
  function IdentityChars(base: seq<Scalar>, pid: nat): seq<Scalar> {
    ChosenBase(base, pid) + SuffixChars(pid)
  }

  function IdentityText(base: seq<Scalar>, pid: nat): string {
    var chars := IdentityChars(base, pid);
    seq(|chars|, i requires 0 <= i < |chars| => chars[i] as char)
  }

  lemma SuffixEncodes(pid: nat)
    ensures Encode(SuffixChars(pid)) == Suffix(pid)
  {
    EncodeAscii(SuffixChars(pid));
  }

  lemma IdentityEncodes(base: seq<Scalar>, pid: nat)
    ensures Encode(IdentityChars(base, pid)) == Identity(base, pid)
  {
    EncodeConcat(ChosenBase(base, pid), SuffixChars(pid));
    SuffixEncodes(pid);
  }

  /** The identity reads as the kept base, or `leancd` without one, a colon and the decimal process id. */
  lemma IdentityReads(base: seq<Scalar>, pid: nat)
    ensures var text, n := IdentityText(base, pid), if base == [] then 6 else |ChosenBase(base, pid)|;
            && |text| == n + 1 + |Show(pid)| && text[n..] == ":" + Show(pid)
            && (base == [] ==> text[..n] == "leancd")
            && (base != [] ==> n <= |base| && forall i | 0 <= i < n :: text[i] as int == base[i])
  {
    var chars := IdentityChars(base, pid);
    assert forall i | 0 <= i < |chars| :: IdentityText(base, pid)[i] as int == chars[i];
  }

  /** The length of a character's encoding (section 3 of RFC 3629). */
  lemma ScalarWidth(c: Scalar)
    ensures |EncodeScalar(c)| == if c <= 0x7f then 1 else if c <= 0x7ff then 2 else if c <= 0xffff then 3 else 4
  {
  }

  /** Texts are equal exactly when their encodings are. */
  lemma TextEqualIff(b1: seq<Scalar>, p1: nat, b2: seq<Scalar>, p2: nat)
    ensures IdentityText(b1, p1) == IdentityText(b2, p2) <==> Identity(b1, p1) == Identity(b2, p2)
  {
    IdentityEncodes(b1, p1);
    IdentityEncodes(b2, p2);
    var x, y := IdentityChars(b1, p1), IdentityChars(b2, p2);
    if IdentityText(b1, p1) == IdentityText(b2, p2) {
      forall i | 0 <= i < |x| ensures x[i] == y[i] {
        assert IdentityText(b1, p1)[i] == x[i] as char && IdentityText(b2, p2)[i] == y[i] as char;
      }
      assert x == y;
    }
    if Identity(b1, p1) == Identity(b2, p2) {
      EncodeInjective(x, y);
    }
  }

  /** The processes of a lease protocol, by base and process id. */
  function Holders(procs: seq<(seq<Scalar>, nat)>): seq<string> {
    seq(|procs|, i requires 0 <= i < |procs| => IdentityText(procs[i].0, procs[i].1))
  }

  /** The lease results apply to a set of processes, whatever their lease seconds and clocks, exactly when
      no two of them have the same process id and keep the same characters of their bases. */
  lemma HoldersDistinctIff(procs: seq<(seq<Scalar>, nat)>, durations: seq<int>, skews: seq<int>, maxSkew: int)
    requires |procs| == |durations| == |skews| && forall p | 0 <= p < |skews| :: skews[p] <= maxSkew
    ensures LeaseProtocol.Params(Holders(procs), durations, skews, maxSkew).Valid() <==>
            forall i, j | 0 <= i < j < |procs| ::
              procs[i].1 != procs[j].1
              || ChosenBase(procs[i].0, procs[i].1) != ChosenBase(procs[j].0, procs[j].1)
  {
    var c := LeaseProtocol.Params(Holders(procs), durations, skews, maxSkew);
    forall i, j | 0 <= i < j < |procs|
      ensures c.holders[i] != c.holders[j] <==>
              procs[i].1 != procs[j].1
              || ChosenBase(procs[i].0, procs[i].1) != ChosenBase(procs[j].0, procs[j].1)
    {
      TextEqualIff(procs[i].0, procs[i].1, procs[j].0, procs[j].1);
      IdentityEqualIff(procs[i].0, procs[i].1, procs[j].0, procs[j].1);
    }
  }

  /** So it is enough that non-empty bases of at most 52 bytes differ or the process ids do. */
  lemma DistinctProcesses(procs: seq<(seq<Scalar>, nat)>, durations: seq<int>, skews: seq<int>, maxSkew: int)
    requires |procs| == |durations| == |skews| && forall p | 0 <= p < |skews| :: skews[p] <= maxSkew
    requires forall i | 0 <= i < |procs| ::
               procs[i].0 != [] && |Encode(procs[i].0)| <= 52 && procs[i].1 < 0x1_0000_0000
    requires forall i, j | 0 <= i < j < |procs| :: procs[i] != procs[j]
    ensures LeaseProtocol.Params(Holders(procs), durations, skews, maxSkew).Valid()
  {
    forall i, j | 0 <= i < j < |procs|
      ensures Identity(procs[i].0, procs[i].1) != Identity(procs[j].0, procs[j].1)
    {
      IdentityInjective(procs[i].0, procs[i].1, procs[j].0, procs[j].1);
    }
    forall i, j | 0 <= i < j < |procs|
      ensures procs[i].1 != procs[j].1
              || ChosenBase(procs[i].0, procs[i].1) != ChosenBase(procs[j].0, procs[j].1)
    {
      IdentityEqualIff(procs[i].0, procs[i].1, procs[j].0, procs[j].1);
    }
    HoldersDistinctIff(procs, durations, skews, maxSkew);
  }
}
