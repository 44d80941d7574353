/** Subscription ids as JSON-RPC quantities (encodeID in simple_rpc/rpc/subscription.go). */
module SubscriptionIds {
  type Byte = n: nat | n < 256

  predicate IsHexDigit(c: char) {
    '0' <= c <= '9' || 'a' <= c <= 'f'
  }

  predicate IsHex(s: string) {
    forall i :: 0 <= i < |s| ==> IsHexDigit(s[i])
  }

  function HexDigit(n: nat): (c: char)
    requires n < 16
    ensures IsHexDigit(c)
  {
    if n < 10 then '0' + n as char else 'a' + (n - 10) as char
  }

  function DigitValue(c: char): (n: nat)
    requires IsHexDigit(c)
    ensures n < 16 && HexDigit(n) == c
  {
    if '0' <= c <= '9' then (c - '0') as nat else 10 + (c - 'a') as nat
  }

  /** hex.EncodeToString: two digits for each byte. */
  function Hex(b: seq<Byte>): (s: string)
    ensures |s| == 2 * |b| && IsHex(s)
  {
    if b == [] then "" else
    var last := b[|b| - 1];
    Hex(b[..|b| - 1]) + [HexDigit(last / 16), HexDigit(last % 16)]
  }

  /** strings.TrimLeft(s, "0") */
  function TrimZeros(s: string): (t: string)
    ensures |t| <= |s| && (IsHex(s) ==> IsHex(t)) && (t == "" || t[0] != '0')
  {
    if s != "" && s[0] == '0' then TrimZeros(s[1..]) else s
  }

  function EncodeId(b: seq<Byte>): string {
    var id := TrimZeros(Hex(b));
    "0x" + if id == "" then "0" else id
  }

  /** The number a string of hex digits stands for. */
  function HexValue(s: string): nat
    requires IsHex(s)
  {
    if s == "" then 0 else 16 * HexValue(s[..|s| - 1]) + DigitValue(s[|s| - 1])
  }

  /** The number a byte string stands for, most significant byte first. */
  function BigEndian(b: seq<Byte>): nat {
    if b == [] then 0 else 256 * BigEndian(b[..|b| - 1]) + b[|b| - 1]
  }

  /** No leading zero, unless the quantity is zero. */
  predicate Canonical(s: string) {
    s == "0" || (s != "" && s[0] != '0')
  }

  lemma {:induction false} HexKeepsValue(b: seq<Byte>)
    ensures HexValue(Hex(b)) == BigEndian(b)
  {
    if b != [] {
      var front, last := b[..|b| - 1], b[|b| - 1];
      HexKeepsValue(front);
      var s := Hex(b);
      assert s[..|s| - 1] == Hex(front) + [HexDigit(last / 16)];
      assert s[..|s| - 1][..|s| - 2] == Hex(front);
      DigitOfValue(last / 16);
      DigitOfValue(last % 16);
    }
  }

  lemma {:induction false} DigitOfValue(n: nat)
    requires n < 16
    ensures DigitValue(HexDigit(n)) == n
  {
  }

  lemma {:induction false} LeadingZero(s: string)
    requires IsHex(s)
    ensures IsHex("0" + s) && HexValue("0" + s) == HexValue(s)
  {
    if s == "" {
      assert ("0" + s)[..0] == "";
    } else {
      LeadingZero(s[..|s| - 1]);
      assert ("0" + s)[..|s|] == "0" + s[..|s| - 1];
    }
  }

  lemma {:induction false} TrimKeepsValue(s: string)
    requires IsHex(s)
    ensures HexValue(TrimZeros(s)) == HexValue(s)
  {
    if s != "" && s[0] == '0' {
      TrimKeepsValue(s[1..]);
      LeadingZero(s[1..]);
      assert "0" + s[1..] == s;
    }
  }

  /** The encoding keeps the number, is canonical, and has at most two digits a byte. */
  lemma {:induction false} EncodeIdIsQuantity(b: seq<Byte>)
    ensures var id := EncodeId(b);
      && |id| > 2 && id[..2] == "0x" && IsHex(id[2..]) && Canonical(id[2..])
      && HexValue(id[2..]) == BigEndian(b)
      && (b != [] ==> |id[2..]| <= 2 * |b|)
  {
    HexKeepsValue(b);
    TrimKeepsValue(Hex(b));
    assert HexValue("0") == 0 by {
      assert "0"[..0] == "";
    }
    var digits := if TrimZeros(Hex(b)) == "" then "0" else TrimZeros(Hex(b));
    assert EncodeId(b)[2..] == digits;
  }

  lemma {:induction false} NonZero(s: string)
    requires IsHex(s) && s != "" && s[0] != '0'
    ensures HexValue(s) > 0
  {
    if |s| == 1 {
      DigitOfValue(0);
      assert HexDigit(DigitValue(s[0])) == s[0];
    } else {
      NonZero(s[..|s| - 1]);
    }
  }

  lemma {:induction false} SameQuotientAndRest(a: nat, b: nat, c: nat, d: nat)
    requires 16 * a + b == 16 * c + d && b < 16 && d < 16
    ensures a == c && b == d
  {
  }

  /** Only a single digit has nothing before its last digit. */
  lemma {:induction false} FrontIsZero(s: string)
    requires IsHex(s) && Canonical(s)
    ensures HexValue(s[..|s| - 1]) == 0 <==> |s| == 1
    ensures |s| > 1 ==> Canonical(s[..|s| - 1])
  {
    if |s| > 1 {
      NonZero(s[..|s| - 1]);
    }
  }

  lemma {:induction false} SplitLast(s: string)
    requires IsHex(s) && s != ""
    ensures HexValue(s) == 16 * HexValue(s[..|s| - 1]) + DigitValue(s[|s| - 1])
    ensures s == s[..|s| - 1] + [HexDigit(DigitValue(s[|s| - 1]))]
  {
  }

  /** A quantity has one canonical text. */
  lemma {:induction false} CanonicalUnique(s: string, t: string, v: nat)
    requires IsHex(s) && IsHex(t) && Canonical(s) && Canonical(t) && HexValue(s) == v == HexValue(t)
    ensures s == t
    decreases v, |s|
  {
    SplitLast(s);
    SplitLast(t);
    FrontIsZero(s);
    FrontIsZero(t);
    CanonicalFronts(s[..|s| - 1], DigitValue(s[|s| - 1]), t[..|t| - 1], DigitValue(t[|t| - 1]), v);
  }

  lemma {:induction false} CanonicalFronts(sf: string, sd: nat, tf: string, td: nat, v: nat)
    requires IsHex(sf) && IsHex(tf) && sd < 16 && td < 16
    requires 16 * HexValue(sf) + sd == v == 16 * HexValue(tf) + td
    requires sf == "" || (Canonical(sf) && HexValue(sf) > 0)
    requires tf == "" || (Canonical(tf) && HexValue(tf) > 0)
    ensures sf == tf && sd == td
    decreases v, 0
  {
    SameQuotientAndRest(HexValue(sf), sd, HexValue(tf), td);
    if sf != "" {
      CanonicalUnique(sf, tf, HexValue(sf));
    }
  }

  lemma {:induction false} BigEndianInjective(a: seq<Byte>, b: seq<Byte>)
    requires |a| == |b| && BigEndian(a) == BigEndian(b)
    ensures a == b
  {
    if a != [] {
      BigEndianInjective(a[..|a| - 1], b[..|b| - 1]);
      assert a == a[..|a| - 1] + [a[|a| - 1]] && b == b[..|b| - 1] + [b[|b| - 1]];
    }
  }

  /** Two ids are the same exactly if they stand for the same number. */
  lemma {:induction false} SameIdSameNumber(a: seq<Byte>, b: seq<Byte>)
    ensures EncodeId(a) == EncodeId(b) <==> BigEndian(a) == BigEndian(b)
  {
    EncodeIdIsQuantity(a);
    EncodeIdIsQuantity(b);
    if BigEndian(a) == BigEndian(b) {
      CanonicalUnique(EncodeId(a)[2..], EncodeId(b)[2..], BigEndian(a));
      assert EncodeId(a) == "0x" + EncodeId(a)[2..] && EncodeId(b) == "0x" + EncodeId(b)[2..];
    }
  }

  /** Byte strings of one length, as the generator draws them, have different ids. */
  lemma {:induction false} EncodeIdInjective(a: seq<Byte>, b: seq<Byte>)
    requires |a| == |b| && EncodeId(a) == EncodeId(b)
    ensures a == b
  {
    SameIdSameNumber(a, b);
    BigEndianInjective(a, b);
  }
}
