/**
 * The address arithmetic of the outbound guard (OpenWA/src/common/security/ssrf-guard.ts): IPv4 blocks, and the
 * text forms of IPv6 addresses in section 2.2 of RFC 4291.
 */
module Cidr {

  function Pow2(n: nat): (p: nat)
    ensures p >= 1
  {
    if n == 0 then 1 else 2 * Pow2(n - 1)
  }

  /** The bitwise and of the lowest `bits` bits. */
  function And(x: nat, y: nat, bits: nat): nat {
    if bits == 0 then 0 else (x % 2) * (y % 2) + 2 * And(x / 2, y / 2, bits - 1)
  }

  /** `(x << k) >>> 0` for 0 <= k < 32. */
  function ShiftLeft32(x: nat, k: nat): nat {
    (x * Pow2(k)) % Pow2(32)
  }

  function Mask(bits: nat): nat
    requires bits <= 32
  {
    if bits == 0 then 0 else ShiftLeft32(0xffff_ffff, 32 - bits)
  }

  /** inCidr4, both addresses as numbers. */
  predicate InCidr4(ip: nat, base: nat, bits: nat)
    requires bits <= 32
  {
    And(ip, Mask(bits), 32) == And(base, Mask(bits), 32)
  }

  lemma {:induction false} Pow2Grows(k: nat, n: nat)
    requires k <= n
    ensures Pow2(k) <= Pow2(n)
    decreases n - k
  {
    if k < n {
      Pow2Grows(k, n - 1);
    }
  }

  lemma Pow2At32()
    ensures Pow2(32) == 0x1_0000_0000
  {
    assert Pow2(8) == 0x100;
    assert Pow2(16) == 0x1_0000;
    assert Pow2(24) == 0x100_0000;
  }

  lemma DivModUnique(x: int, m: int, q: int, r: int)
    requires 0 <= r < m && x == q * m + r
    ensures x / m == q && x % m == r
  {
    var d := q - x / m;
    assert d * m == x % m - r;
    assert d >= 1 ==> d * m >= m;
    assert d <= -1 ==> d * m <= -m;
  }

  /** Of `n` bits, all but the lowest `k`. */
  function TopBits(k: nat, n: nat): nat
    requires k <= n
  {
    Pow2Grows(k, n);
    Pow2(n) - Pow2(k)
  }

  lemma MaskIsTopBits(bits: nat)
    requires 1 <= bits <= 32
    ensures Mask(bits) == TopBits(32 - bits, 32)
  {
    var k := 32 - bits;
    Pow2At32();
    Pow2Grows(k, 32);
    var p := Pow2(k);
    assert 0xffff_ffff * p == (p - 1) * Pow2(32) + (Pow2(32) - p);
    DivModUnique(0xffff_ffff * p, Pow2(32), p - 1, Pow2(32) - p);
  }

  lemma {:induction false} AndAllBits(x: nat, n: nat)
    requires x < Pow2(n)
    ensures And(x, Pow2(n) - 1, n) == x
  {
    if n > 0 {
      AndAllBits(x / 2, n - 1);
      assert (Pow2(n) - 1) / 2 == Pow2(n - 1) - 1;
    }
  }

  lemma ModHalf(x: nat, m: nat)
    requires m >= 1
    ensures x % (2 * m) == 2 * ((x / 2) % m) + x % 2
  {
    var h := x / 2;
    DivModUnique(x, 2 * m, h / m, 2 * (h % m) + x % 2);
  }

  lemma AndEven(x: nat, y: nat, n: nat)
    requires n > 0
    ensures And(x, 2 * y, n) == 2 * And(x / 2, y, n - 1)
  {
    var z := 2 * y;
    assert z % 2 == 0 && z / 2 == y;
    assert (x % 2) * (z % 2) == 0;
  }

  /** Masking with the top bits drops the remainder. */
  lemma {:induction false} AndTopBits(x: nat, k: nat, n: nat)
    requires k <= n && x < Pow2(n)
    ensures And(x, TopBits(k, n), n) == x - x % Pow2(k)
    decreases k
  {
    if k == 0 {
      AndAllBits(x, n);
    } else {
      AndTopBits(x / 2, k - 1, n - 1);
      ModHalf(x, Pow2(k - 1));
      AndEven(x, TopBits(k - 1, n - 1), n);
    }
  }

  lemma {:induction false} AndZero(x: nat, n: nat)
    ensures And(x, 0, n) == 0
  {
    if n > 0 {
      AndZero(x / 2, n - 1);
    }
  }

  lemma SameQuotient(x: nat, y: nat, m: nat)
    requires m >= 1
    ensures x - x % m == y - y % m <==> x / m == y / m
  {
    var a, b := x / m, y / m;
    assert x == m * a + x % m && y == m * b + y % m;
    Cancel(m, a, b);
  }

  lemma Cancel(m: int, a: int, b: int)
    requires m >= 1
    ensures m * a == m * b <==> a == b
  {
    var d := a - b;
    assert m * a - m * b == m * d;
    assert d >= 1 ==> m * d >= m;
    assert d <= -1 ==> m * d <= -m;
  }

  lemma SameBlock(x: nat, y: nat, k: nat, n: nat)
    requires k <= n && x < Pow2(n) && y < Pow2(n)
    ensures And(x, TopBits(k, n), n) == And(y, TopBits(k, n), n) <==> x / Pow2(k) == y / Pow2(k)
  {
    AndTopBits(x, k, n);
    AndTopBits(y, k, n);
    SameQuotient(x, y, Pow2(k));
  }

  lemma OneBlock(x: nat, m: nat)
    requires x < m
    ensures x / m == 0
  {
    DivModUnique(x, m, 0, x);
  }

  /** An address is in a block exactly when both have the same quotient by the size of the block. */
  lemma InCidr4IsSameBlock(ip: nat, base: nat, bits: nat)
    requires ip < Pow2(32) && base < Pow2(32) && bits <= 32
    ensures InCidr4(ip, base, bits) <==> ip / Pow2(32 - bits) == base / Pow2(32 - bits)
  {
    if bits == 0 {
      AndZero(ip, 32);
      AndZero(base, 32);
      OneBlock(ip, Pow2(32));
      OneBlock(base, Pow2(32));
    } else {
      MaskIsTopBits(bits);
      SameBlock(ip, base, 32 - bits, 32);
    }
  }
}

module IpText {
  import opened Wrappers
  import opened Strings
  import opened Cidr

  // ---- Digits ----

  predicate IsDigit(c: char) {
    '0' <= c <= '9'
  }

  predicate IsHex(c: char) {
    '0' <= c <= '9' || 'a' <= c <= 'f'
  }

  function HexOf(c: char): nat
    requires IsHex(c)
  {
    if c <= '9' then (c - '0') as int else (c - 'a') as int + 10
  }

  function HexChar(d: nat): (c: char)
    requires d < 16
    ensures IsHex(c) && HexOf(c) == d
  {
    if d < 10 then '0' + d as char else 'a' + (d - 10) as char
  }

  predicate AllHex(s: string) {
    forall i :: 0 <= i < |s| ==> IsHex(s[i])
  }

  predicate AllDigits(s: string) {
    forall i :: 0 <= i < |s| ==> IsDigit(s[i])
  }

  /** `parseInt(s, 16)`. */
  function HexValue(s: string): nat
    requires AllHex(s)
  {
    if s == "" then 0 else 16 * HexValue(s[..|s| - 1]) + HexOf(s[|s| - 1])
  }

  /** `Number(s)` of a string of digits. */
  function DecimalValue(s: string): nat
    requires AllDigits(s)
  {
    if s == "" then 0 else 10 * DecimalValue(s[..|s| - 1]) + (s[|s| - 1] - '0') as int
  }

  /** `n.toString(16)`. */
  function HexText(n: nat): (s: string)
    ensures AllHex(s) && |s| >= 1
  {
    if n < 16 then [HexChar(n)] else HexText(n / 16) + [HexChar(n % 16)]
  }

  lemma {:induction false} HexRoundTrip(n: nat)
    ensures HexValue(HexText(n)) == n
    ensures n < 0x1_0000 ==> |HexText(n)| <= 4
  {
    if n >= 16 {
      HexRoundTrip(n / 16);
      var s := HexText(n);
      assert s[..|s| - 1] == HexText(n / 16);
      HexLength(n);
    } else {
      assert HexText(n)[..0] == "";
    }
  }

  lemma HexLength(n: nat)
    ensures n < 0x1_0000 ==> |HexText(n)| <= 4
  {
    if 16 <= n < 0x1_0000 {
      assert |HexText(n)| == |HexText(n / 16)| + 1;
      if n / 16 >= 16 {
        assert |HexText(n / 16)| == |HexText(n / 16 / 16)| + 1;
        if n / 16 / 16 >= 16 {
          assert |HexText(n / 16 / 16)| == |HexText(n / 16 / 16 / 16)| + 1;
        }
      }
    }
  }

  // ---- expandIPv6 ----

  /** Four groups of one to three digits, separated by dots. */
  predicate IsDotted(t: string) {
    var p := SplitOn(t, '.');
    |p| == 4 && forall i :: 0 <= i < 4 ==> 1 <= |p[i]| <= 3 && AllDigits(p[i])
  }

  /** The leftmost match of the dotted pattern that reaches the end of `s`. */
  function DottedFrom(s: string, i: nat): (at: Option<nat>)
    requires i <= |s|
    ensures at.Some? ==> i <= at.value <= |s| && IsDotted(s[at.value..])
    decreases |s| - i
  {
    if i == |s| then None
    else if IsDotted(s[i..]) then Some(i)
    else DottedFrom(s, i + 1)
  }

  /** The dotted tail folded into two hexadecimal groups; None when an octet is too large. */
  function FoldDotted(s: string): Option<string> {
    match DottedFrom(s, 0)
    case None => Some(s)
    case Some(at) =>
      var p := SplitOn(s[at..], '.');
      var a, b, c, d := DecimalValue(p[0]), DecimalValue(p[1]), DecimalValue(p[2]), DecimalValue(p[3]);
      if a > 255 || b > 255 || c > 255 || d > 255 then None
      else Some(s[..at] + HexText(a * 256 + b) + ":" + HexText(c * 256 + d))
  }

  /** `s.split('::')`. */
  function SplitDouble(s: string): (halves: seq<string>)
    ensures |halves| >= 1
  {
    if s == "" then [""]
    else if |s| >= 2 && s[0] == ':' && s[1] == ':' then [""] + SplitDouble(s[2..])
    else
      var rest := SplitDouble(s[1..]);
      [[s[0]] + rest[0]] + rest[1..]
  }

  predicate IsGroup(h: string) {
    1 <= |h| <= 4 && AllHex(h)
  }

  predicate AllGroups(groups: seq<string>) {
    forall i :: 0 <= i < |groups| ==> IsGroup(groups[i])
  }

  function Groups(half: string): seq<string> {
    if half == "" then [] else SplitOn(half, ':')
  }

  function ZeroRun(n: nat): seq<nat> {
    seq(n, _ => 0)
  }

  function Zeros(n: nat): seq<string> {
    if n == 0 then [] else ["0"] + Zeros(n - 1)
  }

  function GroupValues(groups: seq<string>): seq<nat>
    requires AllGroups(groups)
  {
    seq(|groups|, i requires 0 <= i < |groups| && IsGroup(groups[i]) => HexValue(groups[i]))
  }

  function ExpandFolded(s: string): Option<seq<nat>> {
    Assembled(SplitDouble(s))
  }

  function Assembled(halves: seq<string>): Option<seq<nat>>
    requires |halves| >= 1
  {
    if |halves| > 2 then None
    else
      var head := Groups(halves[0]);
      var tail := if |halves| == 2 then Groups(halves[1]) else [];
      var gap := 8 - |head| - |tail|;
      if (if |halves| == 1 then |head| != 8 else gap < 1) then None
      else
        var parts := head + Zeros(if gap > 0 then gap else 0) + tail;
        if |parts| != 8 then None
        else if AllGroups(parts) then Some(GroupValues(parts))
        else None
  }

  /** expandIPv6. */
  function ExpandIPv6(s: string): Option<seq<nat>> {
    match FoldDotted(s)
    case None => None
    case Some(t) => ExpandFolded(t)
  }

  // ---- The spellings of section 2.2 of RFC 4291 ----

  /** The dotted decimal form of the last 32 bits. */
  datatype Quad = Quad(a: string, b: string, c: string, d: string) {
    predicate Legal() {
      && IsOctet(a) && IsOctet(b) && IsOctet(c) && IsOctet(d)
    }
    function Text(): string {
      a + ['.'] + (b + ['.'] + (c + ['.'] + d))
    }
    function Hextets(): seq<nat>
      requires Legal()
    {
      [DecimalValue(a) * 256 + DecimalValue(b), DecimalValue(c) * 256 + DecimalValue(d)]
    }
  }

  predicate IsOctet(s: string) {
    1 <= |s| <= 3 && AllDigits(s) && DecimalValue(s) <= 255
  }

  function Doubled(left: seq<string>, right: seq<string>): string {
    JoinWith(left, ':') + "::" + JoinWith(right, ':')
  }

  /**
   * One way of writing an address: groups, optionally "::" for a run of `gap` zero groups and more groups, and
   * optionally the last two groups in dotted decimal.
   */
  datatype Spelling = Spelling(left: seq<string>, gap: Option<nat>, right: seq<string>, quad: Option<Quad>) {
    predicate Legal() {
      && AllGroups(left) && AllGroups(right)
      && (quad.Some? ==> quad.value.Legal())
      && (gap.Some? ==> gap.value >= 1)
      && (gap.None? ==> right == [])
      && |left| + (if gap.Some? then gap.value else 0) + |right| + (if quad.Some? then 2 else 0) == 8
    }

    /** The eight numbers this text stands for. */
    function Address(): seq<nat>
      requires Legal()
    {
      GroupValues(left)
      + ZeroRun(if gap.Some? then gap.value else 0)
      + GroupValues(right)
      + (if quad.Some? then quad.value.Hextets() else [])
    }

    function Text(): string {
      var end := if quad.Some? then [quad.value.Text()] else [];
      if gap.None? then JoinWith(left + end, ':') else Doubled(left, right + end)
    }

    /** The same address with the dotted part written as two hexadecimal groups. */
    function Folded(): Spelling
      requires Legal()
    {
      if quad.None? then this
      else
        var h := quad.value.Hextets();
        var end := [HexText(h[0]), HexText(h[1])];
        if gap.None? then Spelling(left + end, None, [], None) else Spelling(left, gap, right + end, None)
    }
  }

  // ---- Groups without "::" ----

  lemma {:induction false} SplitOfJoin(groups: seq<string>, sep: char)
    requires groups != [] && forall i :: 0 <= i < |groups| ==> sep !in groups[i]
    ensures SplitOn(JoinWith(groups, sep), sep) == groups
  {
    if |groups| == 1 {
      SplitWithout(groups[0], sep);
    } else {
      SplitOfJoin(groups[1..], sep);
      SplitAt(groups[0], JoinWith(groups[1..], sep), sep);
    }
  }

  lemma GroupHasNoColon(g: string)
    requires IsGroup(g)
    ensures ':' !in g && '.' !in g && g[0] != ':' && g[|g| - 1] != ':'
  {
  }

  predicate DoubleAt(s: string, i: nat) {
    i + 1 < |s| && s[i] == ':' && s[i + 1] == ':'
  }

  ghost predicate NoDouble(s: string) {
    forall i: nat :: !DoubleAt(s, i)
  }

  /** No two colons in a row, none at either end. */
  ghost predicate Tidy(s: string) {
    && NoDouble(s)
    && (s != "" ==> s[0] != ':' && s[|s| - 1] != ':')
  }

  lemma {:induction false} JoinIsTidy(groups: seq<string>)
    requires AllGroups(groups)
    ensures Tidy(JoinWith(groups, ':')) && '.' !in JoinWith(groups, ':')
    ensures groups != [] <==> JoinWith(groups, ':') != ""
  {
    if groups != [] {
      GroupHasNoColon(groups[0]);
      if |groups| > 1 {
        var rest := JoinWith(groups[1..], ':');
        JoinIsTidy(groups[1..]);
        forall i: nat ensures !DoubleAt(JoinWith(groups, ':'), i) {
          if i > |groups[0]| {
            assert !DoubleAt(rest, i - |groups[0]| - 1);
          }
        }
      }
    }
  }

  lemma RestHasNoDouble(s: string)
    requires s != "" && NoDouble(s)
    ensures NoDouble(s[1..])
  {
    forall i: nat ensures !DoubleAt(s[1..], i) {
      assert !DoubleAt(s, i + 1);
    }
  }

  lemma {:induction false} SplitNoDouble(s: string)
    requires NoDouble(s)
    ensures SplitDouble(s) == [s]
  {
    if s != "" {
      RestHasNoDouble(s);
      assert !DoubleAt(s, 0);
      SplitNoDouble(s[1..]);
      assert [s[0]] + s[1..] == s;
    }
  }

  lemma {:induction false} SplitAtDouble(a: string, b: string)
    requires NoDouble(a)
    requires a != "" ==> a[|a| - 1] != ':'
    ensures SplitDouble(a + "::" + b) == [a] + SplitDouble(b)
  {
    var s := a + "::" + b;
    if a == "" {
      assert s[2..] == b;
    } else {
      assert s[1..] == a[1..] + "::" + b;
      RestHasNoDouble(a);
      SplitAtDouble(a[1..], b);
      assert [a[0]] + a[1..] == a;
      assert !DoubleAt(a, 0);
    }
  }

  lemma GroupsOfJoin(groups: seq<string>)
    requires AllGroups(groups)
    ensures Groups(JoinWith(groups, ':')) == groups
  {
    JoinIsTidy(groups);
    if groups != [] {
      forall i | 0 <= i < |groups| ensures ':' !in groups[i] {
        GroupHasNoColon(groups[i]);
      }
      SplitOfJoin(groups, ':');
    }
  }

  lemma {:induction false} ZerosAreZero(n: nat)
    ensures |Zeros(n)| == n && AllGroups(Zeros(n)) && GroupValues(Zeros(n)) == ZeroRun(n)
  {
    if n > 0 {
      ZerosAreZero(n - 1);
      assert HexValue("0") == 0 by {
        assert "0"[..0] == "";
      }
      forall i | 0 <= i < n ensures IsGroup(Zeros(n)[i]) && HexValue(Zeros(n)[i]) == 0 {
        if i > 0 {
          assert Zeros(n)[i] == Zeros(n - 1)[i - 1];
          assert GroupValues(Zeros(n - 1))[i - 1] == 0;
        }
      }
    }
  }

  lemma GroupValuesConcat(a: seq<string>, b: seq<string>)
    requires AllGroups(a) && AllGroups(b)
    ensures AllGroups(a + b) && GroupValues(a + b) == GroupValues(a) + GroupValues(b)
  {
    assert forall i :: 0 <= i < |a| + |b| ==> (a + b)[i] == if i < |a| then a[i] else b[i - |a|];
  }

  /** Every spelling without a dotted part is read back. */
  lemma FoldedIsRead(sp: Spelling)
    requires sp.Legal() && sp.quad.None?
    ensures ExpandFolded(sp.Text()) == Some(sp.Address())
  {
    assert sp.left + [] == sp.left && sp.right + [] == sp.right;
    if sp.gap.None? {
      PlainIsRead(sp.left);
      assert GroupValues(sp.right) == [];
      assert sp.Address() == GroupValues(sp.left);
    } else {
      DoubledIsRead(sp.left, sp.gap.value, sp.right);
      assert sp.Address() == GroupValues(sp.left) + ZeroRun(sp.gap.value) + GroupValues(sp.right);
    }
  }

  lemma PlainIsRead(groups: seq<string>)
    requires AllGroups(groups) && |groups| == 8
    ensures ExpandFolded(JoinWith(groups, ':')) == Some(GroupValues(groups))
  {
    var text := JoinWith(groups, ':');
    JoinIsTidy(groups);
    GroupsOfJoin(groups);
    SplitNoDouble(text);
    assert groups + Zeros(0) + [] == groups;
  }

  lemma DoubledIsRead(left: seq<string>, gap: nat, right: seq<string>)
    requires AllGroups(left) && AllGroups(right) && gap >= 1 && |left| + gap + |right| == 8
    ensures ExpandFolded(Doubled(left, right)) == Some(GroupValues(left) + ZeroRun(gap) + GroupValues(right))
  {
    SplitOfDoubled(left, right);
    ZerosAreZero(gap);
    GroupValuesConcat(left, Zeros(gap));
    GroupValuesConcat(left + Zeros(gap), right);
    GroupsOfJoin(left);
    GroupsOfJoin(right);
    assert Assembled([JoinWith(left, ':'), JoinWith(right, ':')]) == Some(GroupValues(left + Zeros(gap) + right));
  }

  lemma SplitOfDoubled(left: seq<string>, right: seq<string>)
    requires AllGroups(left) && AllGroups(right)
    ensures SplitDouble(Doubled(left, right)) == [JoinWith(left, ':'), JoinWith(right, ':')]
  {
    JoinIsTidy(left);
    JoinIsTidy(right);
    SplitAtDouble(JoinWith(left, ':'), JoinWith(right, ':'));
    SplitNoDouble(JoinWith(right, ':'));
  }

  lemma NoDotNoTail(s: string, i: nat)
    requires '.' !in s && i <= |s|
    ensures DottedFrom(s, i) == None
    decreases |s| - i
  {
    if i < |s| {
      SplitWithout(s[i..], '.');
      NoDotNoTail(s, i + 1);
    }
  }

  // ---- The dotted tail ----

  lemma QuadIsDotted(q: Quad)
    requires q.Legal()
    ensures SplitOn(q.Text(), '.') == [q.a, q.b, q.c, q.d] && IsDotted(q.Text())
  {
    SplitAt(q.a, q.b + ['.'] + (q.c + ['.'] + q.d), '.');
    SplitAt(q.b, q.c + ['.'] + q.d, '.');
    SplitAt(q.c, q.d, '.');
    SplitWithout(q.d, '.');
  }

  lemma {:induction false} JoinedCharacters(pieces: seq<string>, sep: char, c: char)
    requires c in JoinWith(pieces, sep)
    ensures c == sep || exists i :: 0 <= i < |pieces| && c in pieces[i]
  {
    if |pieces| > 1 && c !in pieces[0] && c != sep {
      JoinedCharacters(pieces[1..], sep, c);
      var i :| 0 <= i < |pieces[1..]| && c in pieces[1..][i];
      assert c in pieces[i + 1];
    } else if |pieces| >= 1 && c in pieces[0] {
      assert c in pieces[0];
    }
  }

  /** Only digits and dots can be part of the dotted tail. */
  lemma OtherIsNotDotted(t: string, c: char)
    requires c in t && !IsDigit(c) && c != '.'
    ensures !IsDotted(t)
  {
    JoinUndoesSplit(t, '.');
    JoinedCharacters(SplitOn(t, '.'), '.', c);
  }

  lemma {:induction false} TailIsFound(prefix: string, q: Quad, i: nat)
    requires q.Legal() && i <= |prefix|
    requires prefix != "" ==> !IsDigit(prefix[|prefix| - 1]) && prefix[|prefix| - 1] != '.'
    ensures DottedFrom(prefix + q.Text(), i) == Some(|prefix|)
    decreases |prefix| - i
  {
    var s := prefix + q.Text();
    if i == |prefix| {
      assert s[i..] == q.Text();
      QuadIsDotted(q);
    } else {
      assert s[i..][|prefix| - 1 - i] == prefix[|prefix| - 1];
      OtherIsNotDotted(s[i..], prefix[|prefix| - 1]);
      TailIsFound(prefix, q, i + 1);
    }
  }

  lemma TailIsFolded(prefix: string, q: Quad)
    requires q.Legal()
    requires prefix != "" ==> !IsDigit(prefix[|prefix| - 1]) && prefix[|prefix| - 1] != '.'
    ensures FoldDotted(prefix + q.Text())
            == Some(prefix + HexText(q.Hextets()[0]) + ":" + HexText(q.Hextets()[1]))
  {
    TailIsFound(prefix, q, 0);
    QuadIsDotted(q);
    assert (prefix + q.Text())[|prefix|..] == q.Text() && (prefix + q.Text())[..|prefix|] == prefix;
  }

  /** What stands before one more group. */
  function Lead(groups: seq<string>): string {
    if groups == [] then "" else JoinWith(groups, ':') + [':']
  }

  lemma {:induction false} JoinEnd(groups: seq<string>, last: string)
    ensures JoinWith(groups + [last], ':') == Lead(groups) + last
  {
    if groups != [] {
      assert (groups + [last])[1..] == groups[1..] + [last];
      JoinEnd(groups[1..], last);
      if |groups| == 1 {
        assert groups[1..] == [];
      }
    }
  }

  /** What stands before the dotted part. */
  function Prefix(sp: Spelling): string {
    if sp.gap.None? then Lead(sp.left) else JoinWith(sp.left, ':') + "::" + Lead(sp.right)
  }

  lemma PrefixEnds(sp: Spelling)
    ensures Prefix(sp) != "" ==> Prefix(sp)[|Prefix(sp)| - 1] == ':'
  {
    var lead := if sp.gap.None? then Lead(sp.left) else Lead(sp.right);
    assert lead != "" ==> lead[|lead| - 1] == ':';
  }

  lemma DoubledEnd(left: seq<string>, right: seq<string>, last: string)
    ensures Doubled(left, right + [last]) == JoinWith(left, ':') + "::" + Lead(right) + last
  {
    JoinEnd(right, last);
  }

  lemma TextSplits(sp: Spelling)
    requires sp.Legal() && sp.quad.Some?
    ensures sp.Text() == Prefix(sp) + sp.quad.value.Text()
  {
    if sp.gap.None? {
      JoinEnd(sp.left, sp.quad.value.Text());
    } else {
      DoubledEnd(sp.left, sp.right, sp.quad.value.Text());
    }
  }

  lemma JoinTwo(groups: seq<string>, x: string, y: string)
    ensures JoinWith(groups + [x, y], ':') == Lead(groups) + x + ":" + y
  {
    JoinEnd(groups, x);
    JoinEnd(groups + [x], y);
    assert groups + [x, y] == groups + [x] + [y];
  }

  lemma FoldedText(sp: Spelling)
    requires sp.Legal() && sp.quad.Some?
    ensures var h := sp.quad.value.Hextets();
            sp.Folded().Text() == Prefix(sp) + HexText(h[0]) + ":" + HexText(h[1])
  {
    var h := sp.quad.value.Hextets();
    var x, y := HexText(h[0]), HexText(h[1]);
    if sp.gap.None? {
      assert sp.left + [x, y] + [] == sp.left + [x, y];
      JoinTwo(sp.left, x, y);
    } else {
      assert sp.right + [x, y] + [] == sp.right + [x, y];
      DoubledTwo(sp.left, sp.right, x, y);
    }
  }

  lemma DoubledTwo(left: seq<string>, right: seq<string>, x: string, y: string)
    ensures Doubled(left, right + [x, y]) == JoinWith(left, ':') + "::" + Lead(right) + x + ":" + y
  {
    JoinTwo(right, x, y);
  }

  lemma FoldedIsTheSame(sp: Spelling)
    requires sp.Legal() && sp.quad.Some?
    ensures sp.Folded().Legal() && sp.Folded().quad.None? && sp.Folded().Address() == sp.Address()
  {
    var h := sp.quad.value.Hextets();
    HexRoundTrip(h[0]);
    HexRoundTrip(h[1]);
    var end := [HexText(h[0]), HexText(h[1])];
    assert GroupValues(end) == h;
    GroupValuesConcat(sp.left, end);
    GroupValuesConcat(sp.right, end);
    assert GroupValues([]) == [];
  }

  /**
   * For every address and every legal spelling of it (any run of zero groups compressed, leading zeros, dotted
   * decimal tail), expandIPv6 returns its eight groups.
   */
  lemma EverySpellingIsRead(sp: Spelling)
    requires sp.Legal()
    ensures ExpandIPv6(sp.Text()) == Some(sp.Address())
  {
    if sp.quad.None? {
      JoinIsTidy(sp.left);
      JoinIsTidy(sp.right);
      assert sp.left + [] == sp.left && sp.right + [] == sp.right;
      NoDotNoTail(sp.Text(), 0);
      FoldedIsRead(sp);
    } else {
      var q := sp.quad.value;
      TextSplits(sp);
      PrefixEnds(sp);
      FoldedText(sp);
      TailIsFolded(Prefix(sp), q);
      FoldedIsTheSame(sp);
      FoldedIsRead(sp.Folded());
    }
  }

  // ---- The other direction ----

  lemma {:induction false} JoinSplitDouble(s: string)
    ensures var halves := SplitDouble(s);
            && (|halves| == 1 ==> s == halves[0])
            && (|halves| == 2 ==> s == halves[0] + "::" + halves[1])
  {
    if s != "" {
      if DoubleAt(s, 0) {
        JoinSplitDouble(s[2..]);
      } else {
        JoinSplitDouble(s[1..]);
      }
    }
  }

  lemma JoinOfGroups(half: string)
    ensures JoinWith(Groups(half), ':') == half
  {
    JoinUndoesSplit(half, ':');
  }

  /** The spelling an accepted text is. */
  lemma AcceptedIsSpelled(s: string) returns (sp: Spelling)
    requires ExpandFolded(s).Some?
    ensures sp.Legal() && sp.quad.None? && sp.Text() == s
  {
    var halves := SplitDouble(s);
    JoinSplitDouble(s);
    sp := AssembledIsSpelled(halves);
    JoinOfGroups(halves[0]);
    JoinOfGroups(halves[|halves| - 1]);
    assert sp.left + [] == sp.left && sp.right + [] == sp.right;
  }

  lemma AssembledIsSpelled(halves: seq<string>) returns (sp: Spelling)
    requires |halves| >= 1 && Assembled(halves).Some?
    ensures sp.Legal() && sp.quad.None? && 1 <= |halves| <= 2 && (sp.gap.Some? <==> |halves| == 2)
    ensures sp.left == Groups(halves[0]) && (|halves| == 2 ==> sp.right == Groups(halves[1]))
  {
    var head := Groups(halves[0]);
    var tail := if |halves| == 2 then Groups(halves[1]) else [];
    var gap := 8 - |head| - |tail|;
    sp := Spelling(head, if |halves| == 2 then Some(gap) else None, tail, None);
    PartsAreGroups(head, gap, tail);
  }

  lemma PartsAreGroups(head: seq<string>, gap: nat, tail: seq<string>)
    requires AllGroups(head + Zeros(gap) + tail)
    ensures AllGroups(head) && AllGroups(tail)
  {
    var parts := head + Zeros(gap) + tail;
    forall i | 0 <= i < |head| ensures IsGroup(head[i]) {
      assert parts[i] == head[i];
    }
    forall i | 0 <= i < |tail| ensures IsGroup(tail[i]) {
      assert parts[|head| + |Zeros(gap)| + i] == tail[i];
    }
  }

  // ---- Exactly which texts are accepted ----

  /** `s` is a legal spelling of `h`. */
  ghost predicate Spells(s: string, h: seq<nat>) {
    exists sp: Spelling :: sp.Legal() && sp.Text() == s && sp.Address() == h
  }

  /** The same, with no dotted part. */
  ghost predicate SpellsPlainly(s: string, h: seq<nat>) {
    exists sp: Spelling :: sp.Legal() && sp.quad.None? && sp.Text() == s && sp.Address() == h
  }

  /** The dotted match starts inside a group: right after a hexadecimal digit. */
  predicate Glued(s: string) {
    var at := DottedFrom(s, 0);
    at.Some? && at.value > 0 && IsHex(s[at.value - 1])
  }

  lemma FoldedExactly(t: string, h: seq<nat>)
    ensures ExpandFolded(t) == Some(h) <==> SpellsPlainly(t, h)
  {
    if ExpandFolded(t) == Some(h) {
      var sp := AcceptedIsSpelled(t);
      FoldedIsRead(sp);
    }
    forall sp: Spelling | sp.Legal() && sp.quad.None? && sp.Text() == t ensures ExpandFolded(t) == Some(sp.Address()) {
      FoldedIsRead(sp);
    }
  }

  /** Every character of a spelling without a dotted part is a hexadecimal digit or a colon. */
  lemma PlainCharacters(sp: Spelling, c: char)
    requires sp.Legal() && sp.quad.None? && c in sp.Text()
    ensures IsHex(c) || c == ':'
  {
    assert sp.left + [] == sp.left && sp.right + [] == sp.right;
    if c in JoinWith(sp.left, ':') {
      GroupCharacters(sp.left, c);
    } else if c in JoinWith(sp.right, ':') {
      GroupCharacters(sp.right, c);
    }
  }

  lemma GroupCharacters(groups: seq<string>, c: char)
    requires AllGroups(groups) && c in JoinWith(groups, ':')
    ensures IsHex(c) || c == ':'
  {
    JoinedCharacters(groups, ':', c);
  }

  /** The dotted tail as the four octets it is. */
  lemma TailIsQuad(t: string) returns (q: Quad)
    requires IsDotted(t)
    ensures q.Text() == t && SplitOn(t, '.') == [q.a, q.b, q.c, q.d]
    ensures AllDigits(q.a) && AllDigits(q.b) && AllDigits(q.c) && AllDigits(q.d)
    ensures q.Legal() <==> DecimalValue(q.a) <= 255 && DecimalValue(q.b) <= 255 && DecimalValue(q.c) <= 255
                           && DecimalValue(q.d) <= 255
  {
    var p := SplitOn(t, '.');
    q := Quad(p[0], p[1], p[2], p[3]);
    assert p == [q.a, q.b, q.c, q.d];
    JoinUndoesSplit(t, '.');
    JoinFour(q);
  }

  lemma JoinFour(q: Quad)
    ensures JoinWith([q.a, q.b, q.c, q.d], '.') == q.Text()
  {
    assert [q.a, q.b, q.c, q.d][1..] == [q.b, q.c, q.d];
    assert [q.b, q.c, q.d][1..] == [q.c, q.d];
    assert [q.c, q.d][1..] == [q.d];
    assert JoinWith([q.c, q.d], '.') == q.c + ['.'] + q.d;
    assert JoinWith([q.b, q.c, q.d], '.') == q.b + ['.'] + (q.c + ['.'] + q.d);
  }

  /** What stands after the last colon is determined by the text. */
  lemma SameTail(a: string, x: string, b: string, y: string)
    requires a + x == b + y && ':' !in x && ':' !in y
    requires (a != "" ==> a[|a| - 1] == ':') && (b != "" ==> b[|b| - 1] == ':')
    ensures a == b && x == y
  {
    TailAt(a, x);
    TailAt(b, y);
    var s := a + x;
    assert a == s[..|a|] && b == s[..|b|] && x == s[|a|..] && y == s[|b|..];
  }

  lemma TailAt(a: string, x: string)
    requires ':' !in x && (a != "" ==> a[|a| - 1] == ':')
    ensures LastIndexOf(a + x, ':') == if a == "" then None else Some(|a| - 1)
  {
    var s := a + x;
    if a == "" {
      assert s == x;
    } else {
      assert s[|a|..] == x;
      LastIndexOfLast(s, ':', |a| - 1);
    }
  }

  lemma SameTwo(a: string, u: string, v: string, b: string, x: string, y: string)
    requires a + u + ":" + v == b + x + ":" + y && ':' !in u && ':' !in v && ':' !in x && ':' !in y
    requires (a != "" ==> a[|a| - 1] == ':') && (b != "" ==> b[|b| - 1] == ':')
    ensures a == b
  {
    SameTail(a + u + ":", v, b + x + ":", y);
    assert (a + u + ":")[..|a + u|] == a + u && (b + x + ":")[..|b + x|] == b + x;
    SameTail(a, u, b, x);
  }

  /** A text that folds into two last groups after a colon or at its very start is that spelling with a dotted part. */
  lemma UnfoldedSpelling(prefix: string, q: Quad, plain: Spelling) returns (sp: Spelling)
    requires q.Legal() && plain.Legal() && plain.quad.None?
    requires prefix != "" ==> prefix[|prefix| - 1] == ':'
    requires plain.Text() == prefix + HexText(q.Hextets()[0]) + ":" + HexText(q.Hextets()[1])
    ensures sp.Legal() && sp.Text() == prefix + q.Text()
  {
    var x, y := HexText(q.Hextets()[0]), HexText(q.Hextets()[1]);
    TwoLastGroups(plain, prefix, x, y);
    var groups := if plain.gap.None? then plain.left else plain.right;
    var n := |groups| - 2;
    sp := if plain.gap.None? then Spelling(groups[..n], None, [], Some(q))
          else Spelling(plain.left, plain.gap, groups[..n], Some(q));
    TextSplits(sp);
  }

  lemma TwoLastGroups(plain: Spelling, prefix: string, x: string, y: string)
    requires plain.Legal() && plain.quad.None? && AllHex(x) && AllHex(y) && x != "" && y != ""
    requires prefix != "" ==> prefix[|prefix| - 1] == ':'
    requires plain.Text() == prefix + x + ":" + y
    ensures var groups := if plain.gap.None? then plain.left else plain.right;
            |groups| >= 2 &&
            prefix == Prefix(if plain.gap.None? then Spelling(groups[..|groups| - 2], None, [], None)
                             else Spelling(plain.left, plain.gap, groups[..|groups| - 2], None))
  {
    if plain.gap.None? {
      assert plain.left + [] == plain.left;
      LastTwoOf(plain.left, "", prefix, x, y);
    } else {
      assert plain.right + [] == plain.right;
      RightHasTwo(plain.left, plain.right, prefix, x, y);
      LastTwoOf(plain.right, JoinWith(plain.left, ':') + "::", prefix, x, y);
    }
  }

  lemma LastTwoOf(groups: seq<string>, before: string, prefix: string, x: string, y: string)
    requires |groups| >= 2 && AllGroups(groups) && AllHex(x) && AllHex(y)
    requires (prefix != "" ==> prefix[|prefix| - 1] == ':') && (before != "" ==> before[|before| - 1] == ':')
    requires before + JoinWith(groups, ':') == prefix + x + ":" + y
    ensures prefix == before + Lead(groups[..|groups| - 2])
  {
    var n := |groups| - 2;
    var u, v := groups[n], groups[n + 1];
    assert groups == groups[..n] + [u, v];
    LastTwo(groups[..n], u, v, before, prefix, x, y);
  }

  lemma LastTwo(init: seq<string>, u: string, v: string, before: string, prefix: string, x: string, y: string)
    requires IsGroup(u) && IsGroup(v) && AllHex(x) && AllHex(y)
    requires (prefix != "" ==> prefix[|prefix| - 1] == ':') && (before != "" ==> before[|before| - 1] == ':')
    requires before + JoinWith(init + [u, v], ':') == prefix + x + ":" + y
    ensures prefix == before + Lead(init)
  {
    JoinTwo(init, u, v);
    GroupHasNoColon(u);
    GroupHasNoColon(v);
    LeadEnds(init);
    SamePrefix(before, Lead(init), u, v, prefix, x, y);
  }

  lemma LeadEnds(groups: seq<string>)
    ensures Lead(groups) != "" ==> Lead(groups)[|Lead(groups)| - 1] == ':'
  {
  }

  lemma SamePrefix(before: string, lead: string, u: string, v: string, prefix: string, x: string, y: string)
    requires before + (lead + u + ":" + v) == prefix + x + ":" + y
    requires ':' !in u && ':' !in v && ':' !in x && ':' !in y
    requires (before != "" ==> before[|before| - 1] == ':') && (lead != "" ==> lead[|lead| - 1] == ':')
    requires prefix != "" ==> prefix[|prefix| - 1] == ':'
    ensures prefix == before + lead
  {
    assert before + (lead + u + ":" + v) == (before + lead) + u + ":" + v;
    SameTwo(before + lead, u, v, prefix, x, y);
  }

  lemma RightHasTwo(left: seq<string>, right: seq<string>, prefix: string, x: string, y: string)
    requires AllGroups(left) && AllGroups(right) && AllHex(x) && AllHex(y) && x != "" && y != ""
    requires Doubled(left, right) == prefix + x + ":" + y
    ensures |right| >= 2
  {
    var before, after := JoinWith(left, ':') + "::", prefix + x + ":";
    TailAt(after, y);
    assert after[|after| - 2] == x[|x| - 1] && before[|before| - 2] == before[|before| - 1] == ':';
    if |right| < 2 {
      var last := JoinWith(right, ':');
      if right != [] {
        GroupHasNoColon(right[0]);
      }
      SameTail(before, last, after, y);
    }
  }

  /** Where the dotted match does not start inside a group, what is accepted is a legal spelling. */
  lemma AcceptedUnglued(s: string) returns (sp: Spelling)
    requires ExpandIPv6(s).Some? && !Glued(s)
    ensures sp.Legal() && sp.Text() == s
  {
    var at := DottedFrom(s, 0);
    var t := FoldDotted(s).value;
    sp := AcceptedIsSpelled(t);
    if at.Some? {
      var q := FoldedQuad(s);
      sp := Unglued(s[..at.value], q, sp);
    }
  }

  lemma Unglued(prefix: string, q: Quad, plain: Spelling) returns (sp: Spelling)
    requires q.Legal() && plain.Legal() && plain.quad.None?
    requires prefix != "" ==> !IsHex(prefix[|prefix| - 1])
    requires plain.Text() == prefix + HexText(q.Hextets()[0]) + ":" + HexText(q.Hextets()[1])
    ensures sp.Legal() && sp.Text() == prefix + q.Text()
  {
    var x, y := HexText(q.Hextets()[0]), HexText(q.Hextets()[1]);
    assert prefix + x + ":" + y == prefix + (x + ":" + y);
    EndsInColon(plain, prefix, x + ":" + y);
    sp := UnfoldedSpelling(prefix, q, plain);
  }

  lemma FoldedQuad(s: string) returns (q: Quad)
    requires DottedFrom(s, 0).Some? && FoldDotted(s).Some?
    ensures var prefix := s[..DottedFrom(s, 0).value];
            && q.Legal() && s == prefix + q.Text()
            && FoldDotted(s).value == prefix + HexText(q.Hextets()[0]) + ":" + HexText(q.Hextets()[1])
  {
    var at := DottedFrom(s, 0).value;
    q := TailIsQuad(s[at..]);
    var p := SplitOn(s[at..], '.');
    assert p[0] == q.a && p[1] == q.b && p[2] == q.c && p[3] == q.d;
    assert s == s[..at] + s[at..];
  }

  lemma EndsInColon(sp: Spelling, prefix: string, rest: string)
    requires sp.Legal() && sp.quad.None? && sp.Text() == prefix + rest
    requires prefix != "" ==> !IsHex(prefix[|prefix| - 1])
    ensures prefix != "" ==> prefix[|prefix| - 1] == ':'
  {
    if prefix != "" {
      var c := prefix[|prefix| - 1];
      assert sp.Text()[|prefix| - 1] == c;
      PlainCharacters(sp, c);
    }
  }

  /** The dotted part of a legal spelling starts a group. */
  lemma SpellingIsUnglued(sp: Spelling)
    requires sp.Legal()
    ensures !Glued(sp.Text())
  {
    if sp.quad.None? {
      assert sp.left + [] == sp.left && sp.right + [] == sp.right;
      JoinIsTidy(sp.left);
      JoinIsTidy(sp.right);
      NoDotNoTail(sp.Text(), 0);
    } else {
      TextSplits(sp);
      PrefixEnds(sp);
      TailIsFound(Prefix(sp), sp.quad.value, 0);
    }
  }

  /**
   * For every text: unless the dotted match starts inside a group, expandIPv6 returns eight groups exactly for a
   * legal spelling of them and null for anything else.  If it does, the text is no spelling of any address, and it is
   * accepted exactly when the folded text is a spelling.
   */
  lemma AcceptedExactlyWhenSpelled(s: string, h: seq<nat>)
    ensures !Glued(s) ==> (ExpandIPv6(s) == Some(h) <==> Spells(s, h))
    ensures Glued(s) ==> !Spells(s, h)
    ensures Glued(s) ==> (ExpandIPv6(s) == Some(h) <==> FoldDotted(s).Some? && SpellsPlainly(FoldDotted(s).value, h))
  {
    forall sp: Spelling | sp.Legal() && sp.Text() == s ensures ExpandIPv6(s) == Some(sp.Address()) && !Glued(s) {
      EverySpellingIsRead(sp);
      SpellingIsUnglued(sp);
    }
    if FoldDotted(s).Some? {
      FoldedExactly(FoldDotted(s).value, h);
    }
    if ExpandIPv6(s) == Some(h) && !Glued(s) {
      var sp := AcceptedUnglued(s);
    }
  }

  /** Null for every malformed text, except for a glued one whose folded text is a spelling. */
  lemma NullUnlessSpelled(s: string)
    ensures (ExpandIPv6(s).Some? ==> exists h :: Spells(s, h))
       <==> !(Glued(s) && FoldDotted(s).Some? && exists h :: SpellsPlainly(FoldDotted(s).value, h))
  {
    forall h
      ensures ExpandIPv6(s) == Some(h) ==> if Glued(s) then SpellsPlainly(FoldDotted(s).value, h) else Spells(s, h)
    {
      AcceptedExactlyWhenSpelled(s, h);
    }
    forall h ensures Glued(s) ==> !Spells(s, h) {
      AcceptedExactlyWhenSpelled(s, h);
    }
    forall h
      ensures Glued(s) && FoldDotted(s).Some? && SpellsPlainly(FoldDotted(s).value, h) ==> ExpandIPv6(s) == Some(h)
    {
      AcceptedExactlyWhenSpelled(s, h);
    }
  }

  /** A dotted tail right after one more digit, whose first octet already has three. */
  lemma {:induction false} TailInsideDigits(prefix: string, g: char, q: Quad, i: nat)
    requires q.Legal() && |q.a| == 3 && IsDigit(g) && i <= |prefix| && prefix != "" && prefix[|prefix| - 1] == ':'
    ensures DottedFrom(prefix + [g] + q.Text(), i) == Some(|prefix| + 1)
    decreases |prefix| - i
  {
    var s := prefix + [g] + q.Text();
    if i == |prefix| {
      assert s[i..] == [g] + q.Text() && s[i + 1..] == q.Text();
      LongGroupIsNotDotted(g, q);
      QuadIsDotted(q);
    } else {
      assert s[i..][|prefix| - 1 - i] == ':';
      OtherIsNotDotted(s[i..], ':');
      TailInsideDigits(prefix, g, q, i + 1);
    }
  }

  lemma LongGroupIsNotDotted(g: char, q: Quad)
    requires q.Legal() && |q.a| == 3 && IsDigit(g)
    ensures !IsDotted([g] + q.Text())
  {
    var rest := q.b + ['.'] + (q.c + ['.'] + q.d);
    assert [g] + q.Text() == ([g] + q.a) + ['.'] + rest;
    SplitAt([g] + q.a, rest, '.');
    assert SplitOn([g] + q.Text(), '.')[0] == [g] + q.a;
  }

  lemma ReadsTwoGroups(x: string, y: string)
    requires IsGroup(x) && IsGroup(y)
    ensures ExpandFolded("::" + x + ":" + y) == Some(ZeroRun(6) + [HexValue(x), HexValue(y)])
  {
    DoubledIsRead([], 6, [x, y]);
    TwoGroupsText(x, y);
    assert GroupValues([x, y]) == [HexValue(x), HexValue(y)] && GroupValues([]) == [];
    assert [] + ZeroRun(6) + [HexValue(x), HexValue(y)] == ZeroRun(6) + [HexValue(x), HexValue(y)];
  }

  lemma TwoGroupsText(x: string, y: string)
    ensures Doubled([], [x, y]) == "::" + x + ":" + y
  {
    DoubledTwo([], [], x, y);
    assert [] + [x, y] == [x, y];
    assert Lead([]) == "" && JoinWith([], ':') == "";
  }

  /** "::", one hexadecimal digit `g`, and a dotted tail right after it. */
  function GluedText(g: char, q: Quad): string {
    "::" + [g] + q.Text()
  }

  lemma GluedIsFolded(g: char, q: Quad)
    requires IsHex(g) && q.Legal() && (IsDigit(g) ==> |q.a| == 3)
    ensures Glued(GluedText(g, q))
    ensures FoldDotted(GluedText(g, q)) == Some("::" + ([g] + HexText(q.Hextets()[0])) + ":" + HexText(q.Hextets()[1]))
  {
    var s := GluedText(g, q);
    if IsDigit(g) {
      TailInsideDigits("::", g, q, 0);
    } else {
      TailIsFound("::" + [g], q, 0);
    }
    assert s[3..] == q.Text() && s[..3] == "::" + [g];
    QuadIsDotted(q);
    assert "::" + [g] + HexText(q.Hextets()[0]) == "::" + ([g] + HexText(q.Hextets()[0]));
  }

  /**
   * A whole family of texts that spell no address and are accepted: the digit before the tail and the tail's first two
   * octets are read as one group.
   */
  lemma GluedTailIsAccepted(g: char, q: Quad, h: seq<nat>)
    requires IsHex(g) && q.Legal() && (IsDigit(g) ==> |q.a| == 3) && |HexText(q.Hextets()[0])| <= 3
    ensures !Spells(GluedText(g, q), h)
    ensures ExpandIPv6(GluedText(g, q)) == Some(ZeroRun(6) + [HexValue([g] + HexText(q.Hextets()[0])), q.Hextets()[1]])
  {
    GluedIsFolded(g, q);
    AcceptedExactlyWhenSpelled(GluedText(g, q), h);
    HexRoundTrip(q.Hextets()[1]);
    ReadsTwoGroups([g] + HexText(q.Hextets()[0]), HexText(q.Hextets()[1]));
  }

  /** The text "::1001.0.0.0" is read as ::1100:0. */
  lemma GluedExample(h: seq<nat>)
    ensures GluedText('1', Quad("001", "0", "0", "0")) == "::1001.0.0.0"
    ensures !Spells("::1001.0.0.0", h) && ExpandIPv6("::1001.0.0.0") == Some(ZeroRun(6) + [0x1100, 0])
  {
    var q := Quad("001", "0", "0", "0");
    assert GluedText('1', q) == "::1001.0.0.0";
    ExampleValues();
    GluedTailIsAccepted('1', q, h);
  }

  lemma HexStep(s: string, c: char)
    requires AllHex(s) && IsHex(c)
    ensures AllHex(s + [c]) && HexValue(s + [c]) == 16 * HexValue(s) + HexOf(c)
  {
    assert (s + [c])[..|s|] == s;
  }

  lemma DecimalStep(s: string, c: char)
    requires AllDigits(s) && IsDigit(c)
    ensures AllDigits(s + [c]) && DecimalValue(s + [c]) == 10 * DecimalValue(s) + (c - '0') as int
  {
    assert (s + [c])[..|s|] == s;
  }

  lemma ExampleOctets()
    ensures IsOctet("0") && IsOctet("001") && DecimalValue("0") == 0 && DecimalValue("001") == 1
  {
    DecimalStep("", '0');
    DecimalStep("0", '0');
    DecimalStep("00", '1');
    assert "" + ['0'] == "0" && "0" + ['0'] == "00" && "00" + ['1'] == "001";
  }

  lemma ExampleHex()
    ensures HexText(256) == "100" && HexValue(['1'] + "100") == 0x1100
  {
    assert HexText(16) == "10";
    HexStep("", '1');
    HexStep("1", '1');
    HexStep("11", '0');
    HexStep("110", '0');
    assert "" + ['1'] == "1" && "1" + ['1'] == "11" && "11" + ['0'] == "110" && "110" + ['0'] == ['1'] + "100";
  }

  lemma ExampleValues()
    ensures Quad("001", "0", "0", "0").Legal() && Quad("001", "0", "0", "0").Hextets() == [256, 0]
    ensures HexText(256) == "100" && HexValue(['1'] + "100") == 0x1100
  {
    ExampleOctets();
    ExampleHex();
  }

  // ---- ipv4ToInt, inCidr4 and hextetsToV4 ----

  function DecimalText(n: nat): (s: string)
    ensures AllDigits(s) && |s| >= 1
  {
    if n < 10 then ['0' + n as char] else DecimalText(n / 10) + ['0' + (n % 10) as char]
  }

  lemma {:induction false} DecimalRoundTrip(n: nat)
    ensures DecimalValue(DecimalText(n)) == n
  {
    if n >= 10 {
      DecimalRoundTrip(n / 10);
      var s := DecimalText(n);
      assert s[..|s| - 1] == DecimalText(n / 10);
    } else {
      assert DecimalText(n)[..0] == "";
    }
  }

  /** `reduce((acc, octet) => acc * 256 + octet)`. */
  function FoldOctets(octets: seq<nat>, acc: nat): nat
    decreases |octets|
  {
    if octets == [] then acc else FoldOctets(octets[1..], acc * 256 + octets[0])
  }

  predicate DottedDigits(ip: string) {
    forall i :: 0 <= i < |SplitOn(ip, '.')| ==> AllDigits(SplitOn(ip, '.')[i])
  }

  /** ipv4ToInt, on the texts isIPv4 lets through. */
  function Ipv4ToInt(ip: string): nat
    requires DottedDigits(ip)
  {
    var p := SplitOn(ip, '.');
    FoldOctets(seq(|p|, i requires 0 <= i < |p| && AllDigits(p[i]) => DecimalValue(p[i])), 0)
  }

  /** hextetsToV4. */
  function HextetsToV4(hi: nat, lo: nat): Quad {
    Quad(DecimalText(hi / 256 % 256), DecimalText(hi % 256), DecimalText(lo / 256 % 256), DecimalText(lo % 256))
  }

  lemma SmallDecimal(n: nat)
    requires n < 1000
    ensures |DecimalText(n)| <= 3
  {
    if n >= 10 {
      assert |DecimalText(n)| == |DecimalText(n / 10)| + 1;
      if n / 10 >= 10 {
        assert |DecimalText(n / 10)| == |DecimalText(n / 10 / 10)| + 1;
      }
    }
  }

  /** The IPv4 address embedded in two groups reads back as their 32-bit number, and as a dotted tail as themselves. */
  lemma EmbeddedV4(hi: nat, lo: nat)
    requires hi < 0x1_0000 && lo < 0x1_0000
    ensures var q := HextetsToV4(hi, lo);
            && q.Legal() && q.Hextets() == [hi, lo]
            && DottedDigits(q.Text()) && Ipv4ToInt(q.Text()) == hi * 0x1_0000 + lo
  {
    var q := HextetsToV4(hi, lo);
    var a, b, c, d := hi / 256 % 256, hi % 256, lo / 256 % 256, lo % 256;
    DecimalRoundTrip(a);
    DecimalRoundTrip(b);
    DecimalRoundTrip(c);
    DecimalRoundTrip(d);
    SmallDecimal(a);
    SmallDecimal(b);
    SmallDecimal(c);
    SmallDecimal(d);
    QuadIsDotted(q);
    FourOctets(q, a, b, c, d);
  }

  lemma FourOctets(q: Quad, a: nat, b: nat, c: nat, d: nat)
    requires SplitOn(q.Text(), '.') == [q.a, q.b, q.c, q.d]
    requires AllDigits(q.a) && AllDigits(q.b) && AllDigits(q.c) && AllDigits(q.d)
    requires DecimalValue(q.a) == a && DecimalValue(q.b) == b && DecimalValue(q.c) == c && DecimalValue(q.d) == d
    ensures DottedDigits(q.Text()) && Ipv4ToInt(q.Text()) == ((a * 256 + b) * 256 + c) * 256 + d
  {
    var p := SplitOn(q.Text(), '.');
    assert seq(|p|, i requires 0 <= i < |p| && AllDigits(p[i]) => DecimalValue(p[i])) == [a, b, c, d];
    FoldFour(a, b, c, d);
  }

  lemma FoldFour(a: nat, b: nat, c: nat, d: nat)
    ensures FoldOctets([a, b, c, d], 0) == ((a * 256 + b) * 256 + c) * 256 + d
  {
    assert [a, b, c, d][1..] == [b, c, d] && [b, c, d][1..] == [c, d] && [c, d][1..] == [d] && [d][1..] == [];
    assert FoldOctets([a, b, c, d], 0) == FoldOctets([b, c, d], a);
    assert FoldOctets([b, c, d], a) == FoldOctets([c, d], a * 256 + b);
    assert FoldOctets([c, d], a * 256 + b) == FoldOctets([d], (a * 256 + b) * 256 + c);
  }

  lemma LegalNumber(q: Quad)
    requires q.Legal()
    ensures DottedDigits(q.Text()) && Ipv4ToInt(q.Text()) == q.Hextets()[0] * 0x1_0000 + q.Hextets()[1] < Pow2(32)
  {
    QuadIsDotted(q);
    FourOctets(q, DecimalValue(q.a), DecimalValue(q.b), DecimalValue(q.c), DecimalValue(q.d));
    Pow2At32();
  }

  /** inCidr4 on dotted texts: in the block exactly when the two numbers have the same quotient. */
  lemma InBlockExactly(ip: Quad, base: Quad, bits: nat)
    requires ip.Legal() && base.Legal() && bits <= 32
    ensures DottedDigits(ip.Text()) && DottedDigits(base.Text())
    ensures var m, n := Ipv4ToInt(ip.Text()), Ipv4ToInt(base.Text());
            InCidr4(m, n, bits) <==> m / Pow2(32 - bits) == n / Pow2(32 - bits)
  {
    LegalNumber(ip);
    LegalNumber(base);
    InCidr4IsSameBlock(Ipv4ToInt(ip.Text()), Ipv4ToInt(base.Text()), bits);
  }
}
