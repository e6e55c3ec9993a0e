/** Monotone reservation of version 7 UUIDs (web/sync-storage-uuid.js; sections 5.7 and 6.2 of
    RFC 9562). The 74 random bits count up while the clock stands still or runs backwards. */
module Uuid7 {
  import opened Wire
  import opened Sequences
  import opened Strings

  const MAX_TIMESTAMP := 0xFFFF_FFFF_FFFF
  const RANDOM_MAX := 0x3FF_FFFF_FFFF_FFFF_FFFF
  const TWO_62 := 0x4000_0000_0000_0000
  const TWO_64 := 0x1_0000_0000_0000_0000
  const TWO_60 := 0x1000_0000_0000_0000
  const ATTEMPTS := 16

  // ---------------------------------------------------------------- the 128-bit integer

  /** timestamp (48 bits), version 7 (4), 12 random bits, variant 10 (2), 62 random bits. */
  function Compose(timestamp: int, random: int): int {
    ((timestamp * 16 + 7) * 4096 + random / TWO_62) * TWO_64 + (2 * TWO_62 + random % TWO_62)
  }

  predicate InRange(timestamp: int, random: int) {
    0 <= timestamp <= MAX_TIMESTAMP && 0 <= random <= RANDOM_MAX
  }

  /** Later time, or the same time with a larger random value, is a larger integer. */
  lemma ComposeIsMonotone(t: int, r: int, u: int, s: int)
    requires InRange(t, r) && InRange(u, s)
    ensures Compose(t, r) < Compose(u, s) <==> t < u || (t == u && r < s)
  {
    assert 0 <= r / TWO_62 < 4096 && 0 <= s / TWO_62 < 4096;
    assert r == r / TWO_62 * TWO_62 + r % TWO_62 && s == s / TWO_62 * TWO_62 + s % TWO_62;
  }

  // ---------------------------------------------------------------- hexadecimal text

  function Pow16(n: nat): (p: int)
    ensures 1 <= p
  {
    if n == 0 then 1 else 16 * Pow16(n - 1)
  }

  lemma Powers()
    ensures Pow16(1) == 16 && Pow16(3) == 4096 && Pow16(15) == TWO_60 && Pow16(16) == TWO_64
        && Pow16(12) == MAX_TIMESTAMP + 1
  {
    assert Pow16(4) == 65536;
    assert Pow16(8) == 65536 * 65536;
    assert Pow16(12) == 65536 * 65536 * 65536;
  }

  predicate IsHex(c: char) { '0' <= c <= '9' || 'a' <= c <= 'f' || 'A' <= c <= 'F' }

  function DigitValue(c: char): (n: int)
    requires IsHex(c)
    ensures 0 <= n < 16
  {
    if '0' <= c <= '9' then c as int - '0' as int
    else if 'a' <= c <= 'f' then c as int - 'a' as int + 10
    else c as int - 'A' as int + 10
  }

  function LowerChar(c: char): char {
    if 'A' <= c <= 'F' then (c as int + 32) as char else c
  }

  function Lower(s: string): (r: string)
    ensures |r| == |s| && forall i :: 0 <= i < |s| ==> r[i] == LowerChar(s[i])
  {
    seq(|s|, i requires 0 <= i < |s| => LowerChar(s[i]))
  }

  /** The lowest `width` hexadecimal digits, most significant first. */
  function Hex(n: int, width: nat): (s: string)
    requires 0 <= n
    ensures |s| == width
  {
    if width == 0 then [] else Hex(n / 16, width - 1) + [HexDigit(n % 16)]
  }

  predicate AllHex(s: string) {
    forall i :: 0 <= i < |s| ==> IsHex(s[i])
  }

  function Value(s: string): (n: int)
    requires AllHex(s)
    ensures 0 <= n
  {
    if s == [] then 0 else Value(s[..|s| - 1]) * 16 + DigitValue(s[|s| - 1])
  }

  lemma {:induction false} ValueBound(s: string)
    requires AllHex(s)
    ensures Value(s) < Pow16(|s|)
  {
    if s != [] {
      ValueBound(s[..|s| - 1]);
    }
  }

  lemma ValueSnoc(s: string, c: char)
    requires AllHex(s) && IsHex(c)
    ensures AllHex(s + [c]) && Value(s + [c]) == Value(s) * 16 + DigitValue(c)
  {
    hide DigitValue;
    assert (s + [c])[..|s|] == s && (s + [c])[|s|] == c;
  }

  lemma Horner(x: int, p: int, v: int, d: int)
    ensures (x * p + v) * 16 + d == x * (16 * p) + (v * 16 + d)
  {
    assert x * (16 * p) == (x * p) * 16;
  }

  lemma {:induction false} ValueSplits(a: string, b: string)
    requires AllHex(a) && AllHex(b)
    ensures AllHex(a + b) && Value(a + b) == Value(a) * Pow16(|b|) + Value(b)
  {
    hide DigitValue, Value, IsHex;
    if b == [] {
      assert a + b == a;
      assert Value(b) == 0 by { ValueEmpty(); }
    } else {
      var front, last := b[..|b| - 1], b[|b| - 1];
      ValueSplits(a, front);
      ValueSnoc(a + front, last);
      ValueSnoc(front, last);
      assert a + b == a + front + [last] && b == front + [last];
      Horner(Value(a), Pow16(|front|), Value(front), DigitValue(last));
    }
  }

  lemma ValueEmpty()
    ensures Value([]) == 0
  {
  }

  /** Printing and reading hexadecimal are inverse, up to the case of letters. */
  lemma {:induction false} HexOfValue(s: string)
    requires AllHex(s)
    ensures Hex(Value(s), |s|) == Lower(s)
  {
    if s != [] {
      var front, last := s[..|s| - 1], s[|s| - 1];
      assert s == front + [last];
      HexOfValue(front);
      HexStep(front, last);
    }
  }

  lemma HexStep(front: string, last: char)
    requires AllHex(front) && IsHex(last) && Hex(Value(front), |front|) == Lower(front)
    ensures AllHex(front + [last]) && Hex(Value(front + [last]), |front| + 1) == Lower(front + [last])
  {
    hide *;
    LowerDigit(last);
    ValueSnoc(front, last);
    LowerSnoc(front, last);
    HexUnfold(Value(front + [last]), |front| + 1);
    DivideBySixteen(Value(front), DigitValue(last));
  }

  lemma DivideBySixteen(v: int, d: int)
    requires 0 <= d < 16
    ensures (v * 16 + d) / 16 == v && (v * 16 + d) % 16 == d
  {
  }

  lemma LowerSnoc(front: string, last: char)
    ensures Lower(front + [last]) == Lower(front) + [LowerChar(last)]
  {
  }

  lemma HexUnfold(n: int, width: nat)
    requires 0 <= n && width > 0
    ensures Hex(n, width) == Hex(n / 16, width - 1) + [HexDigit(n % 16)]
  {
  }

  lemma LowerDigit(c: char)
    requires IsHex(c)
    ensures HexDigit(DigitValue(c)) == LowerChar(c)
  {
  }

  lemma {:induction false} ValueOfHex(n: int, width: nat)
    requires 0 <= n < Pow16(width)
    ensures AllHex(Hex(n, width)) && Value(Hex(n, width)) == n
  {
    hide Value, DigitValue, IsHex;
    if width == 0 {
      ValueEmpty();
    } else {
      ValueOfHex(n / 16, width - 1);
      DigitRoundTrip(n % 16);
      ValueSnoc(Hex(n / 16, width - 1), HexDigit(n % 16));
    }
  }

  lemma DigitRoundTrip(n: int)
    requires 0 <= n < 16
    ensures IsHex(HexDigit(n)) && DigitValue(HexDigit(n)) == n
  {
  }

  // ---------------------------------------------------------------- text form

  /** 8-4-4-4-12 */
  function Dashed(h: string): (s: string)
    requires |h| == 32
    ensures |s| == 36
  {
    h[..8] + ['-'] + h[8..12] + ['-'] + h[12..16] + ['-'] + h[16..20] + ['-'] + h[20..]
  }

  function Undashed(s: string): (h: string)
    requires |s| == 36
    ensures |h| == 32
  {
    s[..8] + s[9..13] + s[14..18] + s[19..23] + s[24..]
  }

  /** The shape that `parts` accepts: lower or upper case, version 7, variant 10. */
  predicate IsUuid7(s: string) {
    && |s| == 36 && s[8] == '-' && s[13] == '-' && s[18] == '-' && s[23] == '-'
    && AllHex(Undashed(s)) && s[14] == '7' && s[19] in "89abAB"
  }

  lemma DashRoundTrip(s: string, h: string)
    ensures |h| == 32 ==> Undashed(Dashed(h)) == h
    ensures IsUuid7(s) ==> Dashed(Undashed(s)) == s
  {
    if |h| == 32 { UndashDashed(h); }
    if IsUuid7(s) { DashUndashed(s); }
  }

  lemma UndashDashed(h: string)
    requires |h| == 32
    ensures Undashed(Dashed(h)) == h
  {
    var s := Dashed(h);
    assert s[..8] == h[..8] && s[9..13] == h[8..12] && s[14..18] == h[12..16] && s[19..23] == h[16..20]
        && s[24..] == h[20..];
    assert h[..8] + h[8..12] == h[..12] && h[..12] + h[12..16] == h[..16] && h[..16] + h[16..20] == h[..20]
        && h[..20] + h[20..] == h;
  }

  lemma DashUndashed(s: string)
    requires |s| == 36 && s[8] == '-' && s[13] == '-' && s[18] == '-' && s[23] == '-'
    ensures Dashed(Undashed(s)) == s
  {
    var h := Undashed(s);
    assert h[..8] == s[..8] && h[8..12] == s[9..13] && h[12..16] == s[14..18] && h[16..20] == s[19..23]
        && h[20..] == s[24..];
    assert s[..8] + ['-'] == s[..9] && s[..9] + s[9..13] == s[..13] && s[..13] + ['-'] == s[..14]
        && s[..14] + s[14..18] == s[..18];
    assert s[..18] + ['-'] == s[..19] && s[..19] + s[19..23] == s[..23] && s[..23] + ['-'] == s[..24]
        && s[..24] + s[24..] == s;
  }

  /** fromParts */
  function FromParts(timestamp: int, random: int): Result<string, ()> {
    if InRange(timestamp, random) then Success(Dashed(Hex(Compose(timestamp, random), 32))) else Failure(())
  }

  datatype Parts = Parts(integer: int, timestamp: int, random: int)

  /** parts */
  function ToParts(s: string): Option<Parts> {
    if !IsUuid7(s) then None
    else
      var n := Value(Undashed(s));
      Some(Parts(n, n / 0x1_0000_0000_0000_0000_0000, n / TWO_64 % 4096 * TWO_62 + n % TWO_62))
  }

  /** A well-formed text denotes exactly the integer of its own timestamp and random value. */
  lemma PartsCompose(s: string)
    requires IsUuid7(s)
    ensures var p := ToParts(s).value; InRange(p.timestamp, p.random) && p.integer == Compose(p.timestamp, p.random)
  {
    var h := Undashed(s);
    FiveFields(h);
    var t, a, l := Value(h[..12]), Value(h[13..16]), Value(h[16..]);
    assert h[12] == s[14] && h[16] == s[19];
    SplitInteger(t, a, l);
  }

  /** The fields of 32 digits with version 7 and variant 10. */
  lemma FiveFields(h: string)
    requires |h| == 32 && AllHex(h) && h[12] == '7' && h[16] in "89abAB"
    ensures var t, a, l := Value(h[..12]), Value(h[13..16]), Value(h[16..]);
            && 0 <= t <= MAX_TIMESTAMP && 0 <= a < 4096 && 2 * TWO_62 <= l < 3 * TWO_62
            && Value(h) == ((t * 16 + 7) * 4096 + a) * TWO_64 + l
  {
    hide Value, IsHex, DigitValue, Pow16;
    var time, high, low := h[..12], h[13..16], h[16..];
    assert time + ['7'] == h[..13] && h[..13] + high == h[..16] && h[..16] + low == h;
    ValueSnoc(time, '7');
    ValueSplits(h[..13], high);
    ValueSplits(h[..16], low);
    ValueBound(time);
    ValueBound(high);
    Powers();
    LowHalf(low, h[16]);
    assert DigitValue('7') == 7 by { DigitRoundTrip(7); }
  }

  /** The last 16 digits carry the variant bits 10 in front of 62 random bits. */
  lemma LowHalf(low: string, first: char)
    requires |low| == 16 && AllHex(low) && low[0] == first && first in "89abAB"
    ensures 2 * TWO_62 <= Value(low) < 3 * TWO_62
  {
    hide Value, IsHex, Pow16;
    assert low == [first] + low[1..];
    assert Value([first])
        == DigitValue(first) by { ValueEmpty(); ValueSnoc([], first); assert [] + [first] == [first]; }
    ValueSplits([first], low[1..]);
    ValueBound(low[1..]);
    Powers();
  }

  lemma SplitInteger(t: int, a: int, l: int)
    requires 0 <= t <= MAX_TIMESTAMP && 0 <= a < 4096 && 2 * TWO_62 <= l < 3 * TWO_62
    ensures var n := ((t * 16 + 7) * 4096 + a) * TWO_64 + l;
            var random := n / TWO_64 % 4096 * TWO_62 + n % TWO_62;
            n / 0x1_0000_0000_0000_0000_0000 == t && n / TWO_64 % 4096 == a && n % TWO_62 == l - 2 * TWO_62
            && InRange(t, random) && n == Compose(t, random)
  {
    var high := (t * 16 + 7) * 4096 + a;
    var n := high * TWO_64 + l;
    High64(high, l);
    Low62(n, 4 * high + 2, l - 2 * TWO_62);
    assert n / 0x1_0000_0000_0000_0000_0000
        == high / 0x1_0000 by { High80(high / 0x1_0000, high % 0x1_0000 * TWO_64 + l); }
    assert high / 0x1_0000 == t && high % 4096 == a;
    var random := a * TWO_62 + (l - 2 * TWO_62);
    assert random / TWO_62 == a && random % TWO_62 == l - 2 * TWO_62;
  }

  lemma High64(high: int, l: int)
    requires 0 <= l < TWO_64
    ensures (high * TWO_64 + l) / TWO_64 == high
  {
  }

  lemma High80(high: int, l: int)
    requires 0 <= l < 0x1_0000_0000_0000_0000_0000
    ensures (high * 0x1_0000_0000_0000_0000_0000 + l) / 0x1_0000_0000_0000_0000_0000 == high
  {
  }

  lemma Low62(n: int, q: int, l: int)
    requires n == q * TWO_62 + l && 0 <= l < TWO_62
    ensures n % TWO_62 == l
  {
  }

  /** `parts` inverts `fromParts`: every text made from parts in range is accepted and gives them back. */
  lemma PartsOfFromParts(t: int, r: int)
    requires InRange(t, r)
    ensures ToParts(FromParts(t, r).value) == Some(Parts(Compose(t, r), t, r))
  {
    hide Hex, Value, ToParts, IsUuid7, Dashed, AllHex;
    var h := Hex(Compose(t, r), 32);
    ComposedDigits(t, r);
    DashRoundTrip(Dashed(h), h);
    DashedIsUuid7(h);
    var a, l := r / TWO_62, 2 * TWO_62 + r % TWO_62;
    SplitInteger(t, a, l);
    assert a * TWO_62 + (l - 2 * TWO_62) == r;
    ToPartsOf(Dashed(h), Compose(t, r));
  }

  lemma ToPartsOf(s: string, n: int)
    requires IsUuid7(s) && Value(Undashed(s)) == n
    ensures ToParts(s) == Some(Parts(n, n / 0x1_0000_0000_0000_0000_0000, n / TWO_64 % 4096 * TWO_62 + n % TWO_62))
  {
  }

  lemma DashedIsUuid7(h: string)
    requires |h| == 32 && AllHex(h) && h[12] == '7' && h[16] in "89abAB"
    ensures IsUuid7(Dashed(h))
  {
    hide AllHex;
    var s := Dashed(h);
    DashRoundTrip(s, h);
    assert s[14] == h[12] && s[19] == h[16];
  }

  /** The printed integer has version digit 7 and a variant digit from 8 to b, and reads back. */
  lemma ComposedDigits(t: int, r: int)
    requires InRange(t, r)
    ensures var h := Hex(Compose(t, r), 32);
            AllHex(h) && Value(h) == Compose(t, r) && h[12] == '7' && h[16] in "89abAB"
  {
    hide Hex, Value, Pow16, AllHex;
    var a, b := r / TWO_62, r % TWO_62;
    Powers();
    PowSplits(16, 16);
    ValueOfHex(Compose(t, r), 32);
    HexSplits((t * 16 + 7) * 4096 + a, 2 * TWO_62 + b, 16, 16);
    HexSplits(t * 16 + 7, a, 13, 3);
    HexSplits(t, 7, 12, 1);
    var d := 8 + b / TWO_60;
    assert 2 * TWO_62 + b == d * TWO_60 + b % TWO_60;
    HexSplits(d, b % TWO_60, 1, 15);
    OneDigit(7);
    OneDigit(d);
  }

  lemma OneDigit(n: int)
    requires 0 <= n < 16
    ensures Hex(n, 1) == [HexDigit(n)]
  {
    Powers();
    HexLast(n, 1);
    hide HexDigit;
    assert Hex(n / 16, 0) == [];
  }

  lemma {:induction false} PowSplits(m: nat, n: nat)
    ensures Pow16(m + n) == Pow16(m) * Pow16(n)
  {
    if n > 0 {
      PowSplits(m, n - 1);
      assert Pow16(m + n) == 16 * (Pow16(m) * Pow16(n - 1));
      assert Pow16(n) == 16 * Pow16(n - 1);
    }
  }

  lemma {:induction false} HexSplits(high: int, low: int, m: nat, n: nat)
    requires 0 <= high && 0 <= low < Pow16(n)
    ensures 0 <= high * Pow16(n) + low && Hex(high * Pow16(n) + low, m + n) == Hex(high, m) + Hex(low, n)
  {
    hide HexDigit;
    if n == 0 {
      assert Hex(low, 0) == [];
    } else {
      HexSplits(high, low / 16, m, n - 1);
      DivideByBase(high, Pow16(n - 1), low);
    }
  }

  lemma DivideByBase(high: int, p: int, low: int)
    requires 0 <= high && 1 <= p && 0 <= low
    ensures 0 <= high * (16 * p) + low
    ensures (high * (16 * p) + low) / 16 == high * p + low / 16 && (high * (16 * p) + low) % 16 == low % 16
  {
    assert high * (16 * p) == 16 * (high * p);
    assert 0 <= high * p;
  }

  /** And `fromParts` inverts `parts`, up to the case of letters. */
  lemma FromPartsOfParts(s: string)
    requires IsUuid7(s)
    ensures FromParts(ToParts(s).value.timestamp, ToParts(s).value.random) == Success(Lower(s))
  {
    PartsCompose(s);
    HexOfValue(Undashed(s));
    var low := Lower(s);
    assert Undashed(low) == Lower(Undashed(s));
    assert AllHex(Undashed(low));
    DashRoundTrip(low, Undashed(s));
  }

  // ---------------------------------------------------------------- order of texts

  lemma {:induction false} HexOrder(m: int, n: int, width: nat) returns (k: nat)
    requires 0 <= m < n < Pow16(width)
    decreases width
    ensures k < width && Hex(m, width)[..k] == Hex(n, width)[..k] && Hex(m, width)[k] < Hex(n, width)[k]
  {
    hide HexDigit;
    HexLast(m, width);
    HexLast(n, width);
    if m / 16 < n / 16 {
      k := HexOrder(m / 16, n / 16, width - 1);
      hide Hex;
      assert Hex(m, width)[..k] == Hex(m / 16, width - 1)[..k] && Hex(n, width)[..k] == Hex(n / 16, width - 1)[..k];
    } else {
      k := width - 1;
      DigitOrder(m % 16, n % 16);
    }
  }

  lemma HexLast(n: int, width: nat)
    requires 0 <= n < Pow16(width) && width > 0
    ensures Hex(n, width) == Hex(n / 16, width - 1) + [HexDigit(n % 16)] && n / 16 < Pow16(width - 1)
  {
  }

  lemma DigitOrder(m: int, n: int)
    requires 0 <= m < n < 16
    ensures HexDigit(m) < HexDigit(n)
  {
  }

  /** Larger integers have larger texts. */
  lemma TextOrder(m: int, n: int)
    requires 0 <= m < n < Pow16(32)
    ensures TextLess(Dashed(Hex(m, 32)), Dashed(Hex(n, 32)))
  {
    hide Hex;
    var k := HexOrder(m, n, 32);
    DashOrder(Hex(m, 32), Hex(n, 32), k);
  }

  lemma DashedAt(h: string, i: nat)
    requires |h| == 32 && i < 36
    ensures i in {8, 13, 18, 23} ==> Dashed(h)[i] == '-'
    ensures i !in {8, 13, 18, 23} ==>
      Dashed(h)[i] == h[i - (if i < 8 then 0 else if i < 13 then 1 else if i < 18 then 2 else if i < 23 then 3 else 4)]
  {
  }

  lemma DashOrder(g: string, h: string, k: nat)
    requires |g| == 32 && |h| == 32 && k < 32 && g[..k] == h[..k] && g[k] < h[k]
    ensures TextLess(Dashed(g), Dashed(h))
  {
    var at := k + (if k < 8 then 0 else if k < 12 then 1 else if k < 16 then 2 else if k < 20 then 3 else 4);
    var a, b := Dashed(g), Dashed(h);
    DashedAt(g, at);
    DashedAt(h, at);
    assert forall i :: 0 <= i < k ==> g[..k][i] == g[i] && h[..k][i] == h[i];
    forall i | 0 <= i < at ensures a[i] == b[i] {
      hide Dashed;
      DashedAt(g, i);
      DashedAt(h, i);
    }
    assert a[..at] == b[..at];
    FirstDifference(a, b, at);
  }

  // ---------------------------------------------------------------- reservation

  /** The largest parseable pending ID, if any; others are old or opaque identifiers. */
  function LatestPending(pending: seq<string>): Option<Parts>
    decreases |pending|
  {
    if pending == [] then None
    else
      var latest, item := LatestPending(pending[..|pending| - 1]), ToParts(pending[|pending| - 1]);
      if item.Some? && (latest.None? || item.value.integer > latest.value.integer) then item else latest
  }

  lemma {:induction false} LatestIsLargest(pending: seq<string>)
    ensures var latest := LatestPending(pending);
            && (latest.Some? ==> exists s :: s in pending && ToParts(s) == latest)
            && (forall s :: s in pending && ToParts(s).Some? ==>
                      latest.Some? && ToParts(s).value.integer <= latest.value.integer)
    decreases |pending|
  {
    if pending != [] {
      LatestIsLargest(pending[..|pending| - 1]);
      assert pending == pending[..|pending| - 1] + [pending[|pending| - 1]];
    }
  }

  /** The 80 bits of an entropy draw, first byte most significant; None is an unusable draw. */
  type Entropy = nat -> Option<seq<int>>

  function Bits(bytes: seq<int>): int {
    if bytes == [] then 0 else Bits(bytes[..|bytes| - 1]) * 256 + bytes[|bytes| - 1]
  }

  predicate UsableDraw(draw: Option<seq<int>>) {
    draw.Some? && |draw.value| == 10 && forall i :: 0 <= i < 10 ==> 0 <= draw.value[i] < 256
  }

  /** The first drawn start value, from the given attempt on, that leaves room for `count` IDs. */
  function FirstDraw(entropy: Entropy, count: int, attempt: nat): Option<int>
    decreases ATTEMPTS - attempt
  {
    if attempt >= ATTEMPTS || !UsableDraw(entropy(attempt)) then None
    else
      var random := Bits(entropy(attempt).value) % (RANDOM_MAX + 1);
      if random <= RANDOM_MAX - (count - 1) then Some(random) else FirstDraw(entropy, count, attempt + 1)
  }

  /** `count` IDs of one timestamp with consecutive random values. */
  function Block(timestamp: int, first: int, count: nat): (ids: seq<string>)
    requires InRange(timestamp, first) && first + count - 1 <= RANDOM_MAX
    ensures |ids| == count && forall i :: 0 <= i < count ==> Success(ids[i]) == FromParts(timestamp, first + i)
  {
    seq(count, i requires 0 <= i < count => FromParts(timestamp, first + i).value)
  }

  predicate ValidRequest(timestamp: int, count: int) {
    0 < timestamp <= MAX_TIMESTAMP && 0 < count <= MAX_SAFE
  }

  /** Where the next block starts: (timestamp, first random value), or None for a range error. */
  function BlockStart(timestamp: int, count: int, stored: Option<string>, pending: seq<string>,
      entropy: Entropy): Option<(int, int)>
    requires ValidRequest(timestamp, count)
  {
    var known := if stored.Some? then ToParts(stored.value) else None;
    var latest := LatestPending(pending);
    if stored.Some? && known.None? then None
    else if known.Some? && latest.Some? && latest.value.integer > known.value.integer then None
    else
      var previous := if known.Some? then known else latest;
      if previous.Some? && timestamp <= previous.value.timestamp then
        if previous.value.random > RANDOM_MAX - count then None
            else Some((previous.value.timestamp, previous.value.random + 1))
      else
        var draw := FirstDraw(entropy, count, 0);
        if draw.None? then None else Some((timestamp, draw.value))
  }

  predicate ValidStart(start: (int, int), count: int) {
    InRange(start.0, start.1) && start.1 + count - 1 <= RANDOM_MAX
  }

  lemma {:induction false} BitsNonnegative(bytes: seq<int>)
    requires forall i :: 0 <= i < |bytes| ==> 0 <= bytes[i] < 256
    ensures 0 <= Bits(bytes)
  {
    if bytes != [] { BitsNonnegative(bytes[..|bytes| - 1]); }
  }

  lemma {:induction false} DrawInRange(entropy: Entropy, count: int, attempt: nat)
    requires count > 0
    ensures var draw := FirstDraw(entropy, count, attempt); draw.Some? ==>
          0 <= draw.value && draw.value + count - 1 <= RANDOM_MAX
    decreases ATTEMPTS - attempt
  {
    if attempt < ATTEMPTS && UsableDraw(entropy(attempt)) {
      DrawInRange(entropy, count, attempt + 1);
    }
  }

  /** A block never runs over the 74 random bits, and starts above the stored ID and above every
      pending ID that can be parsed. */
  lemma BlockStartIsAbove(timestamp: int, count: int, stored: Option<string>, pending: seq<string>, entropy: Entropy)
    requires ValidRequest(timestamp, count) && BlockStart(timestamp, count, stored, pending, entropy).Some?
    ensures var start := BlockStart(timestamp, count, stored, pending, entropy).value;
            && ValidStart(start, count) && timestamp <= start.0
            && (stored.Some? ==>
                  ToParts(stored.value).Some? && ToParts(stored.value).value.integer < Compose(start.0, start.1))
            && (forall s :: s in pending && ToParts(s).Some? ==> ToParts(s).value.integer < Compose(start.0, start.1))
  {
    hide ToParts, FirstDraw, Compose;
    LatestIsLargest(pending);
    DrawInRange(entropy, count, 0);
    var start := BlockStart(timestamp, count, stored, pending, entropy).value;
    var known := if stored.Some? then ToParts(stored.value) else None;
    var latest := LatestPending(pending);
    var previous := if known.Some? then known else latest;
    if previous.Some? {
      var s := if known.Some? then stored.value else (var s :| s in pending && ToParts(s) == latest; s);
      ParsedIsUuid7(s);
      PartsCompose(s);
      ComposeIsMonotone(previous.value.timestamp, previous.value.random, start.0, start.1);
    }
  }

  lemma StartIsValid(timestamp: int, count: int, stored: Option<string>, pending: seq<string>, entropy: Entropy)
    requires ValidRequest(timestamp, count)
    ensures var start := BlockStart(timestamp, count, stored, pending, entropy);
            start.Some? ==> ValidStart(start.value, count) && 0 <= start.value.1
  {
    hide BlockStart, ToParts;
    if BlockStart(timestamp, count, stored, pending, entropy).Some? {
      BlockStartIsAbove(timestamp, count, stored, pending, entropy);
    }
  }

  lemma ParsedIsUuid7(s: string)
    requires ToParts(s).Some?
    ensures IsUuid7(s)
  {
  }

  method RandomBatch(timestamp: int, count: int, entropy: Entropy) returns (r: Result<seq<string>, ()>)
    requires ValidRequest(timestamp, count)
    ensures var draw := FirstDraw(entropy, count, 0);
            r.Success? <==> draw.Some?
    ensures var draw := FirstDraw(entropy, count, 0);
            r.Success? ==>
              0 <= draw.value && draw.value + count - 1 <= RANDOM_MAX && r.value == Block(timestamp, draw.value, count)
  {
    var maximumFirst := RANDOM_MAX - (count - 1);
    for attempt := 0 to ATTEMPTS
      invariant FirstDraw(entropy, count, 0) == FirstDraw(entropy, count, attempt)
    {
      var draw := entropy(attempt);
      if !UsableDraw(draw) { return Failure(()); }
      var random, source := 0, draw.value;
      for i := 0 to |source|
        invariant random == Bits(source[..i])
      {
        assert source[..i + 1][..i] == source[..i];
        random := random * 256 + source[i];
      }
      assert source[..|source|] == source;
      random := random % (RANDOM_MAX + 1);
      if random <= maximumFirst {
        return Success(Block(timestamp, random, count));
      }
    }
    return Failure(());
  }

  /** latestPending as a fold over the list. */
  method LatestOf(pending: seq<string>) returns (latest: Option<Parts>)
    ensures latest == LatestPending(pending)
  {
    latest := None;
    for i := 0 to |pending|
      invariant latest == LatestPending(pending[..i])
    {
      assert pending[..i + 1][..i] == pending[..i];
      var item := ToParts(pending[i]);
      if item.Some? && (latest.None? || item.value.integer > latest.value.integer) { latest := item; }
    }
    assert pending[..|pending|] == pending;
  }

  /** reserve: IDs that continue the previous block, or a fresh random block of a later time. */
  method Reserve(timestamp: int, count: int, stored: Option<string>, pending: seq<string>, entropy: Entropy)
    returns (r: Result<seq<string>, ()>)
    ensures r.Success? <==>
              ValidRequest(timestamp, count) && BlockStart(timestamp, count, stored, pending, entropy).Some?
    ensures r.Success? ==>
      var start := BlockStart(timestamp, count, stored, pending, entropy).value;
      ValidStart(start, count) && r.value == Block(start.0, start.1, count)
  {
    if !ValidRequest(timestamp, count) { return Failure(()); }
    var known: Option<Parts> := None;
    if stored.Some? {
      known := ToParts(stored.value);
      if known.None? { return Failure(()); }
    }
    var latest := LatestOf(pending);
    hide LatestPending, ToParts, FirstDraw, Block;
    if known.Some? && latest.Some? && latest.value.integer > known.value.integer { return Failure(()); }
    var previous := if known.Some? then known else latest;
    StartIsValid(timestamp, count, stored, pending, entropy);
    hide ValidStart;
    if previous.Some? && timestamp <= previous.value.timestamp {
      if previous.value.random > RANDOM_MAX - count { return Failure(()); }
      return Success(Block(previous.value.timestamp, previous.value.random + 1, count));
    }
    r := RandomBatch(timestamp, count, entropy);
  }

  // ---------------------------------------------------------------- runs

  /** One reservation as called: the clock reading may be anything, even behind the last one. */
  datatype Call = Call(timestamp: int, count: int, pending: seq<string>, entropy: Entropy)

  /** The IDs one call issues; none when it fails. */
  function Issue(stored: Option<string>, c: Call): seq<string> {
    if !ValidRequest(c.timestamp, c.count) then []
    else
      var start := BlockStart(c.timestamp, c.count, stored, c.pending, c.entropy);
      if start.None? then []
      else
        BlockStartIsAbove(c.timestamp, c.count, stored, c.pending, c.entropy);
        Block(start.value.0, start.value.1, c.count)
  }

  /** A successful call stores its last ID. */
  function Stored(stored: Option<string>, issued: seq<string>): Option<string> {
    if issued == [] then stored else Some(issued[|issued| - 1])
  }

  function Issued(stored: Option<string>, calls: seq<Call>): seq<string>
    decreases |calls|
  {
    if calls == [] then []
    else var now := Issue(stored, calls[0]); now + Issued(Stored(stored, now), calls[1..])
  }

  /** The integer a text denotes; opaque identifiers rank below every UUID. */
  function Number(s: string): (n: int)
    ensures n >= 0 <==> IsUuid7(s)
  {
    var p := ToParts(s);
    if p.None? then -1 else p.value.integer
  }

  /** A well-formed version 7 UUID in the canonical lower-case text of its integer. */
  ghost predicate Canonical(s: string) {
    IsUuid7(s) && Number(s) < Pow16(32) && s == Dashed(Hex(Number(s), 32))
  }

  lemma FromPartsIsCanonical(t: int, r: int)
    requires InRange(t, r)
    ensures FromParts(t, r).Success? && Canonical(FromParts(t, r).value)
    ensures ToParts(FromParts(t, r).value) == Some(Parts(Compose(t, r), t, r))
        && Number(FromParts(t, r).value) == Compose(t, r) >= 0
  {
    hide ToParts, IsUuid7, Hex, Dashed, Compose, Value, AllHex, Pow16;
    PartsOfFromParts(t, r);
    ParsedIsUuid7(FromParts(t, r).value);
    ComposedDigits(t, r);
    ValueBound(Hex(Compose(t, r), 32));
  }

  lemma CanonicalOrder(a: string, b: string)
    requires Canonical(a) && Canonical(b) && Number(a) < Number(b)
    ensures TextLess(a, b)
  {
    hide Number, IsUuid7, Hex, Dashed, TextLess, Pow16;
    TextOrder(Number(a), Number(b));
  }

  /** One call: every ID is a canonical version 7 UUID no earlier than the clock reading, above the
      stored one and above every pending one. */
  lemma IssueIsAbove(stored: Option<string>, c: Call, i: nat)
    requires i < |Issue(stored, c)|
    ensures var id := Issue(stored, c)[i];
            && Canonical(id) && c.timestamp <= ToParts(id).value.timestamp
            && (stored.Some? ==> IsUuid7(stored.value) && Number(stored.value) < Number(id))
    ensures forall s :: s in c.pending ==> Number(s) < Number(Issue(stored, c)[i])
    ensures forall j :: i < j < |Issue(stored, c)| ==> Number(Issue(stored, c)[i]) < Number(Issue(stored, c)[j])
  {
    hide ToParts, Compose, BlockStart, IsUuid7, Hex, Dashed, Canonical, FromParts;
    var ids := Issue(stored, c);
    BlockStartIsAbove(c.timestamp, c.count, stored, c.pending, c.entropy);
    var (t, first) := BlockStart(c.timestamp, c.count, stored, c.pending, c.entropy).value;
    FromPartsIsCanonical(t, first + i);
    ComposeIsMonotone(t, first + i, t, first);
    if stored.Some? { ParsedIsUuid7(stored.value); }
    forall j | i < j < |ids| ensures Number(ids[i]) < Number(ids[j]) {
      FromPartsIsCanonical(t, first + j);
      ComposeIsMonotone(t, first + i, t, first + j);
    }
  }

  ghost function Numbers(ids: seq<string>): (r: seq<int>)
    ensures |r| == |ids| && forall i :: 0 <= i < |r| ==> r[i] == Number(ids[i])
  {
    seq(|ids|, i requires 0 <= i < |ids| => Number(ids[i]))
  }

  /** Over any run of reservations the issued IDs strictly increase as integers, whatever the clock
      does, and stay above the ID that was stored at the start. */
  lemma {:induction false} IssuedIncrease(stored: Option<string>, calls: seq<Call>)
    ensures Increasing(Numbers(Issued(stored, calls)))
    ensures forall i :: 0 <= i < |Issued(stored, calls)| ==> Canonical(Issued(stored, calls)[i])
    ensures forall i :: 0 <= i < |Issued(stored, calls)| && stored.Some? ==>
          Number(stored.value) < Number(Issued(stored, calls)[i])
    decreases |calls|
  {
    hide Number, Canonical, Issue, IsUuid7;
    if calls != [] {
      var now := Issue(stored, calls[0]);
      forall i | 0 <= i < |now|
        ensures Canonical(now[i]) && (stored.Some? ==> Number(stored.value) < Number(now[i]))
        ensures forall j :: i < j < |now| ==> Number(now[i]) < Number(now[j])
      {
        IssueIsAbove(stored, calls[0], i);
      }
      IssuedIncrease(Stored(stored, now), calls[1..]);
    }
  }

  /** The same run as text: later IDs sort after earlier ones, and none repeats. */
  lemma IssuedIncreaseAsText(stored: Option<string>, calls: seq<Call>, i: nat, j: nat)
    requires i < j < |Issued(stored, calls)|
    ensures TextLess(Issued(stored, calls)[i], Issued(stored, calls)[j])
    ensures Issued(stored, calls)[i] != Issued(stored, calls)[j]
  {
    hide Number, Canonical, Issue, IsUuid7, Issued, TextLess;
    IssuedIncrease(stored, calls);
    assert Numbers(Issued(stored, calls))[i] < Numbers(Issued(stored, calls))[j];
    CanonicalOrder(Issued(stored, calls)[i], Issued(stored, calls)[j]);
  }
}
