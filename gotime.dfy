/**
  A model of the part of Go's `time` package the chat-command parser relies
  on: `time.ParseDuration` restricted to integer amounts, the constant
  `time.Second`, and the conversion of a whole-second count to `uint32`.
  A duration is a number of nanoseconds held in an int64.
 */
module GoTime {
  import opened Wrappers

  const Nanosecond: nat := 1
  const Microsecond: nat := 1000 * Nanosecond
  const Millisecond: nat := 1000 * Microsecond
  const Second: nat := 1000 * Millisecond
  const Minute: nat := 60 * Second
  const Hour: nat := 60 * Minute

  /** 2^63: one past the largest int64, and the bound `ParseDuration` checks against. */
  const TwoTo63: int := 0x8000_0000_0000_0000
  /** 2^64: the modulus of the uint64 accumulator inside `ParseDuration`. */
  const TwoTo64: int := 0x1_0000_0000_0000_0000
  /** 2^32: the modulus of a conversion to uint32. */
  const TwoTo32: int := 0x1_0000_0000

  /** Go's `unitMap`: the unit suffixes and the nanoseconds in one of each. */
  const UnitMap: map<string, nat> := map[
    "ns" := Nanosecond,
    "us" := Microsecond,
    "\U{B5}s" := Microsecond,
    "\U{3BC}s" := Microsecond,
    "ms" := Millisecond,
    "s" := Second,
    "m" := Minute,
    "h" := Hour
  ]

  predicate IsDigit(c: char) {
    '0' <= c <= '9'
  }

  /** The number of leading decimal digits of `s`. */
  function DigitRun(s: string): (n: nat)
    ensures n <= |s|
    ensures forall i :: 0 <= i < n ==> IsDigit(s[i])
    ensures n < |s| ==> !IsDigit(s[n])
  {
    if s != [] && IsDigit(s[0]) then 1 + DigitRun(s[1..]) else 0
  }

  /** The length of the unit that starts `s`: every character up to the next digit or '.'. */
  function UnitRun(s: string): (n: nat)
    ensures n <= |s|
    ensures forall i :: 0 <= i < n ==> !IsDigit(s[i]) && s[i] != '.'
    ensures n < |s| ==> IsDigit(s[n]) || s[n] == '.'
  {
    if s != [] && !IsDigit(s[0]) && s[0] != '.' then 1 + UnitRun(s[1..]) else 0
  }

  /** The value of one decimal digit. */
  function DigitValue(c: char): nat
    requires IsDigit(c)
  {
    c as int - '0' as int
  }

  /** The value of a string of decimal digits, most significant first. */
  function DigitsValue(ds: string): nat
    requires forall i :: 0 <= i < |ds| ==> IsDigit(ds[i])
  {
    if ds == [] then 0
    else 10 * DigitsValue(ds[..|ds| - 1]) + DigitValue(ds[|ds| - 1])
  }

  /** One "<digits><unit>" group of a duration: its amount, the unit's size and the text after it. */
  datatype Group = Group(amount: nat, unit: nat, rest: string)

  /**
    Reads the group that starts `s`, as one turn of Go's loop does before
    the arithmetic: digits, then a unit from `UnitMap`. A digit run above
    2^63 is rejected, which is where Go's `leadingInt` reports overflow. A
    fraction ("1.5h") is rejected here, where Go accepts it.
   */
  function NextGroup(s: string): (g: Option<Group>)
    ensures g.Some? ==> |g.value.rest| < |s| && g.value.rest == s[|s| - |g.value.rest|..]
    ensures g.Some? ==> !IsDigit(s[|s| - |g.value.rest| - 1])
    ensures g.Some? ==> g.value.unit > 0 && g.value.amount <= TwoTo63
    ensures g.Some? && g.value.rest != [] ==> IsDigit(g.value.rest[0]) || g.value.rest[0] == '.'
  {
    if s == [] || !IsDigit(s[0]) then None
    else
      var n := DigitRun(s);
      var v := DigitsValue(s[..n]);
      var rest := s[n..];
      var k := UnitRun(rest);
      if v > TwoTo63 || k == 0 || rest[..k] !in UnitMap then None
      else
        UnitPositive(rest[..k]);
        assert rest[k..] == s[n + k..] && rest[k - 1] == s[n + k - 1];
        Some(Group(v, UnitMap[rest[..k]], rest[k..]))
  }

  /**
    The groups of a duration after its sign, added onto `d` as Go's loop
    does in a uint64: an amount above 2^63 / unit is rejected, and so is a
    running total above 2^63 after the addition, which wraps modulo 2^64.
   */
  function ParseGroups(s: string, d: nat): (r: Option<nat>)
    requires d <= TwoTo63
    ensures r.Some? ==> r.value <= TwoTo63
    ensures s == [] ==> r == Some(d)
    decreases |s|
  {
    if s == [] then Some(d)
    else match NextGroup(s)
      case None => None
      case Some(g) =>
        if g.amount > TwoTo63 / g.unit then None
        else
          var total := Accumulate(d, g);
          if total > TwoTo63 then None else ParseGroups(g.rest, total)
  }

  /** The running total after a group, in Go's uint64 arithmetic. */
  function Accumulate(d: nat, g: Group): (total: nat)
    ensures total < TwoTo64
  {
    (d + g.amount * g.unit) % TwoTo64
  }

  /**
    `time.ParseDuration` on integer amounts: an optional sign, then "0"
    alone or one or more groups "<digits><unit>". The result, in
    nanoseconds, always fits an int64.
   */
  function ParseDuration(s: string): (r: Option<int>)
    ensures r.Some? ==> -TwoTo63 <= r.value < TwoTo63
    ensures s == [] ==> r == None
  {
    var signed := s != [] && (s[0] == '-' || s[0] == '+');
    var body := if signed then s[1..] else s;
    Signed(signed && s[0] == '-', ParseMagnitude(body))
  }

  /** The unsigned part of a duration: "0" alone, or one or more groups. */
  function ParseMagnitude(body: string): (r: Option<nat>)
    ensures r.Some? ==> r.value <= TwoTo63
    ensures body == [] ==> r == None
  {
    if body == "0" then Some(0)
    else if body == [] then None
    else ParseGroups(body, 0)
  }

  /** Applies the sign; a positive total must fit an int64, a negative one may be -2^63. */
  function Signed(negative: bool, m: Option<nat>): (r: Option<int>)
    requires m.Some? ==> m.value <= TwoTo63
    ensures r.Some? ==> -TwoTo63 <= r.value < TwoTo63
  {
    match m
    case None => None
    case Some(d) =>
      if negative then Some(-(d as int))
      else if d > TwoTo63 - 1 then None
      else Some(d)
  }

  /** Go's integer division on int64, which truncates toward zero. */
  function TruncDiv(a: int, b: nat): (q: int)
    requires b > 0
    ensures a >= 0 ==> 0 <= a - q * b < b
    ensures a < 0 ==> 0 <= q * b - a < b
  {
    if a >= 0 then a / b else -((-a) / b)
  }

  /** Go's conversion `uint32(x)` of an int64: the low 32 bits of the two's complement. */
  function ToUint32(x: int): (r: nat)
    ensures r < TwoTo32
    ensures (x - r) % TwoTo32 == 0
  {
    x % TwoTo32
  }

  /** `uint32(d / time.Second)`: whole seconds of `d`, truncated, then wrapped to 32 bits. */
  function WholeSeconds(d: int): (r: nat)
    ensures r < TwoTo32
    ensures (r - TruncDiv(d, Second)) % TwoTo32 == 0
  {
    ToUint32(TruncDiv(d, Second))
  }

  /**
    A duration shorter than 2^32 seconds either way: forward, its whole
    seconds rounded down; backward, 2^32 minus its whole seconds rounded
    toward zero, wrapped.
   */
  lemma WholeSecondsInRange(d: int)
    ensures 0 <= d < TwoTo32 * Second ==> WholeSeconds(d) == d / Second
    ensures -TwoTo32 * Second < d < 0 ==> WholeSeconds(d) == (TwoTo32 - (-d) / Second) % TwoTo32
  {
    if 0 <= d < TwoTo32 * Second {
      assert d / Second < TwoTo32;
    } else if -TwoTo32 * Second < d < 0 {
      var q := (-d) / Second;
      assert 0 <= q < TwoTo32;
      assert TruncDiv(d, Second) == -q;
      assert (-q) % TwoTo32 == (TwoTo32 - q) % TwoTo32;
    }
  }

  /** The decimal digits of `n`, most significant first, with no leading zero. */
  function Decimal(n: nat): (ds: string)
    ensures |ds| >= 1
    ensures forall i :: 0 <= i < |ds| ==> IsDigit(ds[i])
  {
    if n < 10 then [('0' as int + n) as char]
    else Decimal(n / 10) + [('0' as int + n % 10) as char]
  }

  /** `Decimal` is read back by `DigitsValue`. */
  lemma {:induction false} DecimalValue(n: nat)
    ensures DigitsValue(Decimal(n)) == n
  {
    if n >= 10 {
      var ds := Decimal(n);
      assert ds[..|ds| - 1] == Decimal(n / 10);
      DecimalValue(n / 10);
    }
  }

  /** Digits followed by a non-digit: the digit run is exactly the digits. */
  lemma {:induction false} DigitRunAppend(ds: string, rest: string)
    requires forall i :: 0 <= i < |ds| ==> IsDigit(ds[i])
    requires rest == [] || !IsDigit(rest[0])
    ensures DigitRun(ds + rest) == |ds|
  {
    if ds != [] {
      assert (ds + rest)[1..] == ds[1..] + rest;
      DigitRunAppend(ds[1..], rest);
    }
  }

  /** A unit name from `UnitMap` is read whole by `UnitRun`. */
  lemma UnitRunOfUnit(u: string)
    requires u in UnitMap
    ensures u != [] && !IsDigit(u[0]) && UnitRun(u) == |u|
  {
    UnitNames(u);
    if |u| == 2 {
      assert !IsDigit(u[0]) && !IsDigit(u[1]) && u[0] != '.' && u[1] != '.';
      assert UnitRun(u[1..]) == 1;
    }
  }

  /** Every unit is at least a nanosecond. */
  lemma UnitPositive(u: string)
    requires u in UnitMap
    ensures UnitMap[u] > 0
  {
    UnitNames(u);
  }

  /** The unit names: one or two characters, none of them a digit or '.'. */
  lemma UnitNames(u: string)
    requires u in UnitMap
    ensures u == "ns" || u == "us" || u == "\U{B5}s" || u == "\U{3BC}s" || u == "ms" || u == "s" || u == "m" || u == "h"
    ensures 1 <= |u| <= 2
  {
  }

  /**
    Round trip: an amount written in decimal with a unit suffix parses back
    to the amount times the unit, for every amount that fits an int64.
   */
  lemma ParseDecimalWithUnit(n: nat, u: string)
    requires u in UnitMap && n * UnitMap[u] < TwoTo63
    ensures ParseDuration(Decimal(n) + u) == Some(n * UnitMap[u])
  {
    NatProduct(n, UnitMap[u]);
    MagnitudeOfGroup(n, u);
    ParseUnsigned(Decimal(n) + u, n * UnitMap[u]);
  }

  /** The same with a leading '-': the negated amount, down to -2^63. */
  lemma ParseNegatedDecimalWithUnit(n: nat, u: string)
    requires u in UnitMap && n * UnitMap[u] <= TwoTo63
    ensures ParseDuration("-" + Decimal(n) + u) == Some(-(n * UnitMap[u]))
  {
    var body := Decimal(n) + u;
    var d: nat := n * UnitMap[u] by { NatProduct(n, UnitMap[u]); }
    assert ParseMagnitude(body) == Some(d) by { MagnitudeOfGroup(n, u); }
    assert "-" + Decimal(n) + u == "-" + body;
    ParseNegative(body, d);
  }

  /** An unsigned body that starts with a digit parses to its magnitude when that fits an int64. */
  lemma ParseUnsigned(body: string, d: nat)
    requires body != [] && IsDigit(body[0]) && ParseMagnitude(body) == Some(d) && d < TwoTo63
    ensures ParseDuration(body) == Some(d)
  {
  }

  /** A '-' in front of a body of magnitude `d` gives `-d`. */
  lemma ParseNegative(body: string, d: nat)
    requires ParseMagnitude(body) == Some(d)
    ensures ParseDuration("-" + body) == Some(-(d as int))
  {
    assert ("-" + body)[1..] == body;
  }

  /** "<decimal><unit>" is a body of magnitude amount times unit. */
  lemma MagnitudeOfGroup(n: nat, u: string)
    requires u in UnitMap && n * UnitMap[u] <= TwoTo63
    ensures Decimal(n) + u != [] && IsDigit((Decimal(n) + u)[0])
    ensures ParseMagnitude(Decimal(n) + u) == Some(n * UnitMap[u])
  {
    ParseGroup(n, u);
    UnitNames(u);
    assert (Decimal(n) + u)[0] == Decimal(n)[0];
  }

  /** One group "<decimal><unit>" on its own adds its amount to zero. */
  lemma ParseGroup(n: nat, u: string)
    requires u in UnitMap && n * UnitMap[u] <= TwoTo63
    ensures ParseGroups(Decimal(n) + u, 0) == Some(n * UnitMap[u])
  {
    var unit := UnitMap[u];
    var amount := n * unit;
    var g := Group(n, unit, []);
    NextGroupOf(n, u);
    AmountFits(n, u);
    assert Accumulate(0, g) == amount by {
      NatProduct(n, unit);
      SmallMod(0 + amount, TwoTo64);
    }
    assert ParseGroups([], amount) == Some(amount);
  }

  lemma SmallMod(x: int, m: int)
    requires 0 <= x < m
    ensures x % m == x
  {
  }

  lemma WrapOnce(x: int, m: int)
    requires 0 < m <= x < 2 * m
    ensures x % m == x - m
  {
  }

  lemma NatProduct(a: nat, b: nat)
    ensures a * b >= 0
  {
  }

  /** The group reader takes "<decimal><unit>" whole. */
  lemma NextGroupOf(n: nat, u: string)
    requires u in UnitMap && n * UnitMap[u] <= TwoTo63
    ensures NextGroup(Decimal(n) + u) == Some(Group(n, UnitMap[u], []))
  {
    var ds := Decimal(n);
    var s := ds + u;
    UnitRunOfUnit(u);
    DigitRunAppend(ds, u);
    DecimalValue(n);
    AmountFits(n, u);
    assert s[..DigitRun(s)] == ds;
    var rest := s[DigitRun(s)..];
    assert rest == u;
    assert rest[..UnitRun(rest)] == u && rest[UnitRun(rest)..] == [];
  }

  /** Characters that are neither digits nor '.', then a digit or nothing: the unit run is exactly those characters. */
  lemma {:induction false} UnitRunAppend(us: string, rest: string)
    requires forall i :: 0 <= i < |us| ==> !IsDigit(us[i]) && us[i] != '.'
    requires rest == [] || IsDigit(rest[0])
    ensures UnitRun(us + rest) == |us|
  {
    if us != [] {
      assert (us + rest)[1..] == us[1..] + rest;
      UnitRunAppend(us[1..], rest);
    }
  }

  /**
    The group reader on "<decimal><unit>" followed by the next group (or by
    nothing): the amount is read back, the unit looked up, and the reader
    stops where the next digits begin. An amount above 2^63 is an overflow.
   */
  lemma NextGroupThen(n: nat, u: string, rest: string)
    requires u in UnitMap
    requires rest == [] || IsDigit(rest[0])
    ensures NextGroup(Decimal(n) + u + rest) == if n > TwoTo63 then None else Some(Group(n, UnitMap[u], rest))
  {
    var ds := Decimal(n);
    var s := ds + u + rest;
    UnitRunOfUnit(u);
    UnitRunAppend(u, rest);
    assert s == ds + (u + rest);
    assert (u + rest)[0] == u[0];
    DigitRunAppend(ds, u + rest);
    DecimalValue(n);
    assert s[..DigitRun(s)] == ds;
    var tail := s[DigitRun(s)..];
    assert tail == u + rest;
    assert tail[..UnitRun(tail)] == u && tail[UnitRun(tail)..] == rest;
  }

  /**
    A group "<decimal><unit>" followed by further groups: an amount above
    2^63 / unit rejects the duration; otherwise amount times unit is added
    onto the running total modulo 2^64, a total above 2^63 rejects the
    duration, and the remaining groups are read from that total.
   */
  lemma GroupThen(n: nat, u: string, rest: string, d: nat)
    requires u in UnitMap && d <= TwoTo63
    requires rest == [] || IsDigit(rest[0])
    ensures ParseGroups(Decimal(n) + u + rest, d) ==
      if n > TwoTo63 / UnitMap[u] then None
      else
        var total := (d + n * UnitMap[u]) % TwoTo64;
        if total > TwoTo63 then None else ParseGroups(rest, total)
  {
    var s := Decimal(n) + u + rest;
    var unit := UnitMap[u];
    NextGroupThen(n, u, rest);
    UnitPositive(u);
    assert s != [];
    if n > TwoTo63 {
      DivAtMost(TwoTo63, unit);
      assert NextGroup(s) == None;
      assert ParseGroups(s, d) == None;
    } else {
      var g := Group(n, unit, rest);
      assert NextGroup(s) == Some(g);
      if n > TwoTo63 / unit {
        assert ParseGroups(s, d) == None;
      } else {
        var total := Accumulate(d, g);
        assert total == (d + n * unit) % TwoTo64;
        if total > TwoTo63 {
          assert ParseGroups(s, d) == None;
        } else {
          assert ParseGroups(s, d) == ParseGroups(rest, total);
        }
      }
    }
  }

  lemma DivAtMost(a: nat, b: nat)
    requires b > 0
    ensures a / b <= a
  {
    var q := a / b;
    assert q * b <= a;
    NatProduct(q, b - 1);
    assert q * b == q + q * (b - 1);
  }

  /** A group that keeps the running total within 2^63 adds its amount to it. */
  lemma GroupAdds(n: nat, u: string, unit: nat, rest: string, d: nat, total: nat)
    requires u in UnitMap && UnitMap[u] == unit && (rest == [] || IsDigit(rest[0]))
    requires total == d + n * unit && total <= TwoTo63
    ensures ParseGroups(Decimal(n) + u + rest, d) == ParseGroups(rest, total)
  {
    NatProduct(n, unit);
    AmountFits(n, u);
    SmallMod(total, TwoTo64);
    GroupThen(n, u, rest, d);
  }

  /**
    A group of at most 2^63 nanoseconds that takes the running total to
    2^64 or beyond: the uint64 total wraps, and since it is then small the
    overflow test lets it through.
   */
  lemma GroupWraps(n: nat, u: string, unit: nat, rest: string, d: nat)
    requires u in UnitMap && UnitMap[u] == unit && d <= TwoTo63 && (rest == [] || IsDigit(rest[0]))
    requires n * unit <= TwoTo63 && d + n * unit >= TwoTo64
    ensures d + n * unit == TwoTo64
    ensures ParseGroups(Decimal(n) + u + rest, d) == ParseGroups(rest, 0)
  {
    AmountFits(n, u);
    WrapOnce(d + n * unit, TwoTo64);
    GroupThen(n, u, rest, d);
  }

  /** An amount within Go's per-unit bound makes at most 2^63 nanoseconds. */
  lemma WithinQuotient(n: nat, unit: nat)
    requires unit > 0 && n <= TwoTo63 / unit
    ensures n * unit <= TwoTo63
  {
    var q := TwoTo63 / unit;
    assert q * unit <= TwoTo63;
    assert n * unit <= q * unit by {
      NatProduct(q - n, unit);
      assert (q - n) * unit == q * unit - n * unit;
    }
  }

  /** "<decimal><unit>" alone, above 2^63 nanoseconds: rejected by either overflow test. */
  lemma GroupTooLarge(n: nat, u: string)
    requires u in UnitMap && n * UnitMap[u] > TwoTo63
    ensures ParseMagnitude(Decimal(n) + u) == None
  {
    var s := Decimal(n) + u;
    GroupThen(n, u, [], 0);
    assert s + [] == s;
    if n <= TwoTo63 / UnitMap[u] {
      WithinQuotient(n, UnitMap[u]);
    }
    UnitNames(u);
    assert s != "0" && s != [];
  }

  /**
    Without a sign, "<decimal><unit>" parses exactly when it makes less
    than 2^63 nanoseconds; with '-', exactly when it makes at most 2^63
    (the int64 range is one longer below zero).
   */
  lemma DecimalWithUnitRange(n: nat, u: string)
    requires u in UnitMap
    ensures ParseDuration(Decimal(n) + u).Some? <==> n * UnitMap[u] < TwoTo63
    ensures ParseDuration("-" + Decimal(n) + u).Some? <==> n * UnitMap[u] <= TwoTo63
  {
    assert "-" + Decimal(n) + u == "-" + (Decimal(n) + u);
    var body := Decimal(n) + u;
    var d: nat := n * UnitMap[u] by { NatProduct(n, UnitMap[u]); }
    assert body[0] == Decimal(n)[0];
    BodyWithSign(body);
    if d <= TwoTo63 {
      MagnitudeOfGroup(n, u);
    } else {
      GroupTooLarge(n, u);
    }
  }

  /** A body starting with a digit is read unsigned; behind a '-' it is read negated. */
  lemma BodyWithSign(body: string)
    requires body != [] && IsDigit(body[0])
    ensures ParseDuration(body) == Signed(false, ParseMagnitude(body))
    ensures ParseDuration("-" + body) == Signed(true, ParseMagnitude(body))
  {
    assert ("-" + body)[1..] == body;
  }


  /** Go's per-unit overflow test `v > 1<<63/unit` passes for an amount that fits. */
  lemma AmountFits(n: nat, u: string)
    requires u in UnitMap && n * UnitMap[u] <= TwoTo63
    ensures n <= TwoTo63 / UnitMap[u] && n <= TwoTo63
  {
    assert UnitMap.Keys == {"ns", "us", "\U{B5}s", "\U{3BC}s", "ms", "s", "m", "h"};
    var unit := UnitMap[u];
    if unit == Nanosecond {
    } else if unit == Microsecond {
      assert TwoTo63 / unit == 9223372036854775;
    } else if unit == Millisecond {
      assert TwoTo63 / unit == 9223372036854;
    } else if unit == Second {
      assert TwoTo63 / unit == 9223372036;
    } else if unit == Minute {
      assert TwoTo63 / unit == 153722867;
    } else {
      assert unit == Hour;
      assert TwoTo63 / unit == 2562047;
    }
  }

  /** A duration that does not start with a sign or a digit is rejected. */
  lemma ParseRejectsNonNumeric(s: string)
    requires s != [] && !IsDigit(s[0]) && s[0] != '-' && s[0] != '+'
    ensures ParseDuration(s) == None
  {
  }

  /** Groups whose last character is a digit leave the final amount without a unit. */
  lemma {:induction false} TrailingDigitRejectedGroups(s: string, d: nat)
    requires d <= TwoTo63 && s != [] && IsDigit(s[|s| - 1])
    ensures ParseGroups(s, d) == None
  {
    match NextGroup(s)
    case None =>
    case Some(g) =>
      assert g.rest[|g.rest| - 1] == s[|s| - 1];
      if g.amount <= TwoTo63 / g.unit && Accumulate(d, g) <= TwoTo63 {
        TrailingDigitRejectedGroups(g.rest, Accumulate(d, g));
      }
  }

  /**
    A duration ending in a digit, other than a signed or unsigned "0", has
    no unit on its final amount and is rejected.
   */
  lemma TrailingDigitRejected(s: string)
    requires s != [] && IsDigit(s[|s| - 1]) && s != "0" && s != "-0" && s != "+0"
    ensures ParseDuration(s) == None
  {
    var signed := s[0] == '-' || s[0] == '+';
    var body := if signed then s[1..] else s;
    if body != [] {
      assert body[|body| - 1] == s[|s| - 1];
      TrailingDigitRejectedGroups(body, 0);
    }
  }

  /** Whole seconds below 2^32 fit in an int64 duration. */
  lemma SecondsFit(k: nat)
    requires k < TwoTo32
    ensures k * Second < TwoTo63
  {
    assert k * Second <= TwoTo32 * Second by {
      assert (TwoTo32 - k) * Second >= 0;
    }
  }

  /** A duration of exactly `k` seconds is `k` seconds, negated with it. */
  lemma NegatedSeconds(d: int, k: int)
    requires d == k * Second
    ensures -d == (-k) * Second
  {
  }

  /**
    A duration of exactly `k` seconds converts to `k` whole seconds, and to
    `2^32 + k` when `k` is negative; at 2^32 seconds and beyond it wraps.
   */
  lemma WholeSecondsOfSeconds(d: int, k: int)
    requires d == k * Second
    ensures 0 <= k < TwoTo32 ==> WholeSeconds(d) == k
    ensures -TwoTo32 < k < 0 ==> WholeSeconds(d) == TwoTo32 + k
    ensures k >= 0 ==> WholeSeconds(d) == k % TwoTo32
  {
    if k >= 0 {
      assert TruncDiv(d, Second) == k;
    } else {
      assert -d == (-k) * Second;
      assert TruncDiv(d, Second) == -((-k) * Second / Second) == k;
    }
  }

  /** `n` units making exactly `k` seconds, negated: within range, and `2^32 - k` whole seconds. */
  lemma NegativeSecondsAmount(n: nat, u: string, k: nat)
    requires u in UnitMap && n * UnitMap[u] == k * Second && 0 < k < TwoTo32
    ensures n * UnitMap[u] <= TwoTo63 && WholeSeconds(-(n * UnitMap[u])) == TwoTo32 - k
  {
    var d := n * UnitMap[u];
    SecondsFit(k);
    NegatedSeconds(d, k);
    WholeSecondsOfSeconds(-d, -(k as int));
  }

  /** "0", "+0" and "-0" are zero; a sign alone is rejected. */
  lemma ZeroDurations()
    ensures ParseDuration("0") == Some(0)
    ensures ParseDuration("+0") == Some(0)
    ensures ParseDuration("-0") == Some(0)
    ensures ParseDuration("+") == None && ParseDuration("-") == None
  {
    assert "+0"[1..] == "0" && "-0"[1..] == "0";
    assert "+"[1..] == [] && "-"[1..] == [];
  }

  /**
    The accumulator is a uint64 checked against 2^63 only after each
    addition: two groups of exactly 2^63 nanoseconds ("9223372036854775808ns"
    twice) add up to 2^64, which wraps to 0, and the duration parses as zero.
   */
  lemma AccumulatorWraps(n: nat, u: string, unit: nat)
    requires u in UnitMap && UnitMap[u] == unit && n * unit == TwoTo63
    ensures ParseDuration(Decimal(n) + u + Decimal(n) + u) == Some(0)
  {
    var group := Decimal(n) + u;
    var body := group + group;
    assert Decimal(n) + u + Decimal(n) + u == body;
    assert group[0] == Decimal(n)[0];
    assert ParseGroups(group, TwoTo63) == Some(0) by {
      GroupWraps(n, u, unit, [], TwoTo63);
      assert group + [] == group;
    }
    assert ParseGroups(body, 0) == Some(0) by {
      GroupAdds(n, u, unit, group, 0, TwoTo63);
    }
    assert body[0] == Decimal(n)[0] && |body| > 1;
    BodyWithSign(body);
  }

  /** "<h>h<m>m<s>s" adds up its three groups, when the sum fits an int64. */
  lemma HoursMinutesSeconds(h: nat, m: nat, sec: nat)
    requires h * Hour + m * Minute + sec * Second < TwoTo63
    ensures ParseDuration(Decimal(h) + "h" + (Decimal(m) + "m" + (Decimal(sec) + "s"))) ==
      Some(h * Hour + m * Minute + sec * Second)
  {
    var seconds := Decimal(sec) + "s";
    var minutes := Decimal(m) + "m" + seconds;
    var body := Decimal(h) + "h" + minutes;
    var t1 := h * Hour;
    var t2 := t1 + m * Minute;
    var t3 := t2 + sec * Second;
    NatProduct(h, Hour);
    NatProduct(m, Minute);
    NatProduct(sec, Second);
    assert ParseGroups(seconds, t2) == Some(t3) by {
      GroupAdds(sec, "s", Second, [], t2, t3);
      assert seconds + [] == seconds;
    }
    assert ParseGroups(minutes, t1) == Some(t3) by {
      assert minutes[0] == Decimal(m)[0] && seconds[0] == Decimal(sec)[0];
      GroupAdds(m, "m", Minute, seconds, t1, t2);
    }
    assert ParseGroups(body, 0) == Some(t3) by {
      assert minutes[0] == Decimal(m)[0];
      GroupAdds(h, "h", Hour, minutes, 0, t1);
    }
    assert body[0] == Decimal(h)[0] && |body| > 1;
    assert ParseMagnitude(body) == Some(t3);
    BodyWithSign(body);
  }

  /** "3h47m16s" is 13636 seconds. */
  lemma HoursMinutesSecondsExample()
    ensures ParseDuration("3h47m16s") == Some(13636 * Second)
  {
    assert Decimal(3) == "3" && Decimal(47) == "47" && Decimal(16) == "16";
    assert "3" + "h" + ("47" + "m" + ("16" + "s")) == "3h47m16s";
    HoursMinutesSeconds(3, 47, 16);
  }
}
