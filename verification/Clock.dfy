/**
 * Time as people say it: from a reading of the wall clock to an instant, and
 * durations, said and read back.
 */
module Clock {
  import opened Wrappers
  import opened Text

  // ── The zone's clock ──────────────────────────────────────────────────────

  const MINUTE := 60_000

  /** How far a zone's clock is ahead at an instant, both in milliseconds. */
  type Zone = int -> int

  /** What the clock reads, to the minute, as if it were UTC. */
  function Reading(zone: Zone, at: int): int {
    (at + zone(at)) / MINUTE * MINUTE
  }

  ghost predicate WholeMinutes(zone: Zone) {
    forall t :: zone(t) % MINUTE == 0
  }

  /** No offset is larger than this. */
  ghost predicate Bounded(zone: Zone, reach: int) {
    forall t :: -reach <= zone(t) <= reach
  }

  /** One change at most near a time: one offset before it, another from it on. */
  ghost predicate Changes(zone: Zone, near: int, reach: int, change: int, before: int, after: int) {
    forall t :: near - reach <= t <= near + reach ==> zone(t) == if t < change then before else after
  }

  ghost predicate Exists(zone: Zone, wall: int) {
    exists t :: t + zone(t) == wall
  }

  /** What two corrections come to. */
  function Corrected(zone: Zone, wall: int): int {
    wall - zone(wall - zone(wall))
  }

  method ZonedTime(zone: Zone, wall: int) returns (ts: int)
    requires WholeMinutes(zone) && wall % MINUTE == 0
    ensures ts == Corrected(zone, wall)
  {
    ts := wall;
    for i := 0 to 2
      invariant ts == if i == 0 then wall else if i == 1 then wall - zone(wall) else Corrected(zone, wall)
    {
      assert zone(wall) % MINUTE == 0 && zone(ts) % MINUTE == 0;
      var drift := wall - Reading(zone, ts);
      assert drift == wall - ts - zone(ts);
      if drift == 0 {
        break;
      }
      ts := ts + drift;
    }
  }

  lemma InReach(zone: Zone, wall: int, reach: int, change: int, before: int, after: int, x: int)
    requires Bounded(zone, reach) && Changes(zone, wall, reach, change, before, after)
    ensures var t := wall - zone(x);
            zone(t) == if t < change then before else after
    ensures zone(wall) == if wall < change then before else after
  {
    assert -reach <= zone(x) <= reach;
  }

  /** Two corrections find an instant that reads the time asked for, first or
      second time round, exactly when there is one. */
  lemma FindsEveryTime(zone: Zone, wall: int, reach: int, change: int, before: int, after: int)
    requires Bounded(zone, reach) && Changes(zone, wall, reach, change, before, after)
    ensures var at := Corrected(zone, wall);
            at + zone(at) == wall <==> Exists(zone, wall)
  {
    InReach(zone, wall, reach, change, before, after, wall);
    InReach(zone, wall, reach, change, before, after, wall - zone(wall));
    if t :| t + zone(t) == wall {
      InReach(zone, wall, reach, change, before, after, t);
    }
  }

  /** Where there are two, it is the earlier one if the time, taken as UTC, comes before the change. */
  lemma PicksOfTwo(zone: Zone, wall: int, reach: int, change: int, before: int, after: int, first: int, second: int)
    requires Bounded(zone, reach) && Changes(zone, wall, reach, change, before, after)
    requires first + zone(first) == wall == second + zone(second) && first < second
    ensures Corrected(zone, wall) == if wall < change then first else second
  {
    InReach(zone, wall, reach, change, before, after, wall);
    InReach(zone, wall, reach, change, before, after, first);
    InReach(zone, wall, reach, change, before, after, second);
  }

  /** A time the clocks skipped is missed by exactly what they skipped: early if
      the time, taken as UTC, comes before the change, otherwise late. */
  lemma MissesByTheGap(zone: Zone, wall: int, reach: int, change: int, before: int, after: int)
    requires Bounded(zone, reach) && Changes(zone, wall, reach, change, before, after)
    requires !Exists(zone, wall)
    ensures var at := Corrected(zone, wall);
            at + zone(at) == if wall < change then wall - (after - before) else wall + (after - before)
    ensures before < after
  {
    InReach(zone, wall, reach, change, before, after, wall);
    InReach(zone, wall, reach, change, before, after, wall - zone(wall));
  }

  const HOUR := 60 * MINUTE

  /** Two changes of an hour each, half a day apart: thirteen hours ahead, then twelve, then eleven. */
  function TwoChanges(t: int): int {
    if t < -11 * HOUR - 30 * MINUTE then 13 * HOUR else if t < 0 then 12 * HOUR else 11 * HOUR
  }

  /** Were the clocks to change twice within the hours a correction spans, a time that exists could be missed. */
  lemma TwoChangesCanMiss()
    ensures Bounded(TwoChanges, 13 * HOUR) && WholeMinutes(TwoChanges)
    ensures Exists(TwoChanges, 0) && Corrected(TwoChanges, 0) + TwoChanges(Corrected(TwoChanges, 0)) == HOUR
  {
    assert -13 * HOUR + TwoChanges(-13 * HOUR) == 0;
  }

  // ── Durations ─────────────────────────────────────────────────────────────

  /** Thousandths of a second in a unit. A word the table's own prototype answers for is no number at all. */
  datatype Unit = Ms(ms: int) | Poison | Unknown

  function UnitMs(name: string): Unit {
    if name in {"s", "sec", "secs", "second", "seconds"} then Ms(1_000)
    else if name in {"m", "min", "mins", "minute", "minutes"} then Ms(60_000)
    else if name in {"h", "hr", "hrs", "hour", "hours"} then Ms(3_600_000)
    else if name in {"d", "day", "days"} then Ms(86_400_000)
    else if name in {"w", "week", "weeks"} then Ms(604_800_000)
    else if name == "constructor" then Poison
    else Unknown
  }

  predicate IsDigit(c: char) {
    '0' <= c <= '9'
  }

  predicate IsLetter(c: char) {
    'a' <= c <= 'z' || 'A' <= c <= 'Z'
  }

  predicate IsSpace(c: char) {
    || 9 <= c as int <= 13
    || 0x2000 <= c as int <= 0x200a
    || c as int in {32, 0xa0, 0x1680, 0x2028, 0x2029, 0x202f, 0x205f, 0x3000, 0xfeff}
  }

  function Lower(s: string): string {
    seq(|s|, i requires 0 <= i < |s| => if 'A' <= s[i] <= 'Z' then ((s[i] as int) + 32) as char else s[i])
  }

  function Trim(s: string): (t: string)
    ensures |t| <= |s|
  {
    if s == "" then s
    else if IsSpace(s[0]) then Trim(s[1..])
    else if IsSpace(s[|s| - 1]) then Trim(s[..|s| - 1])
    else s
  }

  /** Where a run of one kind of character, from a position on, ends. */
  function RunEnd(s: string, i: nat, kind: char -> bool): (e: nat)
    requires i <= |s|
    ensures i <= e <= |s| && (e < |s| ==> !kind(s[e]))
    ensures forall k :: i <= k < e ==> kind(s[k])
    decreases |s| - i
  {
    if i == |s| || !kind(s[i]) then i else RunEnd(s, i + 1, kind)
  }

  function DigitValue(c: char): nat {
    if IsDigit(c) then c as int - '0' as int else 0
  }

  function WholeOf(digits: string): nat {
    if digits == "" then 0 else 10 * WholeOf(digits[..|digits| - 1]) + DigitValue(digits[|digits| - 1])
  }

  function FractionOf(digits: string): real {
    if digits == "" then 0.0 else (DigitValue(digits[0]) as real + FractionOf(digits[1..])) / 10.0
  }

  datatype Matched = Matched(number: real, unit: string, length: nat)

  /** Digits, perhaps a point and more digits, perhaps space, and letters, at the front. */
  function Match(s: string): (m: Option<Matched>)
    ensures m.Some? ==> 0 < m.value.length <= |s|
  {
    var d := RunEnd(s, 0, IsDigit);
    if d == 0 then None
    else
      var f := if d + 1 < |s| && s[d] == '.' && IsDigit(s[d + 1]) then RunEnd(s, d + 1, IsDigit) else d;
      var w := RunEnd(s, f, IsSpace);
      var l := RunEnd(s, w, IsLetter);
      if l == w then None
      else
        var fraction := if f > d then FractionOf(s[d + 1..f]) else 0.0;
        Some(Matched(WholeOf(s[..d]) as real + fraction, s[w..l], l))
  }

  function Tens(n: nat): nat {
    if n == 0 then 1 else 10 * Tens(n - 1)
  }

  lemma {:induction false} WholeFromFront(digits: string)
    requires digits != ""
    ensures WholeOf(digits) == DigitValue(digits[0]) * Tens(|digits| - 1) + WholeOf(digits[1..])
  {
    hide DigitValue;
    if |digits| > 1 {
      var front := digits[..|digits| - 1];
      WholeFromFront(front);
      assert digits[1..][..|digits| - 2] == front[1..];
      TenTimes(DigitValue(digits[0]), Tens(|front| - 1));
    } else {
      assert digits[1..] == "" == digits[..0];
    }
  }

  lemma TenTimes(a: nat, b: nat)
    ensures 10 * (a * b) == a * (10 * b)
  {
  }

  lemma TakenDown(first: real, rest: real, tens: real)
    ensures (first + rest) / 10.0 * (10.0 * tens) == first * tens + rest * tens
  {
    assert (first + rest) / 10.0 * 10.0 == first + rest;
  }

  lemma RealProduct(a: nat, b: nat)
    ensures a as real * b as real == (a * b) as real
  {
  }

  predicate IsSoManyDown(fraction: real, tens: nat, whole: nat) {
    fraction * tens as real == whole as real
  }

  lemma OneDigitMore(first: nat, rest: real, tens: nat, whole: nat)
    requires IsSoManyDown(rest, tens, whole)
    ensures IsSoManyDown((first as real + rest) / 10.0, 10 * tens, first * tens + whole)
  {
    assert (10 * tens) as real == 10.0 * tens as real;
    TakenDown(first as real, rest, tens as real);
    RealProduct(first, tens);
  }

  lemma NoDigits()
    ensures IsSoManyDown(0.0, 1, 0)
  {
  }

  /** The digits after a point are the same number taken so many places down. */
  lemma {:induction false} FractionIsWholeTakenDown(digits: string)
    ensures IsSoManyDown(FractionOf(digits), Tens(|digits|), WholeOf(digits))
  {
    hide DigitValue, IsDigit, IsSoManyDown;
    if digits == "" {
      NoDigits();
    } else {
      FractionIsWholeTakenDown(digits[1..]);
      WholeFromFront(digits);
      OneDigitMore(DigitValue(digits[0]), FractionOf(digits[1..]), Tens(|digits| - 1), WholeOf(digits[1..]));
    }
  }

  /** The units make one another up, and their long names are theirs. */
  lemma UnitsAgree()
    ensures UnitMs("s") == Ms(1000) && UnitMs("m") == Ms(60 * UnitMs("s").ms) && UnitMs("h") == Ms(60 * UnitMs("m").ms)
    ensures UnitMs("d") == Ms(24 * UnitMs("h").ms) && UnitMs("w") == Ms(7 * UnitMs("d").ms)
    ensures UnitMs("s") == UnitMs("sec") == UnitMs("secs") == UnitMs("second") == UnitMs("seconds")
    ensures UnitMs("m") == UnitMs("min") == UnitMs("mins") == UnitMs("minute") == UnitMs("minutes")
    ensures UnitMs("h") == UnitMs("hr") == UnitMs("hrs") == UnitMs("hour") == UnitMs("hours")
    ensures UnitMs("d") == UnitMs("day") == UnitMs("days")
    ensures UnitMs("w") == UnitMs("week") == UnitMs("weeks")
  {
  }

  /** A sum that may have stopped being a number. */
  datatype Amount = Amount(ms: real) | NaN

  function Add(total: Amount, number: real, unit: Unit): Amount {
    if total.Amount? && unit.Ms? then Amount(total.ms + number * unit.ms as real) else NaN
  }

  /** The durations at the front of a text added up, and what follows them. */
  function DurationOf(text: string, total: Amount): (Amount, string)
    decreases |text|
  {
    match Match(text)
    case None => (total, text)
    case Some(m) =>
      var unit := UnitMs(Lower(m.unit));
      if unit.Unknown? then (total, text)
      else
        var rest := Trim(text[m.length..]);
        if Match(rest).None? then (Add(total, m.number, unit), rest)
        else DurationOf(rest, Add(total, m.number, unit))
  }

  method ReadDuration(text: string) returns (total: Amount, rest: string)
    ensures (total, rest) == DurationOf(text, Amount(0.0))
  {
    total, rest := Amount(0.0), text;
    while true
      invariant DurationOf(rest, total) == DurationOf(text, Amount(0.0))
      decreases |rest|
    {
      var m := Match(rest);
      if m.None? {
        break;
      }
      var unit := UnitMs(Lower(m.value.unit));
      if unit.Unknown? {
        break;
      }
      total := Add(total, m.value.number, unit);
      rest := Trim(rest[m.value.length..]);
      if Match(rest).None? {
        break;
      }
    }
  }

  /** The units read off the front of a text, in the order they are added up. */
  function Units(text: string): seq<string>
    decreases |text|
  {
    match Match(text)
    case None => []
    case Some(m) =>
      if UnitMs(Lower(m.unit)).Unknown? then []
      else
        var rest := Trim(text[m.length..]);
        [Lower(m.unit)] + if Match(rest).None? then [] else Units(rest)
  }

  /** The sum stops being a number if and only if one of the units read is the
      name of what every object inherits, `constructor` in any letter case. */
  lemma {:induction false} SumIsNoNumber(text: string, total: Amount)
    ensures DurationOf(text, total).0.NaN? <==> total.NaN? || "constructor" in Units(text)
    decreases |text|
  {
    hide Match, Lower, Trim;
    if Match(text).Some? && !UnitMs(Lower(Match(text).value.unit)).Unknown? {
      var m := Match(text).value;
      var rest := Trim(text[m.length..]);
      if Match(rest).Some? {
        SumIsNoNumber(rest, Add(total, m.number, UnitMs(Lower(m.unit))));
      }
    }
  }

  lemma ConstructorMatches()
    ensures Match("5 constructor").Some?
    ensures Match("5 constructor").value.unit == "constructor" && Match("5 constructor").value.length == 13
  {
    var text := "5 constructor";
    hide RunEnd, WholeOf, FractionOf;
    RunEndsAt(text, 0, IsDigit, 1);
    RunEndsAt(text, 1, IsSpace, 2);
    RunEndsAt(text, 2, IsLetter, 13);
    assert text[2..13] == "constructor";
  }

  lemma LowerStays(s: string)
    requires forall i :: 0 <= i < |s| ==> !('A' <= s[i] <= 'Z')
    ensures Lower(s) == s
  {
  }

  lemma ConstructorPoisons()
    ensures UnitMs("constructor") == Poison
  {
  }

  lemma LastUnit(text: string, total: Amount)
    requires Match(text).Some? && Trim(text[Match(text).value.length..]) == ""
    requires UnitMs(Lower(Match(text).value.unit)) == Poison
    ensures DurationOf(text, total) == (NaN, "")
  {
    hide Match, Lower, Trim, UnitMs;
    NothingMatches();
  }

  /** As `5 constructor` shows. */
  lemma ConstructorIsAUnit()
    ensures DurationOf("5 constructor", Amount(0.0)) == (NaN, "")
  {
    hide Match, Lower, Trim, UnitMs, DurationOf;
    ConstructorMatches();
    ConstructorPoisons();
    LowerStays("constructor");
    NothingMatches();
    var text := "5 constructor";
    assert text[13..] == "";
    LastUnit(text, Amount(0.0));
  }

  // ── Said ──────────────────────────────────────────────────────────────────

  type SaidUnit = u: char | u in {'d', 'h', 'm', 's'} witness 's'

  datatype Part = Part(count: nat, unit: SaidUnit)

  function Counted(count: nat, unit: SaidUnit): seq<Part> {
    if count > 0 then [Part(count, unit)] else []
  }

  function Seconds(ms: int): nat {
    if ms + 500 < 0 then 0 else (ms + 500) / 1000
  }

  /** The units of a duration that are not nought, the largest first. */
  function Parts(total: nat): seq<Part> {
    var days, hours := total / 86_400, total % 86_400 / 3_600;
    Counted(days, 'd') + Counted(hours, 'h') + Counted(total % 3_600 / 60, 'm') +
    if days == 0 && hours == 0 then Counted(total % 60, 's') else []
  }

  function Said(part: Part): string {
    Decimal(part.count) + [part.unit]
  }

  function Spelled(parts: seq<Part>): seq<string> {
    seq(|parts|, i requires 0 <= i < |parts| => Said(parts[i]))
  }

  /** At most two of them, a space between. */
  function Shown(parts: seq<Part>): string {
    if parts == [] then "0s"
    else if |parts| == 1 then Said(parts[0])
    else Said(parts[0]) + " " + Said(parts[1])
  }

  function FormatDuration(ms: int): string {
    Shown(Parts(Seconds(ms)))
  }

  lemma SpelledAdds(parts: seq<Part>, count: nat, unit: SaidUnit)
    ensures Spelled(parts + Counted(count, unit)) ==
            Spelled(parts) + if count > 0 then [Decimal(count) + [unit]] else []
  {
    hide Decimal;
  }

  lemma ShownIs(parts: seq<Part>)
    ensures var said := Spelled(parts);
            Shown(parts) == if |said| == 0 then "0s" else if |said| == 1 then said[0] else said[0] + " " + said[1]
  {
    hide Decimal;
  }

  method Format(ms: int) returns (said: string)
    ensures said == FormatDuration(ms)
  {
    hide Decimal, Seconds, Spelled, Shown, Counted;
    var total := Seconds(ms);
    var days, hours := total / 86_400, total % 86_400 / 3_600;
    var minutes, seconds := total % 3_600 / 60, total % 60;
    var parts: seq<string> := [];
    SpelledNone();
    SpelledAdds([], days, 'd');
    if days != 0 {
      parts := parts + [Decimal(days) + "d"];
    }
    ghost var shown := [] + Counted(days, 'd');
    assert parts == Spelled(shown);
    SpelledAdds(shown, hours, 'h');
    if hours != 0 {
      parts := parts + [Decimal(hours) + "h"];
    }
    shown := shown + Counted(hours, 'h');
    assert parts == Spelled(shown);
    SpelledAdds(shown, minutes, 'm');
    if minutes != 0 {
      parts := parts + [Decimal(minutes) + "m"];
    }
    shown := shown + Counted(minutes, 'm');
    assert parts == Spelled(shown);
    SpelledAdds(shown, seconds, 's');
    if seconds != 0 && days == 0 && hours == 0 {
      parts := parts + [Decimal(seconds) + "s"];
      shown := shown + Counted(seconds, 's');
    }
    CountedNone('s');
    assert shown == Parts(total);
    assert parts == Spelled(shown);
    ShownIs(shown);
    if |parts| == 0 {
      parts := ["0s"];
    }
    said := if |parts| == 1 then parts[0] else parts[0] + " " + parts[1];
  }

  lemma SpelledNone()
    ensures Spelled([]) == []
  {
  }

  lemma CountedNone(unit: SaidUnit)
    ensures Counted(0, unit) == []
  {
  }

  // ── Said and read back ────────────────────────────────────────────────────

  lemma {:induction false} RunEndsAt(s: string, i: nat, kind: char -> bool, e: nat)
    requires i <= e <= |s| && (e < |s| ==> !kind(s[e]))
    requires forall k :: i <= k < e ==> kind(s[k])
    ensures RunEnd(s, i, kind) == e
  {
  }

  lemma {:induction false} WholeOfDecimal(n: nat)
    ensures WholeOf(Decimal(n)) == n
  {
    if n < 10 {
      LastDigit("", n);
      assert "" + [Digit(n)] == [Digit(n)];
    } else {
      LastDigit(Decimal(n / 10), n % 10);
      hide WholeOf, DigitValue, Digit;
      WholeOfDecimal(n / 10);
    }
  }

  lemma LastDigit(front: string, d: nat)
    requires d < 10
    ensures WholeOf(front + [Digit(d)]) == 10 * WholeOf(front) + d
  {
    assert (front + [Digit(d)])[..|front|] == front;
    DigitIs(d);
    hide Digit, DigitValue;
  }

  lemma DigitIs(d: nat)
    requires d < 10
    ensures DigitValue(Digit(d)) == d
  {
  }

  function SecondsIn(u: SaidUnit): nat {
    if u == 'd' then 86_400 else if u == 'h' then 3_600 else if u == 'm' then 60 else 1
  }

  lemma UnitKnown(u: SaidUnit)
    ensures Lower([u]) == [u] && UnitMs([u]) == Ms(1000 * SecondsIn(u))
  {
  }

  lemma MatchesPart(part: Part, tail: string)
    requires tail == "" || tail[0] == ' '
    ensures Match(Said(part) + tail) == Some(Matched(part.count as real, [part.unit], |Said(part)|))
  {
    var digits, s := Decimal(part.count), Said(part) + tail;
    DecimalIsDigits(part.count);
    WholeOfDecimal(part.count);
    assert s == digits + [part.unit] + tail;
    hide Decimal, WholeOf, RunEnd;
    RunEndsAt(s, 0, IsDigit, |digits|);
    RunEndsAt(s, |digits|, IsSpace, |digits|);
    RunEndsAt(s, |digits|, IsLetter, |digits| + 1);
    assert s[..|digits|] == digits;
    assert s[|digits|..|digits| + 1] == [part.unit];
  }

  lemma TrimsSpace(part: Part)
    ensures Trim(" " + Said(part)) == Said(part)
  {
    DecimalIsDigits(part.count);
    assert (" " + Said(part))[1..] == Said(part);
    assert IsDigit(Said(part)[0]);
  }

  /** What one part leaves to read. */
  lemma ReadsPart(part: Part, tail: string, total: Amount)
    requires (tail == "" || tail[0] == ' ') && total.Amount?
    ensures var sum := Add(total, part.count as real, Ms(1000 * SecondsIn(part.unit)));
            DurationOf(Said(part) + tail, total) ==
            if Match(Trim(tail)).None? then (sum, Trim(tail)) else DurationOf(Trim(tail), sum)
  {
    MatchesPart(part, tail);
    UnitKnown(part.unit);
    assert (Said(part) + tail)[|Said(part)|..] == tail;
    hide Match, Said, Lower, UnitMs, Trim;
  }

  function PartSeconds(part: Part): nat {
    part.count * SecondsIn(part.unit)
  }

  /** The seconds the shown parts add up to. */
  function Heard(parts: seq<Part>): nat {
    if parts == [] then 0
    else
      PartSeconds(parts[0]) + if |parts| == 1 then 0 else PartSeconds(parts[1])
  }

  lemma NothingMatches()
    ensures Match("").None? && Trim("") == ""
  {
  }

  lemma AddsPart(total: nat, part: Part)
    ensures Add(Amount((1000 * total) as real), part.count as real, Ms(1000 * SecondsIn(part.unit))) ==
            Amount((1000 * (total + PartSeconds(part))) as real)
  {
    var c := part.count;
    match part.unit
    case 'd' => assert c as real * 86_400_000.0 == (c * 86_400_000) as real;
    case 'h' => assert c as real * 3_600_000.0 == (c * 3_600_000) as real;
    case 'm' => assert c as real * 60_000.0 == (c * 60_000) as real;
    case _ => assert c as real * 1_000.0 == (c * 1_000) as real;
  }

  lemma ReadsLast(part: Part, total: nat)
    ensures DurationOf(Said(part), Amount((1000 * total) as real)) ==
            (Amount((1000 * (total + PartSeconds(part))) as real), "")
  {
    assert Said(part) + "" == Said(part);
    hide *;
    NothingMatches();
    ReadsPart(part, "", Amount((1000 * total) as real));
    AddsPart(total, part);
  }

  lemma ReadsFirst(part: Part, next: Part)
    ensures DurationOf(Said(part) + (" " + Said(next)), Amount(0.0)) ==
            DurationOf(Said(next), Amount((1000 * PartSeconds(part)) as real))
  {
    var tail := " " + Said(next);
    assert Said(next) + "" == Said(next) && tail[0] == ' ';
    MatchesPart(next, "");
    TrimsSpace(next);
    var sum := Add(Amount(0.0), part.count as real, Ms(1000 * SecondsIn(part.unit)));
    assert sum == Amount((1000 * PartSeconds(part)) as real) by {
      hide *;
      assert (1000 * 0) as real == 0.0;
      AddsPart(0, part);
    }
    hide *;
    ReadsPart(part, tail, Amount(0.0));
  }

  lemma ShownReadsBack(parts: seq<Part>)
    ensures DurationOf(Shown(parts), Amount(0.0)) == (Amount((1000 * Heard(parts)) as real), "")
  {
    hide Said, DurationOf, SecondsIn;
    assert (1000 * 0) as real == 0.0;
    if parts == [] {
      assert Said(Part(0, 's')) == "0s" by {
        SaysNought();
      }
      ReadsLast(Part(0, 's'), 0);
    } else if |parts| == 1 {
      ReadsLast(parts[0], 0);
    } else {
      assert Shown(parts) == Said(parts[0]) + (" " + Said(parts[1]));
      ReadsFirst(parts[0], parts[1]);
      ReadsLast(parts[1], PartSeconds(parts[0]));
    }
  }

  lemma SaysNought()
    ensures Said(Part(0, 's')) == "0s"
  {
  }

  /** How much of a duration is heard: all of it below an hour, otherwise whole
      minutes, or whole hours once both days and hours are said. */
  lemma HeardIs(total: nat)
    ensures Heard(Parts(total)) ==
            if total < 3_600 then total
            else if total >= 86_400 && total % 86_400 >= 3_600 then total - total % 3_600
            else total - total % 60
  {
    var days, hours, minutes := total / 86_400, total % 86_400 / 3_600, total % 3_600 / 60;
    assert total == 86_400 * days + 3_600 * hours + total % 3_600 by {
      assert total % 86_400 % 3_600 == total % 3_600;
    }
    assert total % 3_600 == 60 * minutes + total % 60;
  }

  /** A duration that is said and read back, to the nearest second, loses less
      than an hour, nothing below an hour, and leaves nothing unread. */
  lemma SaidReadsBack(ms: int)
    ensures var total := Seconds(ms);
            if ms < -500 then total == 0 else 1000 * total - 500 <= ms < 1000 * total + 500
    ensures var total := Seconds(ms);
            exists heard: nat ::
              && DurationOf(FormatDuration(ms), Amount(0.0)) == (Amount((1000 * heard) as real), "")
              && heard <= total < heard + 3_600 && (total < 3_600 ==> heard == total)
              && (total > 0 ==> heard > 0)
  {
    HeardIs(Seconds(ms));
    ShownReadsBack(Parts(Seconds(ms)));
  }
}
