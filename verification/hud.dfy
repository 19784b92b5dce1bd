/**
  The head-up display: the text gauges, the play clock, the shaping of
  the equipment and upgrade panels to a fixed number of rows, and the
  index-wise write of display lines into a panel's text children.
 */
module Hud {
  import opened Wrappers

  /* ---------------------------------------------------------------------- */
  /* Repeated characters and character counts                                */
  /* ---------------------------------------------------------------------- */

  /** `String::from(c).repeat(n)`. */
  function Repeat(c: char, n: nat): (r: string)
    ensures |r| == n
    ensures forall i :: 0 <= i < n ==> r[i] == c
  {
    seq(n, _ => c)
  }

  /** Number of occurrences of `c` in `s`. */
  function CountChar(s: string, c: char): nat {
    if |s| == 0 then 0
    else (if s[0] == c then 1 else 0) + CountChar(s[1..], c)
  }

  lemma {:induction false} CountCharConcat(a: string, b: string, c: char)
    ensures CountChar(a + b, c) == CountChar(a, c) + CountChar(b, c)
  {
    if |a| == 0 {
      assert a + b == b;
    } else {
      assert (a + b)[1..] == a[1..] + b;
      CountCharConcat(a[1..], b, c);
    }
  }

  lemma {:induction false} CountCharRepeat(d: char, n: nat, c: char)
    ensures CountChar(Repeat(d, n), c) == if d == c then n else 0
  {
    if n > 0 {
      assert Repeat(d, n)[1..] == Repeat(d, n - 1);
      CountCharRepeat(d, n - 1, c);
    }
  }

  /* ---------------------------------------------------------------------- */
  /* Gauges                                                                  */
  /* ---------------------------------------------------------------------- */

  /**
    The number of filled cells of a gauge of `width` cells showing
    `current` out of `max`: `current` is clamped to `max`, and the count is
    the floor of `clamped * width / max`, characterised here without
    division.
   */
  function FillCount(current: nat, max: nat, width: nat): (k: nat)
    requires max > 0
    ensures k <= width
    ensures k * max <= Min(current, max) * width < (k + 1) * max
  {
    var clamped := Min(current, max);
    var k := clamped * width / max;
    FloorDivBounds(clamped, max, width, k);
    k
  }

  lemma FloorDivBounds(clamped: nat, max: nat, width: nat, k: nat)
    requires 0 < max && clamped <= max
    requires k == clamped * width / max
    ensures k <= width
    ensures k * max <= clamped * width < (k + 1) * max
  {
    assert k * max <= clamped * width < (k + 1) * max;
    MulMono(clamped, max, width);
    if k > width {
      MulMono(width + 1, k, max);
    }
  }

  /**
    The text gauge: all spaces when `max` is zero, otherwise filled cells
    `'|'` followed by empty cells `'.'`, always exactly `width` characters.
   */
  function Bar(current: nat, max: nat, width: nat): (r: string)
    ensures |r| == width
    ensures max == 0 ==> forall i :: 0 <= i < width ==> r[i] == ' '
    ensures max > 0 ==> forall i :: 0 <= i < width ==>
                          r[i] == if i < FillCount(current, max, width) then '|' else '.'
  {
    if max == 0 then
      Repeat(' ', width)
    else
      var bars := FillCount(current, max, width);
      Repeat('|', bars) + Repeat('.', width - bars)
  }

  /**
    A cell is filled exactly when the share of the gauge up to and
    including it, `(i + 1) / width`, does not exceed `min(current, max) / max`.
   */
  lemma {:induction false} BarCellFilled(current: nat, max: nat, width: nat, i: nat)
    requires max > 0
    requires i < width
    ensures Bar(current, max, width)[i] == '|' <==> (i + 1) * max <= Min(current, max) * width
    ensures Bar(current, max, width)[i] != '|' ==> Bar(current, max, width)[i] == '.'
  {
    var k := FillCount(current, max, width);
    if i < k {
      MulMono(i + 1, k, max);
    } else {
      MulMono(k + 1, i + 1, max);
    }
  }

  /** The gauge holds exactly `FillCount` bars and the rest are dots. */
  lemma BarCounts(current: nat, max: nat, width: nat)
    requires max > 0
    ensures CountChar(Bar(current, max, width), '|') == FillCount(current, max, width)
    ensures CountChar(Bar(current, max, width), '.') == width - FillCount(current, max, width)
  {
    var k := FillCount(current, max, width);
    CountCharConcat(Repeat('|', k), Repeat('.', width - k), '|');
    CountCharConcat(Repeat('|', k), Repeat('.', width - k), '.');
    CountCharRepeat('|', k, '|');
    CountCharRepeat('.', width - k, '|');
    CountCharRepeat('|', k, '.');
    CountCharRepeat('.', width - k, '.');
  }

  /** A zero maximum renders `width` spaces and nothing else. */
  lemma BarUnknownMax(current: nat, width: nat)
    ensures Bar(current, 0, width) == Repeat(' ', width)
    ensures CountChar(Bar(current, 0, width), ' ') == width
  {
    CountCharRepeat(' ', width, ' ');
  }

  /** At or above the maximum the gauge is full. */
  lemma BarFull(current: nat, max: nat, width: nat)
    requires 0 < max <= current
    ensures Bar(current, max, width) == Repeat('|', width)
  {
    assert FillCount(current, max, width) == width by {
      var k := FillCount(current, max, width);
      if k < width {
        MulMono(k + 1, width, max);
      }
    }
  }

  /** At zero the gauge is all dots. */
  lemma BarEmpty(max: nat, width: nat)
    requires max > 0
    ensures Bar(0, max, width) == Repeat('.', width)
  {
  }

  /**
    For a fixed maximum and width, raising `current` never empties a cell,
    so it never yields fewer bars.
   */
  lemma BarMonotone(c1: nat, c2: nat, max: nat, width: nat)
    requires c1 <= c2
    ensures forall i :: 0 <= i < width && Bar(c1, max, width)[i] == '|' ==> Bar(c2, max, width)[i] == '|'
    ensures CountChar(Bar(c1, max, width), '|') <= CountChar(Bar(c2, max, width), '|')
  {
    if max > 0 {
      forall i | 0 <= i < width && Bar(c1, max, width)[i] == '|'
        ensures Bar(c2, max, width)[i] == '|'
      {
        BarCellFilled(c1, max, width, i);
        BarCellFilled(c2, max, width, i);
        MulMono(Min(c1, max), Min(c2, max), width);
      }
      var k1 := FillCount(c1, max, width);
      var k2 := FillCount(c2, max, width);
      MulMono(Min(c1, max), Min(c2, max), width);
      if k1 > k2 {
        MulMono(k2 + 1, k1, max);
      }
      BarCounts(c1, max, width);
      BarCounts(c2, max, width);
    }
  }

  /** Cells of a turret's cooldown gauge, which shows `ticks` out of 10 on 10 cells. */
  const COOLDOWN_CELLS: nat := 10

  /** On the cooldown gauge each tick fills exactly one cell. */
  lemma CooldownGauge(ticks: nat)
    ensures forall i :: 0 <= i < COOLDOWN_CELLS ==>
              (Bar(ticks, COOLDOWN_CELLS, COOLDOWN_CELLS)[i] == '|' <==> i < Min(ticks, COOLDOWN_CELLS))
    ensures CountChar(Bar(ticks, COOLDOWN_CELLS, COOLDOWN_CELLS), '|') == Min(ticks, COOLDOWN_CELLS)
  {
    var k := FillCount(ticks, COOLDOWN_CELLS, COOLDOWN_CELLS);
    assert k == Min(ticks, COOLDOWN_CELLS);
    BarCounts(ticks, COOLDOWN_CELLS, COOLDOWN_CELLS);
  }

  /* ---------------------------------------------------------------------- */
  /* Play clock                                                              */
  /* ---------------------------------------------------------------------- */

  /**
    Whole elapsed seconds split into minutes and seconds. Defined by
    repeated subtraction so that no division reaches the clock proofs;
    `ClockPartsDivMod` shows it is the source's `/ 60` and `% 60`.
   */
  function ClockParts(secs: nat): (parts: (nat, nat))
    ensures parts.1 < 60
    ensures 60 * parts.0 + parts.1 == secs
  {
    if secs < 60 then (0, secs)
    else
      var rest := ClockParts(secs - 60);
      (rest.0 + 1, rest.1)
  }

  lemma ClockPartsDivMod(secs: nat)
    ensures ClockParts(secs) == (secs / 60, secs % 60)
  {
    var parts := ClockParts(secs);
    assert 60 * parts.0 + parts.1 == secs && parts.1 < 60;
  }

  predicate IsDigit(c: char) {
    '0' <= c <= '9'
  }

  function DigitChar(d: nat): (c: char)
    requires d < 10
    ensures IsDigit(c)
  {
    (('0' as int) + d) as char
  }

  function DigitValue(c: char): (d: nat)
    requires IsDigit(c)
    ensures d < 10
  {
    (c as int) - ('0' as int)
  }

  /** `{}` on an unsigned integer: its decimal digits, most significant first. */
  function Decimal(n: nat): (s: string)
    ensures 1 <= |s|
    ensures n < 10 <==> |s| == 1
    ensures n < 100 ==> |s| <= 2
    decreases n
  {
    if n < 10 then [DigitChar(n)] else Decimal(n / 10) + [DigitChar(n % 10)]
  }

  /**
    The value of a string of decimal digits, `None` when some character is
    not a digit; the empty string reads as 0.
   */
  function ParseDigits(s: string): Option<nat> {
    if |s| == 0 then Some(0)
    else if !IsDigit(s[|s| - 1]) then None
    else
      match ParseDigits(s[..|s| - 1])
      case None => None
      case Some(v) => Some(10 * v + DigitValue(s[|s| - 1]))
  }

  lemma {:induction false} DecimalRoundTrip(n: nat)
    ensures ParseDigits(Decimal(n)) == Some(n)
    decreases n
  {
    var s := Decimal(n);
    if n < 10 {
      assert s[..|s| - 1] == [];
    } else {
      assert s[..|s| - 1] == Decimal(n / 10);
      DecimalRoundTrip(n / 10);
    }
  }

  /** Only zero itself is written with a leading `0`. */
  lemma {:induction false} DecimalNoLeadingZero(n: nat)
    ensures n > 0 ==> Decimal(n)[0] != '0'
    decreases n
  {
    if n >= 10 {
      DecimalNoLeadingZero(n / 10);
      assert Decimal(n)[0] == Decimal(n / 10)[0];
    }
  }

  lemma {:induction false} ParseLeadingZero(s: string)
    ensures ParseDigits(['0'] + s) == ParseDigits(s)
    decreases |s|
  {
    var t := ['0'] + s;
    if |s| == 0 {
      assert t[..|t| - 1] == [];
    } else {
      assert t[..|t| - 1] == ['0'] + s[..|s| - 1];
      ParseLeadingZero(s[..|s| - 1]);
    }
  }

  lemma {:induction false} ParseLeadingZeros(k: nat, s: string)
    ensures ParseDigits(Repeat('0', k) + s) == ParseDigits(s)
  {
    if k > 0 {
      assert Repeat('0', k) + s == ['0'] + (Repeat('0', k - 1) + s);
      ParseLeadingZero(Repeat('0', k - 1) + s);
      ParseLeadingZeros(k - 1, s);
    } else {
      assert Repeat('0', k) + s == s;
    }
  }

  /** `{:0>w}`: right-aligned in a field of at least `width`, filled with zeros. */
  function ZeroPad(s: string, width: nat): (r: string)
    ensures |r| == Max(|s|, width)
    ensures r[|r| - |s|..] == s
    ensures forall i :: 0 <= i < |r| - |s| ==> r[i] == '0'
  {
    if |s| < width then Repeat('0', width - |s|) + s else s
  }

  /** Zero padding never changes the number the digits spell. */
  lemma ZeroPadRoundTrip(s: string, width: nat)
    ensures ParseDigits(ZeroPad(s, width)) == ParseDigits(s)
  {
    ParseLeadingZeros(Max(|s|, width) - |s|, s);
  }

  /** `{:0>2}` on a clock field: at least two digits, reading back as `n`. */
  function ClockField(n: nat): (r: string)
    ensures |r| >= 2
    ensures n < 100 ==> |r| == 2
    ensures ParseDigits(r) == Some(n)
  {
    DecimalRoundTrip(n);
    ParseLeadingZero(Decimal(n));
    if n < 10 then ['0'] + Decimal(n) else Decimal(n)
  }

  /** The clock field is the decimal zero-padded to width two. */
  lemma ClockFieldPadded(n: nat)
    ensures ClockField(n) == ZeroPad(Decimal(n), 2)
  {
    if n < 10 {
      assert Repeat('0', 1) == ['0'];
    }
  }

  /** Padding only ever adds a zero in front of a single digit. */
  lemma ClockFieldNoLeadingZero(n: nat)
    ensures n >= 10 ==> ClockField(n) == Decimal(n) && ClockField(n)[0] != '0'
  {
    DecimalNoLeadingZero(n);
  }

  /** `{:0>2}:{:0>2}`: minutes and seconds as clock fields around a colon. */
  function ClockOf(minutes: nat, seconds: nat): (t: string)
    requires seconds < 60
    ensures |t| >= 5
    ensures t[|t| - 3] == ':'
    ensures ParseDigits(t[|t| - 2..]) == Some(seconds)
  {
    var mm, ss := ClockField(minutes), ClockField(seconds);
    ClockSplit(mm, ss);
    SecondsField(mm, ss, seconds);
    mm + ":" + ss
  }

  /** Below a hundred minutes the clock is exactly `MM:SS`; from ten minutes on it has no padding zero. */
  lemma ClockOfWidth(minutes: nat, seconds: nat)
    requires seconds < 60
    ensures minutes < 100 ==> |ClockOf(minutes, seconds)| == 5
    ensures minutes >= 10 ==> ClockOf(minutes, seconds)[0] != '0'
  {
    var mm, ss := ClockField(minutes), ClockField(seconds);
    ClockSplit(mm, ss);
    ClockFieldNoLeadingZero(minutes);
    assert (mm + ":" + ss)[0] == mm[0];
  }

  lemma SecondsField(mm: string, ss: string, seconds: nat)
    requires |ss| == 2 && ParseDigits(ss) == Some(seconds)
    ensures var t := mm + ":" + ss; ParseDigits(t[|t| - 2..]) == Some(seconds)
  {
    ClockSplit(mm, ss);
  }

  /**
    The clock shown on the status panel, `MM:SS`, minutes widening past 99;
    the two digits after the colon read back as `secs % 60`.
   */
  function ClockText(secs: nat): (t: string)
    ensures |t| >= 5
    ensures t[|t| - 3] == ':'
    ensures ParseDigits(t[|t| - 2..]) == Some(ClockParts(secs).1)
  {
    var parts := ClockParts(secs);
    ClockOf(parts.0, parts.1)
  }

  /**
    The clock is exactly `MM:SS` for the first hundred minutes, and from ten
    minutes on its first digit is not a padding zero.
   */
  lemma ClockTextWidth(secs: nat)
    ensures secs < 6000 ==> |ClockText(secs)| == 5
    ensures secs >= 600 ==> ClockText(secs)[0] != '0'
  {
    var parts := ClockParts(secs);
    ClockOfWidth(parts.0, parts.1);
  }

  lemma ClockSplit(mm: string, ss: string)
    requires |ss| == 2
    ensures var t := mm + ":" + ss; |t| == |mm| + 3 && t[|t| - 3] == ':'
    ensures var t := mm + ":" + ss; t[..|t| - 3] == mm && t[|t| - 2..] == ss
  {
    var t := mm + ":" + ss;
    assert t[..|t| - 3] == mm;
    assert t[|t| - 2..] == ss;
  }

  /** Reads `digits ':' two digits` back as a number of seconds. */
  function ParseClock(t: string): Option<nat> {
    if |t| < 4 || t[|t| - 3] != ':' then None
    else
      var minutes := ParseDigits(t[..|t| - 3]);
      var seconds := ParseDigits(t[|t| - 2..]);
      if minutes.Some? && seconds.Some? then Some(60 * minutes.value + seconds.value) else None
  }

  /** The clock loses nothing: the displayed text reads back as the seconds. */
  lemma ClockRoundTrip(secs: nat)
    ensures ParseClock(ClockText(secs)) == Some(secs)
  {
    var parts := ClockParts(secs);
    ClockOfRoundTrip(parts.0, parts.1);
  }

  lemma ClockOfRoundTrip(minutes: nat, seconds: nat)
    requires seconds < 60
    ensures ParseClock(ClockOf(minutes, seconds)) == Some(60 * minutes + seconds)
  {
    ParseClockFields(ClockField(minutes), ClockField(seconds), minutes, seconds);
  }

  lemma ParseClockFields(mm: string, ss: string, minutes: nat, seconds: nat)
    requires |mm| >= 1 && |ss| == 2
    requires ParseDigits(mm) == Some(minutes) && ParseDigits(ss) == Some(seconds)
    ensures ParseClock(mm + ":" + ss) == Some(60 * minutes + seconds)
  {
    var t := mm + ":" + ss;
    ClockSplit(mm, ss);
    assert ParseDigits(t[..|t| - 3]) == Some(minutes);
    assert ParseDigits(t[|t| - 2..]) == Some(seconds);
  }

  /** The text before the colon reads back as the whole minutes, `secs / 60`. */
  lemma ClockTextMinutes(secs: nat)
    ensures var t := ClockText(secs); ParseDigits(t[..|t| - 3]) == Some(ClockParts(secs).0)
  {
    ClockRoundTrip(secs);
    var t := ClockText(secs);
    MinutesFromTotal(t, ClockParts(secs).0, ClockParts(secs).1, secs);
  }

  /** Knowing the total and the seconds field of a parsed clock fixes its minutes field. */
  lemma MinutesFromTotal(t: string, minutes: nat, seconds: nat, secs: nat)
    requires |t| >= 5 && t[|t| - 3] == ':'
    requires ParseClock(t) == Some(secs) && ParseDigits(t[|t| - 2..]) == Some(seconds)
    requires 60 * minutes + seconds == secs
    ensures ParseDigits(t[..|t| - 3]) == Some(minutes)
  {
  }

  /* ---------------------------------------------------------------------- */
  /* Panels                                                                  */
  /* ---------------------------------------------------------------------- */

  /** Text rows of the equipment and upgrade panels. */
  const PANEL_ROWS: nat := 10

  /** `Vec::resize_with(n, f)`: truncate to `n`, or extend with `fill`. */
  function Resize<T>(xs: seq<T>, n: nat, fill: T): (r: seq<T>)
    ensures |r| == n
    ensures forall i :: 0 <= i < n && i < |xs| ==> r[i] == xs[i]
    ensures forall i :: |xs| <= i < n ==> r[i] == fill
  {
    if n <= |xs| then xs[..n] else xs + seq(n - |xs|, _ => fill)
  }

  lemma ResizeIdempotent<T>(xs: seq<T>, n: nat, fill: T)
    ensures Resize(Resize(xs, n, fill), n, fill) == Resize(xs, n, fill)
  {
  }

  datatype UINode = Status | Equipment | Upgrades

  /**
    The lines a panel shows: the status lines as they are, the equipment
    and upgrade lines padded with empty strings or cut to `PANEL_ROWS`.
   */
  function PanelDisplays(node: UINode, status: seq<string>, equipment: seq<string>, upgrades: seq<string>)
    : (r: seq<string>)
    ensures node == Status ==> r == status
    ensures node != Status ==> |r| == PANEL_ROWS
    ensures node == Equipment ==> forall i :: 0 <= i < Min(|equipment|, PANEL_ROWS) ==> r[i] == equipment[i]
    ensures node == Upgrades ==> forall i :: 0 <= i < Min(|upgrades|, PANEL_ROWS) ==> r[i] == upgrades[i]
    ensures node == Equipment ==> forall i :: |equipment| <= i < PANEL_ROWS ==> r[i] == ""
    ensures node == Upgrades ==> forall i :: |upgrades| <= i < PANEL_ROWS ==> r[i] == ""
  {
    match node
    case Status => status
    case Equipment => Resize(equipment, PANEL_ROWS, "")
    case Upgrades => Resize(upgrades, PANEL_ROWS, "")
  }

  /**
    Writes `displays[i]` into the `i`-th child of a panel. A child is
    `Some(span)` when it carries a text span and `None` when it does not;
    children without a span, and children past the last display line, are
    left as they were.
   */
  method WriteDisplays(children: seq<Option<string>>, displays: seq<string>) returns (spans: seq<Option<string>>)
    ensures |spans| == |children|
    ensures forall i :: 0 <= i < |children| ==>
              spans[i] == if i < |displays| && children[i].Some? then Some(displays[i]) else children[i]
  {
    spans := children;
    var i := 0;
    while i < |displays|
      invariant 0 <= i <= |displays|
      invariant |spans| == |children|
      invariant forall j :: 0 <= j < |children| ==>
                  spans[j] == if j < i && children[j].Some? then Some(displays[j]) else children[j]
    {
      if i < |spans| && spans[i].Some? {
        spans := spans[i := Some(displays[i])];
      }
      i := i + 1;
    }
  }
}
