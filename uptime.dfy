/**
 * The uptime fields of `HealthServlet`'s health report: the seconds since the
 * servlet class was loaded, and the same span written as "Xd Yh Zm Ws".
 * Both clock readings are parameters.
 */
module Uptime {
  import opened JavaText

  const SecondsPerDay: int := 86400
  const SecondsPerHour: int := 3600
  const SecondsPerMinute: int := 60

  /** `(System.currentTimeMillis() - START_TIME) / 1000`: whole seconds, truncated toward zero
      as Java's `long` division does. */
  function UptimeSeconds(now: int, start: int): (r: int)
    ensures now >= start ==> r >= 0 && r * 1000 <= now - start < r * 1000 + 1000
    ensures now <= start ==> r <= 0 && r * 1000 >= now - start > r * 1000 - 1000
  {
    JavaDiv(now - start, 1000)
  }

  /** A clock that went back 1.5 s reports -1 s, not the floor -2 s. */
  lemma ClockBackTruncatesTowardZero(start: int)
    ensures UptimeSeconds(start - 1500, start) == -1
  {
  }

  /** The four numbers `formatUptime` prints. */
  datatype Span = Span(days: int, hours: int, minutes: int, seconds: int)

  /** `days = t / 86400`, `hours = (t % 86400) / 3600`, `minutes = (t % 3600) / 60`,
      `seconds = t % 60`, in Java's `long` arithmetic. */
  function SpanOf(total: int): Span
  {
    Span(JavaDiv(total, SecondsPerDay), JavaDiv(JavaRem(total, SecondsPerDay), SecondsPerHour),
         JavaDiv(JavaRem(total, SecondsPerHour), SecondsPerMinute), JavaRem(total, SecondsPerMinute))
  }

  /** The seconds a span stands for. */
  function Seconds(p: Span): int
  {
    p.days * SecondsPerDay + p.hours * SecondsPerHour + p.minutes * SecondsPerMinute + p.seconds
  }

  /** For a non-negative total the four numbers are in their ranges and add back up to it. */
  lemma SpanOfDecomposes(total: int)
    requires total >= 0
    ensures var p := SpanOf(total);
            && p.days >= 0 && 0 <= p.hours < 24 && 0 <= p.minutes < 60 && 0 <= p.seconds < 60
            && p.days <= total
            && Seconds(p) == total
  {
    Decompose(total);
  }

  lemma Decompose(t: int)
    requires t >= 0
    ensures var r1 := t % 86400;
            var r2 := t % 3600;
            && t == (t / 86400) * 86400 + (r1 / 3600) * 3600 + (r2 / 60) * 60 + t % 60
            && r1 / 3600 < 24
  {
    var d, r1 := t / 86400, t % 86400;
    var h, r2 := r1 / 3600, r1 % 3600;
    var hoursTotal := d * 24 + h;
    assert t == hoursTotal * 3600 + r2;
    DivModUnique(t, 3600, hoursTotal, r2);
    var m, s := r2 / 60, r2 % 60;
    var minutesTotal := hoursTotal * 60 + m;
    assert t == minutesTotal * 60 + s;
    DivModUnique(t, 60, minutesTotal, s);
  }

  /** Quotient and remainder are the only ones: a division with a remainder in `[0, m)`
      is the Euclidean one. */
  lemma DivModUnique(t: int, m: int, q: int, r: int)
    requires m > 0 && 0 <= r < m && t == q * m + r
    ensures t / m == q && t % m == r
  {
    var q', r' := t / m, t % m;
    assert (q - q') * m == r' - r;
    if q > q' {
      MulAtLeast(m, q - q');
    } else if q < q' {
      MulAtLeast(m, q' - q);
    }
  }

  /** One printed number with its unit letter. */
  function Component(value: int, unit: char): (r: string)
    ensures |r| >= 2 && r[|r| - 1] == unit && r[0] > ' '
  {
    var digits := IntToString(value);
    assert value < 0 ==> digits[0] == '-';
    digits + [unit]
  }

  /** A component followed by a space when it is shown, nothing otherwise. */
  function Lead(show: bool, component: string): string
  {
    if show then component + " " else ""
  }

  /** The text `formatUptime` builds before its final `trim()`: days, hours and minutes
      each followed by a space when they are positive, then the seconds, always. It starts
      with a digit or '-' and ends in 's', so `trim()` leaves it as it is. */
  function Layout(p: Span): (r: string)
    ensures r != [] && r[0] > ' ' && r[|r| - 1] == 's'
  {
    var cd, ch, cm, cs := Component(p.days, 'd'), Component(p.hours, 'h'), Component(p.minutes, 'm'),
                          Component(p.seconds, 's');
    var t3 := Lead(p.minutes > 0, cm) + cs;
    var t2 := Lead(p.hours > 0, ch) + t3;
    var t1 := Lead(p.days > 0, cd) + t2;
    FirstOfLead(p.minutes > 0, cm, cs);
    FirstOfLead(p.hours > 0, ch, t3);
    FirstOfLead(p.days > 0, cd, t2);
    t1
  }

  lemma FirstOfLead(show: bool, component: string, rest: string)
    requires component != [] && rest != [] && component[0] > ' ' && rest[0] > ' ' && rest[|rest| - 1] == 's'
    ensures (Lead(show, component) + rest)[0] > ' '
    ensures (Lead(show, component) + rest)[|Lead(show, component) + rest| - 1] == 's'
  {
  }

  /** `trim()` leaves the text as it is. */
  lemma TrimKeepsLayout(p: Span)
    ensures Trim(Layout(p)) == Layout(p)
  {
  }

  /** The trimmed text of a span. It never starts or ends with a space. */
  function FormatSpan(p: Span): (r: string)
    ensures r != [] && !TrimmedAway(r[0]) && !TrimmedAway(r[|r| - 1])
  {
    TrimKeepsLayout(p);
    Trim(Layout(p))
  }

  /** `formatUptime(totalSeconds)`. */
  function FormatUptime(total: int): string
  {
    FormatSpan(SpanOf(total))
  }

  // ---------------------------------------------------------------------
  // Reading the text back
  // ---------------------------------------------------------------------

  /** The seconds one unit letter stands for; 0 for any other character. */
  function UnitSeconds(unit: char): int
  {
    if unit == 'd' then SecondsPerDay
    else if unit == 'h' then SecondsPerHour
    else if unit == 'm' then SecondsPerMinute
    else if unit == 's' then 1
    else 0
  }

  /** The seconds a component such as "12h" stands for, if it is a number and a unit. */
  function ComponentValue(token: string): Option<int>
  {
    if |token| < 2 || UnitSeconds(token[|token| - 1]) == 0 then None
    else
      match ParseInteger(token[..|token| - 1], MinInt64, MaxInt64)
      case None => None
      case Some(n) => Some(n * UnitSeconds(token[|token| - 1]))
  }

  /** The total of a list of components. */
  function Total(tokens: seq<string>): Option<int>
  {
    if tokens == [] then Some(0)
    else
      match (ComponentValue(tokens[0]), Total(tokens[1..]))
      case (Some(a), Some(b)) => Some(a + b)
      case _ => None
  }

  /** A reader of the formatted text: split at the spaces and add the components up. */
  function ParseUptime(text: string): Option<int>
  {
    Total(SplitAll(text, ' '))
  }

  /** A shown component as a one-element list, a hidden one as none. */
  function Shown(show: bool, component: string): seq<string>
  {
    if show then [component] else []
  }

  /** The components of a span as `formatUptime` prints them, in order. */
  function Components(p: Span): seq<string>
  {
    Shown(p.days > 0, Component(p.days, 'd'))
    + (Shown(p.hours > 0, Component(p.hours, 'h'))
    + (Shown(p.minutes > 0, Component(p.minutes, 'm'))
    + [Component(p.seconds, 's')]))
  }

  /** The components are never an empty list, and none holds a space. */
  lemma ComponentsAreFields(p: Span)
    ensures Components(p) != []
    ensures forall i :: 0 <= i < |Components(p)| ==> ' ' !in Components(p)[i]
  {
    NoSpaceInComponent(p.days, 'd');
    NoSpaceInComponent(p.hours, 'h');
    NoSpaceInComponent(p.minutes, 'm');
    NoSpaceInComponent(p.seconds, 's');
  }

  lemma NoSpaceInComponent(value: int, unit: char)
    requires unit != ' '
    ensures ' ' !in Component(value, unit)
  {
    var s := IntToString(value);
    assert value < 0 ==> s[0] == '-';
    assert forall i :: 0 <= i < |s| ==> s[i] != ' ';
  }

  /** Putting a component, if shown, and a space in front of a join. */
  lemma JoinLead(show: bool, component: string, rest: seq<string>)
    requires rest != []
    ensures JoinWith(Shown(show, component) + rest, ' ') == Lead(show, component) + JoinWith(rest, ' ')
  {
    var all := Shown(show, component) + rest;
    if show {
      assert all[0] == component && all[1..] == rest;
    } else {
      assert all == rest;
    }
  }

  /** The text is the components joined by single spaces. */
  lemma LayoutJoinsComponents(p: Span)
    ensures Layout(p) == JoinWith(Components(p), ' ')
  {
    var cd, ch, cm, cs := Component(p.days, 'd'), Component(p.hours, 'h'), Component(p.minutes, 'm'),
                          Component(p.seconds, 's');
    var t3 := [cs];
    var t2 := Shown(p.minutes > 0, cm) + t3;
    var t1 := Shown(p.hours > 0, ch) + t2;
    JoinLead(p.minutes > 0, cm, t3);
    JoinLead(p.hours > 0, ch, t2);
    JoinLead(p.days > 0, cd, t1);
  }

  /** The seconds a printed component stands for. */
  lemma ComponentValueOf(value: int, unit: char)
    requires 0 <= value <= MaxInt64 && UnitSeconds(unit) != 0
    ensures ComponentValue(Component(value, unit)) == Some(value * UnitSeconds(unit))
  {
    var token := Component(value, unit);
    assert token[..|token| - 1] == IntToString(value);
    ParseIntegerOfIntToString(value, MinInt64, MaxInt64);
  }

  /** A shown component adds its seconds to the total of the rest. */
  lemma TotalLead(show: bool, component: string, v: int, rest: seq<string>, x: int)
    requires ComponentValue(component) == Some(v) && Total(rest) == Some(x)
    ensures Total(Shown(show, component) + rest) == Some((if show then v else 0) + x)
  {
    var all := Shown(show, component) + rest;
    if show {
      assert all[0] == component && all[1..] == rest;
    } else {
      assert all == rest;
    }
  }

  /** Four components, the first three possibly hidden, add up to the shown values. */
  lemma TotalOfShown(sd: bool, sh: bool, sm: bool, cd: string, ch: string, cm: string, cs: string,
                     vd: int, vh: int, vm: int, vs: int)
    requires ComponentValue(cd) == Some(vd) && ComponentValue(ch) == Some(vh)
    requires ComponentValue(cm) == Some(vm) && ComponentValue(cs) == Some(vs)
    ensures Total(Shown(sd, cd) + (Shown(sh, ch) + (Shown(sm, cm) + [cs])))
         == Some((if sd then vd else 0) + (if sh then vh else 0) + (if sm then vm else 0) + vs)
  {
    var t3 := [cs];
    assert Total(t3) == Some(vs) by {
      assert t3[1..] == [];
    }
    var t2 := Shown(sm, cm) + t3;
    var t1 := Shown(sh, ch) + t2;
    TotalLead(sm, cm, vm, t3, vs);
    TotalLead(sh, ch, vh, t2, (if sm then vm else 0) + vs);
    TotalLead(sd, cd, vd, t1, (if sh then vh else 0) + (if sm then vm else 0) + vs);
  }

  /** The components of a span add up to its seconds. */
  lemma TotalOfComponents(p: Span)
    requires 0 <= p.days <= MaxInt64 && 0 <= p.hours <= MaxInt64
    requires 0 <= p.minutes <= MaxInt64 && 0 <= p.seconds <= MaxInt64
    ensures Total(Components(p)) == Some(Seconds(p))
  {
    ComponentValueOf(p.days, 'd');
    ComponentValueOf(p.hours, 'h');
    ComponentValueOf(p.minutes, 'm');
    ComponentValueOf(p.seconds, 's');
    TotalOfShown(p.days > 0, p.hours > 0, p.minutes > 0,
                 Component(p.days, 'd'), Component(p.hours, 'h'), Component(p.minutes, 'm'), Component(p.seconds, 's'),
                 p.days * SecondsPerDay, p.hours * SecondsPerHour, p.minutes * SecondsPerMinute, p.seconds);
    var vd := if p.days > 0 then p.days * SecondsPerDay else 0;
    var vh := if p.hours > 0 then p.hours * SecondsPerHour else 0;
    var vm := if p.minutes > 0 then p.minutes * SecondsPerMinute else 0;
    assert vd == p.days * SecondsPerDay && vh == p.hours * SecondsPerHour && vm == p.minutes * SecondsPerMinute;
    assert vd + vh + vm + p.seconds == Seconds(p);
  }

  /** Reading the formatted text back gives the number of seconds, for every uptime up to
      the `long` range. */
  lemma ParseFormatUptime(total: int)
    requires 0 <= total <= MaxInt64
    ensures ParseUptime(FormatUptime(total)) == Some(total)
  {
    SpanOfDecomposes(total);
    ParseFormatSpan(SpanOf(total), total);
  }

  /** The text of a span reads back as the span's seconds. */
  lemma ParseFormatSpan(p: Span, total: int)
    requires 0 <= p.days <= MaxInt64 && 0 <= p.hours < 24 && 0 <= p.minutes < 60 && 0 <= p.seconds < 60
    requires Seconds(p) == total
    ensures ParseUptime(FormatSpan(p)) == Some(total)
  {
    TrimKeepsLayout(p);
    LayoutJoinsComponents(p);
    ComponentsAreFields(p);
    SplitAllJoinWith(Components(p), ' ');
    TotalOfComponents(p);
  }

  /** Zero units are left out and the seconds always printed: 0 s is "0s" and one hour
      is "1h 0s". */
  lemma FormatExamples()
    ensures FormatUptime(0) == "0s"
    ensures FormatUptime(3600) == "1h 0s"
  {
    assert SpanOf(0) == Span(0, 0, 0, 0);
    assert Component(0, 's') == "0s";
    assert Layout(Span(0, 0, 0, 0)) == "0s";
    assert SpanOf(3600) == Span(0, 1, 0, 0);
    assert Component(1, 'h') == "1h";
    assert Layout(Span(0, 1, 0, 0)) == "1h " + "0s";
  }

  /** With the clock set back an hour and a bit, the total is negative: every part is negative
      or zero, only the seconds are printed, and the text reads back as those seconds alone. */
  lemma ClockBackFormatLosesTime()
    ensures SpanOf(-3661) == Span(0, -1, -1, -1)
    ensures FormatUptime(-3661) == "-1s"
    ensures ParseUptime(FormatUptime(-3661)) == Some(-1)
  {
    assert SpanOf(-3661) == Span(0, -1, -1, -1);
    assert IntToString(-1) == "-1";
    assert Component(-1, 's') == "-1s";
    assert Layout(Span(0, -1, -1, -1)) == "-1s";
    assert FormatUptime(-3661) == "-1s";
    SplitAllWithoutSep("-1s", ' ');
    assert "-1s"[..2] == IntToString(-1);
    ParseIntegerOfIntToString(-1, MinInt64, MaxInt64);
    assert ComponentValue("-1s") == Some(-1);
  }
}
