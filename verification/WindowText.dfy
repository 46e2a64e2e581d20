/** Reading a window from its two "HH:MM" texts and a zone name. */
module WindowText {
  import opened Wrappers
  import opened Window

  datatype ParseError = OneBoundOnly | BadStart | BadEnd | EqualBounds | UnknownZone

  datatype Parsed = Ok(window: Window) | Bad(error: ParseError)

  predicate IsSpace(c: char) {
    || '\t' <= c <= '\r' || c == ' ' || c == '\U{85}' || c == '\U{A0}' || c == '\U{1680}'
    || '\U{2000}' <= c <= '\U{200A}' || c == '\U{2028}' || c == '\U{2029}' || c == '\U{202F}'
    || c == '\U{205F}' || c == '\U{3000}'
  }

  function TrimLeft(s: string): string {
    if s != "" && IsSpace(s[0]) then TrimLeft(s[1..]) else s
  }

  function TrimRight(s: string): string {
    if s != "" && IsSpace(s[|s| - 1]) then TrimRight(s[..|s| - 1]) else s
  }

  function TrimSpace(s: string): string { TrimRight(TrimLeft(s)) }

  // The position of the first colon.
  function Colon(s: string): (i: Option<nat>)
    ensures i.Some? ==> i.value < |s| && s[i.value] == ':'
    ensures i.Some? ==> forall j :: 0 <= j < i.value ==> s[j] != ':'
  {
    if s == "" then None
    else if s[0] == ':' then Some(0)
    else match Colon(s[1..])
         case None => None
         case Some(i) => Some(i + 1)
  }

  predicate IsDigit(c: char) { '0' <= c <= '9' }

  function Digits(s: string): Option<nat> {
    if s == "" then None
    else if !IsDigit(s[|s| - 1]) then None
    else
      var d := (s[|s| - 1] as int - '0' as int) as nat;
      if |s| == 1 then Some(d)
      else match Digits(s[..|s| - 1])
           case None => None
           case Some(n) => Some(10 * n + d)
  }

  // A decimal number with an optional sign; values beyond the machine's range are out of every
  // range tested for here.
  function Atoi(s: string): Option<int> {
    var signed := s != "" && (s[0] == '-' || s[0] == '+');
    match Digits(if signed then s[1..] else s)
    case None => None
    case Some(n) => Some(if signed && s[0] == '-' then -(n as int) else n as int)
  }

  function ParseHHMM(s: string): (m: Option<nat>)
    ensures m.Some? ==> m.value < 1440
  {
    match Colon(s)
    case None => None
    case Some(i) =>
      match (Atoi(s[..i]), Atoi(s[i + 1..]))
      case (Some(hour), Some(min)) =>
        if 0 <= hour <= 23 && 0 <= min <= 59 then Some(hour * 60 + min) else None
      case _ => None
  }

  function Parse(start0: string, end0: string, zone: string, zones: map<string, int>): Parsed {
    var start, end := TrimSpace(start0), TrimSpace(end0);
    if start == "" && end == "" then Ok(Window(false, 0, 0, 0))
    else if start == "" || end == "" then Bad(OneBoundOnly)
    else
      match ParseHHMM(start)
      case None => Bad(BadStart)
      case Some(from) =>
        match ParseHHMM(end)
        case None => Bad(BadEnd)
        case Some(to) =>
          if from == to then Bad(EqualBounds)
          else
            var tz := if zone == "" then "UTC" else zone;
            if tz in zones then Ok(Window(true, from, to, zones[tz])) else Bad(UnknownZone)
  }

  /** Every window that parses meets what the arithmetic of the window relies on, and it is
      disabled exactly when both texts are blank. */
  lemma ParsedWindowsAreValid(start: string, end: string, zone: string, zones: map<string, int>)
    ensures var p := Parse(start, end, zone, zones);
            p.Ok? ==> Valid(p.window) && (p.window.enabled <==> TrimSpace(start) != "" || TrimSpace(end) != "")
  {
  }

  function Digit(n: nat): char
    requires n < 10
  {
    ('0' as int + n) as char
  }

  function TwoDigits(n: nat): string
    requires n < 100
  {
    [Digit(n / 10), Digit(n % 10)]
  }

  function Clock(minutes: nat): string
    requires minutes < 1440
  {
    TwoDigits(minutes / 60) + ":" + TwoDigits(minutes % 60)
  }

  lemma {:induction false} FirstColon(before: string, after: string)
    requires ':' !in before
    ensures Colon(before) == None && Colon(before + ":" + after) == Some(|before|)
    decreases |before|
  {
    var s := before + ":" + after;
    if before == "" {
      assert s[0] == ':';
    } else {
      assert s[0] == before[0] && s[1..] == before[1..] + ":" + after;
      FirstColon(before[1..], after);
    }
  }

  /** A clock text is split at its first colon; without one, or unless both parts are numbers in
      range, it is refused. */
  lemma ClockSplits(hours: string, minutes: string)
    requires ':' !in hours
    ensures ParseHHMM(hours) == None
    ensures var (h, m) := (Atoi(hours), Atoi(minutes));
            ParseHHMM(hours + ":" + minutes) ==
              if h.Some? && m.Some? && 0 <= h.value <= 23 && 0 <= m.value <= 59 then Some(h.value * 60 + m.value) else None
  {
    FirstColon(hours, minutes);
    var s := hours + ":" + minutes;
    assert s[..|hours|] == hours && s[|hours| + 1..] == minutes;
  }

  // A number is a text of digits only, of any length, most significant first.
  lemma {:induction false} DigitsAre(s: string)
    ensures Digits(s).Some? <==> s != "" && forall i :: 0 <= i < |s| ==> IsDigit(s[i])
    decreases |s|
  {
    if s != "" {
      DigitsAre(s[..|s| - 1]);
    }
  }

  lemma DigitsGrow(s: string, d: nat)
    requires d < 10 && Digits(s).Some?
    ensures Digits([Digit(d)]) == Some(d) && Digits(s + [Digit(d)]) == Some(10 * Digits(s).value + d)
  {
    assert (s + [Digit(d)])[..|s|] == s;
  }

  // It may have one sign.
  lemma Signed(s: string)
    requires Digits(s).Some?
    ensures Atoi(s) == Some(Digits(s).value as int) == Atoi("+" + s) && Atoi("-" + s) == Some(-(Digits(s).value as int))
  {
    DigitsAre(s);
    assert ("+" + s)[1..] == s && ("-" + s)[1..] == s;
  }

  lemma TwoDigitsRead(n: nat)
    requires n < 100
    ensures Atoi(TwoDigits(n)) == Some(n) && ':' !in TwoDigits(n)
  {
    var s := [Digit(n / 10)];
    DigitsGrow(s, n % 10);
    assert TwoDigits(n) == s + [Digit(n % 10)];
    Signed(TwoDigits(n));
  }

  // A number below 100 in each place, in range or not.
  lemma ClockReads(hours: nat, minutes: nat)
    requires hours < 100 && minutes < 100
    ensures ParseHHMM(TwoDigits(hours) + ":" + TwoDigits(minutes))
            == if hours <= 23 && minutes <= 59 then Some(hours * 60 + minutes) else None
  {
    TwoDigitsRead(hours);
    TwoDigitsRead(minutes);
    ClockSplits(TwoDigits(hours), TwoDigits(minutes));
  }

  /** A time written as HH:MM is read back as its minutes. */
  lemma ClockRoundTrip(minutes: nat)
    requires minutes < 1440
    ensures ParseHHMM(Clock(minutes)) == Some(minutes)
  {
    ClockReads(minutes / 60, minutes % 60);
  }

  lemma ClockIsTrimmed(minutes: nat)
    requires minutes < 1440
    ensures TrimSpace(Clock(minutes)) == Clock(minutes) != ""
  {
  }

  lemma OpensAndCloses(from: nat, to: nat, offset: int)
    requires from < 1440 && to < 1440 && from != to
    ensures var w := Window(true, from, to, offset);
            IsOpen(w, from * MINUTE - offset) && !IsOpen(w, to * MINUTE - offset)
  {
    assert MinuteOfDay(from * MINUTE) == from && MinuteOfDay(to * MINUTE) == to;
  }

  // Nothing but spaces.
  predicate Blank(s: string) {
    forall i :: 0 <= i < |s| ==> IsSpace(s[i])
  }

  // What is trimmed on the left is blank, and what stays does not begin with a space.
  lemma {:induction false} LeftTrims(s: string)
    ensures var t := TrimLeft(s);
            && |t| <= |s| && s[|s| - |t|..] == t && (t != "" ==> !IsSpace(t[0]))
            && forall i :: 0 <= i < |s| - |t| ==> IsSpace(s[i])
    decreases |s|
  {
    if s != "" && IsSpace(s[0]) {
      LeftTrims(s[1..]);
      assert forall i :: 1 <= i < |s| - |TrimLeft(s)| ==> s[i] == s[1..][i - 1];
    }
  }

  // A text that does not begin with a space is not trimmed away from the right.
  lemma {:induction false} RightStays(s: string)
    requires s != "" && !IsSpace(s[0])
    ensures TrimRight(s) != ""
    decreases |s|
  {
    if IsSpace(s[|s| - 1]) {
      RightStays(s[..|s| - 1]);
    }
  }

  lemma BlankTrims(s: string)
    ensures Blank(s) <==> TrimSpace(s) == ""
  {
    var t := TrimLeft(s);
    LeftTrims(s);
    if t != "" {
      assert s[|s| - |t|] == t[0];
      RightStays(t);
    }
  }

  lemma {:induction false} TrimLeftSkips(before: string, s: string)
    requires Blank(before)
    ensures TrimLeft(before + s) == TrimLeft(s)
    decreases |before|
  {
    if before == "" {
      assert before + s == s;
    } else {
      assert (before + s)[1..] == before[1..] + s;
      TrimLeftSkips(before[1..], s);
    }
  }

  lemma {:induction false} TrimRightSkips(s: string, after: string)
    requires Blank(after)
    ensures TrimRight(s + after) == TrimRight(s)
    decreases |after|
  {
    if after == "" {
      assert s + after == s;
    } else {
      var n := |after| - 1;
      assert (s + after)[..|s + after| - 1] == s + after[..n];
      TrimRightSkips(s, after[..n]);
    }
  }

  lemma TrimLeftOf(s: string, after: string)
    requires s != "" && !IsSpace(s[0])
    ensures TrimLeft(s + after) == s + after
  {
  }

  // Spaces around a text that neither begins nor ends with one are trimmed away, and nothing else.
  lemma TrimsAround(before: string, s: string, after: string)
    requires Blank(before) && Blank(after) && s != "" && !IsSpace(s[0]) && !IsSpace(s[|s| - 1])
    ensures TrimSpace(before + s + after) == s
  {
    assert before + s + after == before + (s + after);
    TrimLeftSkips(before, s + after);
    TrimLeftOf(s, after);
    TrimRightSkips(s, after);
  }

  /** When a window is disabled, and when a bound is missing. */
  lemma BoundsMissing(start: string, end: string, zone: string, zones: map<string, int>)
    ensures Parse(start, end, zone, zones) == Ok(Window(false, 0, 0, 0)) <==> Blank(start) && Blank(end)
    ensures Parse(start, end, zone, zones) == Bad(OneBoundOnly) <==> !(Blank(start) <==> Blank(end))
  {
    BlankTrims(start);
    BlankTrims(end);
  }

  /** What two clock texts come to, in range or not, whatever spaces are around them. An empty zone
      is UTC. */
  lemma ClocksParse(h: nat, m: nat, h': nat, m': nat, spaces: seq<string>, zone: string, zones: map<string, int>)
    requires h < 100 && m < 100 && h' < 100 && m' < 100
    requires |spaces| == 4 && forall i :: 0 <= i < 4 ==> Blank(spaces[i])
    ensures var start := spaces[0] + (TwoDigits(h) + ":" + TwoDigits(m)) + spaces[1];
            var end := spaces[2] + (TwoDigits(h') + ":" + TwoDigits(m')) + spaces[3];
            var tz := if zone == "" then "UTC" else zone;
            Parse(start, end, zone, zones) ==
              if h > 23 || m > 59 then Bad(BadStart)
              else if h' > 23 || m' > 59 then Bad(BadEnd)
              else if h == h' && m == m' then Bad(EqualBounds)
              else if tz !in zones then Bad(UnknownZone)
              else Ok(Window(true, h * 60 + m, h' * 60 + m', zones[tz]))
  {
    var from, to := TwoDigits(h) + ":" + TwoDigits(m), TwoDigits(h') + ":" + TwoDigits(m');
    TrimsAround(spaces[0], from, spaces[1]);
    TrimsAround(spaces[2], to, spaces[3]);
    ClockReads(h, m);
    ClockReads(h', m');
  }

  /** Two different times of day and a known zone give the window between them: it opens at the
      first and is closed from the second on, in that zone. */
  lemma ParseRoundTrip(from: nat, to: nat, zone: string, zones: map<string, int>)
    requires from < 1440 && to < 1440 && from != to && zone != "" && zone in zones
    ensures Parse(Clock(from), Clock(to), zone, zones) == Ok(Window(true, from, to, zones[zone]))
    ensures var w := Window(true, from, to, zones[zone]);
            IsOpen(w, from * MINUTE - w.offset) && !IsOpen(w, to * MINUTE - w.offset)
  {
    ClockRoundTrip(from);
    ClockRoundTrip(to);
    ClockIsTrimmed(from);
    ClockIsTrimmed(to);
    OpensAndCloses(from, to, zones[zone]);
  }
}
