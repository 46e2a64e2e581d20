/** The daily processing window: parsing, and circular time-of-day arithmetic in nanoseconds. */
module Window {
  import opened Wrappers

  const SECOND: int := 1_000_000_000
  const MINUTE: int := 60 * SECOND
  const DAY: int := 1440 * MINUTE

  // An instant is a count of nanoseconds; `offset` is the zone's fixed distance from UTC.
  datatype Window = Window(enabled: bool, startMin: nat, endMin: nat, offset: int)

  predicate Valid(w: Window) {
    w.enabled ==> w.startMin < 1440 && w.endMin < 1440 && w.startMin != w.endMin
  }

  function Local(w: Window, t: int): int { t + w.offset }

  function MinuteOfDay(local: int): (m: int)
    ensures 0 <= m < 1440
  {
    (local / MINUTE) % 1440
  }

  function SecondOfMinute(local: int): int { (local / SECOND) % 60 }

  function Nanosecond(local: int): int { local % SECOND }

  predicate IsOpen(w: Window, t: int) {
    if !w.enabled then true
    else
      var m := MinuteOfDay(Local(w, t));
      if w.startMin < w.endMin then w.startMin <= m && m < w.endMin
      else w.startMin <= m || m < w.endMin
  }

  function NextOpen(w: Window, t: int): int {
    if IsOpen(w, t) then 0
    else
      var lt := Local(w, t);
      var m := MinuteOfDay(lt);
      var deltaMin := if m < w.startMin then w.startMin - m else (24 * 60 - m) + w.startMin;
      var d := deltaMin * MINUTE - (SecondOfMinute(lt) * SECOND + Nanosecond(lt));
      if d < 0 then 0 else d
  }

  // How many minutes a day the window is open.
  function OpenMinutes(w: Window): int { (w.endMin - w.startMin) % 1440 }

  // How long ago, within a day, the window last opened.
  function SinceOpening(w: Window, t: int): (d: int)
    ensures 0 <= d < DAY
  {
    (Local(w, t) - w.startMin * MINUTE) % DAY
  }

  // The elapsed part of the current minute, from its seconds and nanoseconds.
  lemma ElapsedInMinute(x: int)
    ensures SecondOfMinute(x) * SECOND + Nanosecond(x) == x % MINUTE
  {
    var s := x / SECOND;
    assert x == s * SECOND + x % SECOND;
    assert s == (s / 60) * 60 + s % 60;
    assert x == (s / 60) * MINUTE + ((s % 60) * SECOND + x % SECOND);
    assert 0 <= (s % 60) * SECOND + x % SECOND < MINUTE;
  }

  lemma InDay(x: int, q: int, r: int)
    requires x == q * DAY + r && 0 <= r < DAY
    ensures x % DAY == r
  {
  }

  // The time since opening, in whole minutes and the elapsed part of the current one.
  lemma SinceOpeningInMinutes(w: Window, t: int)
    ensures SinceOpening(w, t) == ((MinuteOfDay(Local(w, t)) - w.startMin) % 1440) * MINUTE + Local(w, t) % MINUTE
  {
    var x := Local(w, t);
    var n, r := x / MINUTE, x % MINUTE;
    var m := n % 1440;
    var k := (m - w.startMin) % 1440;
    var y := x - w.startMin * MINUTE;
    assert x == n * MINUTE + r;
    assert n == (n / 1440) * 1440 + m;
    assert m - w.startMin == ((m - w.startMin) / 1440) * 1440 + k;
    var q := n / 1440 + (m - w.startMin) / 1440;
    assert n - w.startMin == q * 1440 + k;
    assert y == q * DAY + (k * MINUTE + r);
    InDay(y, q, k * MINUTE + r);
  }

  /** The window is open exactly in the first OpenMinutes after its opening, around the circle of
      minutes, whether or not it wraps past midnight. */
  lemma OpenIsCircular(w: Window, t: int)
    requires Valid(w) && w.enabled
    ensures IsOpen(w, t) <==> (MinuteOfDay(Local(w, t)) - w.startMin) % 1440 < OpenMinutes(w)
    ensures IsOpen(w, t) <==> SinceOpening(w, t) < OpenMinutes(w) * MINUTE
    ensures 1 <= OpenMinutes(w) <= 1439
  {
    SinceOpeningInMinutes(w, t);
  }

  // From a closed instant the wait is the rest of the day's circle.
  lemma NextOpenIsRest(w: Window, t: int)
    requires Valid(w) && !IsOpen(w, t)
    ensures NextOpen(w, t) == DAY - SinceOpening(w, t) > 0
  {
    var lt := Local(w, t);
    var m := MinuteOfDay(lt);
    ElapsedInMinute(lt);
    SinceOpeningInMinutes(w, t);
    OpenIsCircular(w, t);
    var k := (m - w.startMin) % 1440;
    var deltaMin := if m < w.startMin then w.startMin - m else (24 * 60 - m) + w.startMin;
    assert deltaMin == 1440 - k;
  }

  // Time moves the circle on until the next opening.
  lemma SinceOpeningLater(w: Window, t: int, e: int)
    requires 0 <= e <= DAY - SinceOpening(w, t)
    ensures SinceOpening(w, t + e) == if e == DAY - SinceOpening(w, t) then 0 else SinceOpening(w, t) + e
  {
    var y := Local(w, t) - w.startMin * MINUTE;
    var q := y / DAY;
    assert y == q * DAY + SinceOpening(w, t);
    if e == DAY - SinceOpening(w, t) {
      InDay(y + e, q + 1, 0);
    } else {
      InDay(y + e, q, SinceOpening(w, t) + e);
    }
  }

  /** NextOpen is the least wait after which the window is open, to the nanosecond, and it is zero
      exactly when the window is open already. */
  lemma NextOpenIsLeast(w: Window, t: int)
    requires Valid(w)
    ensures NextOpen(w, t) >= 0
    ensures IsOpen(w, t + NextOpen(w, t))
    ensures forall u :: t <= u < t + NextOpen(w, t) ==> !IsOpen(w, u)
    ensures NextOpen(w, t) == 0 <==> IsOpen(w, t)
  {
    if !IsOpen(w, t) {
      NextOpenIsRest(w, t);
      OpenIsCircular(w, t);
      var d := NextOpen(w, t);
      SinceOpeningLater(w, t, d);
      OpenIsCircular(w, t + d);
      forall u | t <= u < t + d
        ensures !IsOpen(w, u)
      {
        SinceOpeningLater(w, t, u - t);
        OpenIsCircular(w, u);
      }
    }
  }

  // Any duration with these properties is the one NextOpen returns.
  lemma NextOpenIsUnique(w: Window, t: int, d: int)
    requires Valid(w) && d >= 0 && IsOpen(w, t + d)
    requires forall u :: t <= u < t + d ==> !IsOpen(w, u)
    ensures d == NextOpen(w, t)
  {
    NextOpenIsLeast(w, t);
  }

  // The part of the day the window is closed.
  function ClosedLength(w: Window): int {
    if w.enabled then DAY - OpenMinutes(w) * MINUTE else 0
  }

  // The first instant after the window has closed, on day zero.
  function ClosingEdge(w: Window): int {
    (w.startMin + OpenMinutes(w)) * MINUTE - w.offset
  }

  /** No wait for the window is longer than the closed part of the day, and the wait from the
      closing edge is exactly that long. */
  lemma LongestWait(w: Window, t: int)
    requires Valid(w)
    ensures NextOpen(w, t) <= ClosedLength(w)
    ensures NextOpen(w, ClosingEdge(w)) == ClosedLength(w)
  {
    if w.enabled {
      OpenIsCircular(w, t);
      if !IsOpen(w, t) {
        NextOpenIsRest(w, t);
      }
      var e := ClosingEdge(w);
      InDay(OpenMinutes(w) * MINUTE, 0, OpenMinutes(w) * MINUTE);
      assert SinceOpening(w, e) == OpenMinutes(w) * MINUTE;
      OpenIsCircular(w, e);
      NextOpenIsRest(w, e);
    }
  }
}
