/** Daily connection windows: when a membership is connected, and when that changes next. Times are
    minutes of the day. */
module Schedule {
  import opened Options
  import opened Text

  const DAY: nat := 1440

  // ---- Times of day ----

  function SplitOnce(s: string): Option<(string, string)> {
    if s == "" then None
    else if s[0] == ':' then Some(("", s[1..]))
    else
      var rest := SplitOnce(s[1..]);
      if rest.Some? then Some(([s[0]] + rest.value.0, rest.value.1)) else None
  }

  /** `str::parse::<u32>`: a sign is allowed, an empty or too large number is not. */
  function ParseU32(s: string): Option<nat> {
    var digits := if s != "" && s[0] == '+' then s[1..] else s;
    if digits == "" then None
    else if DigitsValue(digits).Some? && DigitsValue(digits).value < 0x1_0000_0000 then DigitsValue(digits)
    else None
  }

  function ParseHhmm(value: string): (mins: Option<nat>)
    ensures mins.Some? ==> mins.value < DAY
  {
    var parts := SplitOnce(Trim(value));
    if parts.None? then None
    else
      var hour, minute := ParseU32(parts.value.0), ParseU32(parts.value.1);
      if hour.None? || minute.None? || hour.value > 23 || minute.value > 59 then None
      else Some(hour.value * 60 + minute.value)
  }

  function Digit(n: nat): char
    requires n < 10
  {
    '0' + n as char
  }

  /** Two digits, with a leading zero. */
  function TwoDigits(n: nat): string
    requires n < 100
  {
    [Digit(n / 10), Digit(n % 10)]
  }

  function FormatHhmm(mins: nat): string
    requires mins < DAY
  {
    TwoDigits(mins / 60) + ":" + TwoDigits(mins % 60)
  }

  lemma TwoDigitsParse(n: nat)
    requires n < 100
    ensures ParseU32(TwoDigits(n)) == Some(n)
  {
    var s := TwoDigits(n);
    assert s[..1] == [s[0]] && s[..1][..0] == "";
    assert DigitsValue(s[..1]) == Some(n / 10);
  }

  lemma SplitAtColon(a: char, b: char, rest: string)
    requires a != ':' && b != ':'
    ensures SplitOnce([a, b] + ":" + rest) == Some(([a, b], rest))
  {
    var s := [a, b] + ":" + rest;
    var colon := ":" + rest;
    var tail := [b] + colon;
    assert s == [a] + tail && s[1..] == tail && tail[1..] == colon && colon[1..] == rest;
    assert SplitOnce(colon) == Some(("", rest));
    assert [b] + "" == [b] && [a] + [b] == [a, b];
    assert SplitOnce(tail) == Some(([b], rest));
  }

  /** What is shown for a time of day reads back as that time. */
  lemma FormatReadsBack(mins: nat)
    requires mins < DAY
    ensures ParseHhmm(FormatHhmm(mins)) == Some(mins)
  {
    var h, m := TwoDigits(mins / 60), TwoDigits(mins % 60);
    TrimKeeps(FormatHhmm(mins));
    SplitAtColon(h[0], h[1], m);
    assert h == [h[0], h[1]];
    TwoDigitsParse(mins / 60);
    TwoDigitsParse(mins % 60);
  }

  // ---- Windows ----

  datatype Resolved = Resolved(enabled: bool, start: nat, end: nat)

  predicate IsInside(start: nat, end: nat, now: nat) {
    if start == end then true
    else if start < end then start <= now < end
    else start <= now || now < end
  }

  predicate Inside(s: Resolved, now: nat) {
    IsInside(s.start, s.end, now)
  }

  /** A window is the stretch of minutes from `start` around the clock up to `end`, overnight or not. */
  lemma WindowIsCircular(start: nat, end: nat, now: nat)
    requires start < DAY && end < DAY && now < DAY && start != end
    ensures IsInside(start, end, now) <==> (now - start) % DAY < (end - start) % DAY
  {
  }

  predicate WellFormed(s: Resolved) {
    s.start < DAY && s.end < DAY
  }

  function At(now: nat, later: nat): nat {
    (now + later) % DAY
  }

  /** The window state flips `ahead` minutes from now and not before. */
  predicate FlipsIn(s: Resolved, now: nat, ahead: nat) {
    && (Inside(s, At(now, ahead)) <==> !Inside(s, now))
    && forall k: nat :: k < ahead ==> (Inside(s, At(now, k)) <==> Inside(s, now))
  }

  /** Minutes of the local clock since the local midnight of day zero. */
  function LocalMinutes(day: nat, mins: nat): nat {
    day * DAY + mins
  }

  /** The time reported for the next transition: the local date and time of day, read as if they were
      UTC, in seconds. It is told apart from the present by a number of minutes of the local clock. */
  method NextTransition(s: Resolved, day: nat, now: nat) returns (at: Option<nat>)
    requires WellFormed(s) && now < DAY
    ensures at.Some? <==> s.enabled
    ensures at.Some? ==>
      var ahead := at.value / 60 - LocalMinutes(day, now);
      && at.value % 60 == 0 && 0 < ahead <= DAY
      && (FlipsIn(s, now, ahead) <==> s.start != s.end)
      && (s.start != s.end ==> ahead < DAY)
  {
    if !s.enabled { return None; }
    var inside := Inside(s, now);
    var targetMins := if inside then s.end else s.start;
    var onDay := day;
    if inside && targetMins <= now { onDay := onDay + 1; }
    if !inside && targetMins > now {
      // still ahead today
    } else if !inside && targetMins <= now {
      onDay := onDay + 1;
    }
    at := Some(LocalMinutes(onDay, targetMins) * 60);
    assert LocalMinutes(onDay, targetMins) == LocalMinutes(day, now) + Ahead(s, now);
    if s.start == s.end {
      assert Inside(s, At(now, Ahead(s, now))) && Inside(s, now);
    } else {
      Flips(s, now, Ahead(s, now));
    }
  }

  /** The time of day at which the state changes next. */
  function Target(s: Resolved, now: nat): nat {
    if Inside(s, now) then s.end else s.start
  }

  /** The distance the method finds. */
  function Ahead(s: Resolved, now: nat): nat
    requires WellFormed(s) && now < DAY
  {
    if Target(s, now) <= now then Target(s, now) + DAY - now else Target(s, now) - now
  }

  lemma Flips(s: Resolved, now: nat, ahead: nat)
    requires WellFormed(s) && now < DAY && s.start != s.end && ahead == Ahead(s, now)
    ensures 1 <= ahead < DAY && FlipsIn(s, now, ahead)
  {
  }

  /** The state turns into its opposite at the target and at no other minute of the day. */
  lemma TurnsAtTarget(s: Resolved, now: nat, minute: nat)
    requires WellFormed(s) && now < DAY && minute < DAY && s.start != s.end
    ensures var before: nat := if minute == 0 then DAY - 1 else minute - 1;
      (Inside(s, minute) <==> !Inside(s, now)) && (Inside(s, before) <==> Inside(s, now)) <==> minute == Target(s, now)
  {
  }

  lemma MinuteOfDay(day: int, mins: nat, minute: int)
    requires mins < DAY && minute == day * DAY + mins
    ensures minute % DAY == mins && (minute - 1) % DAY == if mins == 0 then DAY - 1 else mins - 1
  {
  }

  /** A clock that runs `offset` minutes ahead of UTC. What is reported is the right Unix time exactly
      where that offset is zero: at the reported time such a clock shows the target plus the offset, and
      only without one is that the minute at which the window flips. */
  lemma ReportedTimeIsLocal(s: Resolved, day: nat, now: nat, offset: int)
    requires WellFormed(s) && now < DAY && s.start != s.end && offset < DAY && -offset < DAY
    ensures var shown := LocalMinutes(day, now) + Ahead(s, now) + offset;
      (Inside(s, shown % DAY) <==> !Inside(s, now)) && (Inside(s, (shown - 1) % DAY) <==> Inside(s, now))
      <==> offset == 0
  {
    var shown := LocalMinutes(day, now) + Ahead(s, now) + offset;
    var at := Target(s, now) + offset;
    var onDay := day + if Target(s, now) <= now then 1 else 0;
    var mins := if at < 0 then at + DAY else if at >= DAY then at - DAY else at;
    var shift := if at < 0 then -1 else if at >= DAY then 1 else 0;
    MinuteOfDay(onDay + shift, mins, shown);
    TurnsAtTarget(s, now, mins);
  }

  // ---- Memberships ----

  /** A cluster or swarm membership; `id` stands for the fields that are never touched. */
  datatype Membership = Membership(
    id: string, scheduleEnabled: Option<bool>, scheduleStart: Option<string>, scheduleEnd: Option<string>,
    connected: Option<bool>)

  datatype Defaults = Defaults(enabled: Option<bool>, start: Option<string>, end: Option<string>)

  function Or<T>(a: Option<T>, b: Option<T>, otherwise: T): T {
    if a.Some? then a.value else if b.Some? then b.value else otherwise
  }

  function ParsedOr(value: string, otherwise: nat): nat {
    if ParseHhmm(value).Some? then ParseHhmm(value).value else otherwise
  }

  const NINE: nat := 540
  const FIVE: nat := 1020

  /** `resolve_schedule` */
  function Resolve(d: Defaults, m: Membership): (s: Resolved)
    ensures WellFormed(s)
  {
    Resolved(Or(m.scheduleEnabled, d.enabled, false),
             ParsedOr(Or(m.scheduleStart, d.start, "09:00"), NINE),
             ParsedOr(Or(m.scheduleEnd, d.end, "17:00"), FIVE))
  }

  /** A setting as it is shown for a time of day. */
  function Shown(t: Option<nat>): Option<string>
    requires t.Some? ==> t.value < DAY
  {
    if t.Some? then Some(FormatHhmm(t.value)) else None
  }

  /** The minute that holds: the membership's own, else the default, else the one fixed for all. */
  function Holding(own: Option<nat>, common: Option<nat>, fixed: nat): nat {
    match own
    case Some(t) => t
    case None => match common
      case Some(t) => t
      case None => fixed
  }

  lemma SettingReads(own: Option<nat>, common: Option<nat>, fixed: nat, text: string)
    requires own.Some? ==> own.value < DAY
    requires common.Some? ==> common.value < DAY
    requires ParseHhmm(text) == Some(fixed)
    ensures ParsedOr(Or(Shown(own), Shown(common), text), fixed) == Holding(own, common, fixed)
  {
    if own.Some? { FormatReadsBack(own.value); } else if common.Some? { FormatReadsBack(common.value); }
  }

  lemma NineReads()
    ensures ParseHhmm("09:00") == Some(9 * 60)
  {
    FormatReadsBack(9 * 60);
    assert FormatHhmm(9 * 60) == "09:00";
  }

  lemma FiveReads()
    ensures ParseHhmm("17:00") == Some(17 * 60)
  {
    FormatReadsBack(17 * 60);
    assert FormatHhmm(17 * 60) == "17:00";
  }

  /** What a membership sets for itself comes before the default, setting by setting, and without either
      the window is from nine to five and not enabled. */
  lemma OwnSettingsComeFirst(d: Defaults, m: Membership, start: Option<nat>, dStart: Option<nat>,
                             end: Option<nat>, dEnd: Option<nat>)
    requires (start.Some? ==> start.value < DAY) && (dStart.Some? ==> dStart.value < DAY)
    requires (end.Some? ==> end.value < DAY) && (dEnd.Some? ==> dEnd.value < DAY)
    requires m.scheduleStart == Shown(start) && d.start == Shown(dStart)
    requires m.scheduleEnd == Shown(end) && d.end == Shown(dEnd)
    ensures var s := Resolve(d, m);
      && s.start == Holding(start, dStart, 9 * 60) && s.end == Holding(end, dEnd, 17 * 60)
      && (s.enabled <==> m.scheduleEnabled == Some(true) || (m.scheduleEnabled == None && d.enabled == Some(true)))
  {
    NineReads();
    FiveReads();
    SettingReads(start, dStart, NINE, "09:00");
    SettingReads(end, dEnd, FIVE, "17:00");
  }

  /** A membership's own time that cannot be read does not fall back on the default. */
  lemma UnreadableIsNotReplaced(d: Defaults, m: Membership, text: string)
    requires ParseHhmm(text).None?
    ensures m.scheduleStart == Some(text) ==> Resolve(d, m).start == 9 * 60
    ensures m.scheduleEnd == Some(text) ==> Resolve(d, m).end == 17 * 60
  {
  }

  /** Two numbers of two digits are a time of day exactly when the first is an hour and the second a
      minute, and white space around them makes no difference. */
  lemma TwoNumbersRead(before: string, h: nat, m: nat, after: string)
    requires h < 100 && m < 100 && AllWhitespace(before) && AllWhitespace(after)
    ensures ParseHhmm(before + (TwoDigits(h) + ":" + TwoDigits(m)) + after)
         == if h < 24 && m < 60 then Some(60 * h + m) else None
  {
    var hh, mm := TwoDigits(h), TwoDigits(m);
    TrimSandwich(before, hh + ":" + mm, after);
    SplitAtColon(hh[0], hh[1], mm);
    assert hh == [hh[0], hh[1]];
    TwoDigitsParse(h);
    TwoDigitsParse(m);
  }

  lemma {:induction false} NoColonNoTime(text: string)
    requires ':' !in text
    ensures SplitOnce(text).None? && ParseHhmm(text).None?
  {
    NoColonNoSplit(text);
    var ws := TrimStartShape(text);
    var end := TrimEndShape(TrimStart(text));
    NoColonNoSplit(Trim(text));
  }

  lemma {:induction false} NoColonNoSplit(text: string)
    requires ':' !in text
    ensures SplitOnce(text).None?
  {
    if text != "" { NoColonNoSplit(text[1..]); }
  }

  predicate IsConnected(m: Membership) {
    Or(m.connected, None, true)
  }

  /** What a schedule makes of a membership: one that follows a schedule and is not as the window
      says is switched; any other is left as it is. */
  function Scheduled(d: Defaults, m: Membership, now: nat): Membership {
    var s := Resolve(d, m);
    if s.enabled && IsConnected(m) != Inside(s, now) then m.(connected := Some(Inside(s, now))) else m
  }

  function AllScheduled(d: Defaults, ms: seq<Membership>, now: nat): (r: seq<Membership>)
    ensures |r| == |ms| && forall i :: 0 <= i < |r| ==> r[i] == Scheduled(d, ms[i], now)
  {
    seq(|ms|, i requires 0 <= i < |ms| => Scheduled(d, ms[i], now))
  }

  type Updates = seq<(nat, bool)>

  predicate InRange(updates: Updates, n: nat) {
    forall u :: 0 <= u < |updates| ==> updates[u].0 < n
  }

  /** The flags set one after the other. */
  function After(ms: seq<Membership>, updates: Updates): (r: seq<Membership>)
    requires InRange(updates, |ms|)
    ensures |r| == |ms|
    decreases |updates|
  {
    if updates == [] then ms else
      var before, u := After(ms, updates[..|updates| - 1]), updates[|updates| - 1];
      before[u.0 := before[u.0].(connected := Some(u.1))]
  }

  /** Scheduling the first `n` of them. */
  function FirstScheduled(d: Defaults, ms: seq<Membership>, now: nat, n: nat): seq<Membership>
    requires n <= |ms|
  {
    AllScheduled(d, ms[..n], now) + ms[n..]
  }

  lemma ScheduleNext(d: Defaults, ms: seq<Membership>, now: nat, n: nat)
    requires n < |ms|
    ensures FirstScheduled(d, ms, now, n)[n] == ms[n]
    ensures FirstScheduled(d, ms, now, n + 1) == FirstScheduled(d, ms, now, n)[n := Scheduled(d, ms[n], now)]
  {
  }

  lemma KeepNext(d: Defaults, ms: seq<Membership>, now: nat, n: nat)
    requires n < |ms| && Scheduled(d, ms[n], now) == ms[n]
    ensures FirstScheduled(d, ms, now, n + 1) == FirstScheduled(d, ms, now, n)
  {
    ScheduleNext(d, ms, now, n);
    SameAt(FirstScheduled(d, ms, now, n), n);
  }

  lemma SameAt(ms: seq<Membership>, n: nat)
    requires n < |ms|
    ensures ms[n := ms[n]] == ms
  {
  }

  lemma AfterOneMore(ms: seq<Membership>, updates: Updates, i: nat, flag: bool)
    requires InRange(updates, |ms|) && i < |ms|
    ensures InRange(updates + [(i, flag)], |ms|)
    ensures After(ms, updates + [(i, flag)]) == After(ms, updates)[i := After(ms, updates)[i].(connected := Some(flag))]
  {
  }

  /** The updates so far do to the memberships what scheduling the first `n` does; none is idle. */
  ghost predicate Collected(d: Defaults, ms: seq<Membership>, now: nat, n: nat, updates: Updates, switched: nat) {
    && n <= |ms| && InRange(updates, |ms|)
    && After(ms, updates) == FirstScheduled(d, ms, now, n)
    && (updates != [] ==> switched < n && Scheduled(d, ms[switched], now) != ms[switched])
  }

  lemma CollectOne(d: Defaults, ms: seq<Membership>, now: nat, n: nat, updates: Updates, switched: nat, want: Option<bool>)
    requires n < |ms| && Collected(d, ms, now, n, updates, switched)
    requires Scheduled(d, ms[n], now) == if want.Some? then ms[n].(connected := want) else ms[n]
    requires want.Some? <==> Scheduled(d, ms[n], now) != ms[n]
    ensures if want.Some? then Collected(d, ms, now, n + 1, updates + [(n, want.value)], n)
            else Collected(d, ms, now, n + 1, updates, switched)
  {
    if want.Some? {
      ScheduleNext(d, ms, now, n);
      AfterOneMore(ms, updates, n, want.value);
    } else {
      KeepNext(d, ms, now, n);
    }
  }

  lemma CollectedAll(d: Defaults, ms: seq<Membership>, now: nat, updates: Updates, switched: nat)
    requires Collected(d, ms, now, |ms|, updates, switched)
    ensures After(ms, updates) == AllScheduled(d, ms, now)
    ensures updates != [] <==> AllScheduled(d, ms, now) != ms
  {
  }

  method CollectUpdates(d: Defaults, ms: seq<Membership>, now: nat) returns (updates: Updates)
    ensures InRange(updates, |ms|) && After(ms, updates) == AllScheduled(d, ms, now)
    ensures updates != [] <==> AllScheduled(d, ms, now) != ms
  {
    updates := [];
    ghost var switched: nat := 0;
    assert FirstScheduled(d, ms, now, 0) == ms;
    for i := 0 to |ms|
      invariant Collected(d, ms, now, i, updates, switched)
    {
      var want := Wanted(d, ms[i], now);
      CollectOne(d, ms, now, i, updates, switched, want);
      if want.Some? {
        updates := updates + [(i, want.value)];
        switched := i;
      }
    }
    CollectedAll(d, ms, now, updates, switched);
  }

  /** The flag to set, where one must be set. */
  method Wanted(d: Defaults, m: Membership, now: nat) returns (want: Option<bool>)
    ensures Scheduled(d, m, now) == if want.Some? then m.(connected := want) else m
    ensures want.Some? <==> Scheduled(d, m, now) != m
  {
    var s := Resolve(d, m);
    if !s.enabled { return None; }
    var wantConnected := Inside(s, now);
    want := if IsConnected(m) != wantConnected then Some(wantConnected) else None;
  }

  /** The updates are collected first and then made in place. */
  method ApplyTo(d: Defaults, ms: seq<Membership>, now: nat) returns (updated: seq<Membership>, changed: bool)
    ensures updated == AllScheduled(d, ms, now)
    ensures changed <==> updated != ms
  {
    var updates := CollectUpdates(d, ms, now);
    updated, changed := ms, false;
    for u := 0 to |updates|
      invariant updated == After(ms, updates[..u]) && (changed <==> u > 0)
    {
      assert updates[..u + 1][..u] == updates[..u];
      var (i, want) := updates[u];
      updated := updated[i := updated[i].(connected := Some(want))];
      changed := true;
    }
    assert updates[..|updates|] == updates;
  }

  class NetworkScheduler {
    const defaults: Defaults
    var clusters: seq<Membership>
    var swarms: seq<Membership>

    constructor (defaults: Defaults, clusters: seq<Membership>, swarms: seq<Membership>)
      ensures this.defaults == defaults && this.clusters == clusters && this.swarms == swarms
    {
      this.defaults, this.clusters, this.swarms := defaults, clusters, swarms;
    }

    /** Returns whether the networks are told; that is not the case when saving fails. */
    method ApplySchedules(now: nat, saves: bool) returns (told: bool)
      modifies this
      ensures clusters == AllScheduled(defaults, old(clusters), now)
      ensures swarms == AllScheduled(defaults, old(swarms), now)
      ensures told <==> saves && (clusters != old(clusters) || swarms != old(swarms))
    {
      var clustersChanged, swarmsChanged;
      clusters, clustersChanged := ApplyTo(defaults, clusters, now);
      swarms, swarmsChanged := ApplyTo(defaults, swarms, now);
      var changed := clustersChanged || swarmsChanged;
      if changed && !saves { return false; }
      told := changed;
    }
  }

  /** Afterwards every membership with a schedule is connected exactly inside its window, and the
      others are as they were. */
  lemma ScheduledFollowsWindow(d: Defaults, m: Membership, now: nat)
    ensures var s, m' := Resolve(d, m), Scheduled(d, m, now);
      && (s.enabled ==> (IsConnected(m') <==> Inside(s, now)))
      && (!s.enabled ==> m' == m)
      && m' == m.(connected := m'.connected) && Resolve(d, m') == s
  {
  }

  /** Applying the schedules again before the next transition changes nothing; at the transition the
      membership is switched. So a second application in the same minute does nothing. */
  lemma NothingUntilTransition(d: Defaults, m: Membership, now: nat, later: nat)
    requires now < DAY && Resolve(d, m).enabled && Resolve(d, m).start != Resolve(d, m).end
    requires later <= Ahead(Resolve(d, m), now)
    ensures var m' := Scheduled(d, m, now);
      Scheduled(d, m', At(now, later)) == m' <==> later < Ahead(Resolve(d, m), now)
  {
    var s, m' := Resolve(d, m), Scheduled(d, m, now);
    ScheduledFollowsWindow(d, m, now);
    SwitchedIffFlipped(d, m', s, now, At(now, later));
    Flips(s, now, Ahead(s, now));
  }

  lemma SwitchedIffFlipped(d: Defaults, m: Membership, s: Resolved, now: nat, then': nat)
    requires s == Resolve(d, m) && s.enabled && (IsConnected(m) <==> Inside(s, now))
    ensures Scheduled(d, m, then') == m <==> (Inside(s, then') <==> Inside(s, now))
  {
  }

  /** A second application in the same minute finds nothing to change. That includes a first one whose
      saving failed: its flags stay in memory, and the networks are never told of them. */
  lemma ApplyIsIdempotent(d: Defaults, ms: seq<Membership>, now: nat)
    ensures AllScheduled(d, AllScheduled(d, ms, now), now) == AllScheduled(d, ms, now)
  {
  }
}
