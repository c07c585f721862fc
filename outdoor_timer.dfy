/**
 * The outdoor-time tracker. Its persisted record holds whether a session is
 * being timed, the session's start time and one running total (in
 * milliseconds) per calendar day. Every operation reads the record from
 * storage, and the toggle writes it back.
 *
 * The clock (Date.now) and the day key (today's ISO date) are parameters.
 */
module OutdoorTimer {
  import opened Wrappers

  /** The daily goal: 90 minutes, in milliseconds. */
  const GOAL_MS: int := 90 * 60 * 1000

  type DayKey = string

  /** The persisted record. `days` maps each day key to that day's
      `{total}` entry, given here by its total. */
  datatype TimerData = TimerData(isTracking: bool, startTime: Option<int>, days: map<DayKey, int>)

  const EmptyData: TimerData := TimerData(false, None, map[])

  /** The shape of every record the tracker writes: a start time is present
      exactly while a session is being timed. */
  predicate WellFormed(d: TimerData) {
    d.isTracking <==> d.startTime.Some?
  }

  /** What storage holds under the tracker's key. */
  datatype Stored = Missing | Corrupt | Saved(data: TimerData)

  /** getOutdoorData: a missing or unparsable blob reads as an empty record. */
  function Load(s: Stored): (d: TimerData)
    ensures s.Saved? ==> d == s.data
    ensures !s.Saved? ==> !d.isTracking && d.startTime.None? && d.days == map[]
    ensures !s.Saved? ==> WellFormed(d)
  {
    match s
    case Saved(data) => data
    case _ => EmptyData
  }

  /** The stored total for a day, or 0 when the day has no entry. */
  function DayTotal(d: TimerData, day: DayKey): int {
    if day in d.days then d.days[day] else 0
  }

  /** The display counts a live session only when tracking and the start
      time is present and truthy (not 0). */
  predicate SessionOpen(d: TimerData) {
    d.isTracking && d.startTime.Some? && d.startTime.value != 0
  }

  /** Today's total plus the live session, as updateOutdoorDisplay adds them:
      with no session open it is the stored total, and while one is open it
      is the total that stopping now would save. */
  function DisplayTotal(d: TimerData, now: int, today: DayKey): (t: int)
    ensures !SessionOpen(d) ==> t == DayTotal(d, today)
    ensures SessionOpen(d) ==> t == DayTotal(Toggled(d, now, today), today)
  {
    var currentSession := if SessionOpen(d) then now - d.startTime.value else 0;
    DayTotal(d, today) + currentSession
  }

  datatype Clock = Clock(minutes: int, seconds: int)

  /** JavaScript's `%` by 60: the quotient is truncated towards zero, so the
      remainder takes the sign of the dividend. */
  function JsRem60(a: int): (r: int)
    ensures a >= 0 ==> 0 <= r < 60
    ensures a < 0 ==> -60 < r <= 0
    ensures a == 60 * (if a >= 0 then a / 60 else -((-a) / 60)) + r
  {
    if a >= 0 then a % 60 else -((-a) % 60)
  }

  lemma EuclidUnique(x: int, q: int, r: int)
    requires x == 60 * q + r && 0 <= r < 60
    ensures x / 60 == q && x % 60 == r
  {
  }

  /** Floored minutes and truncated seconds of a whole number of seconds. */
  lemma SplitMinutes(t: int)
    ensures t >= 0 ==> 0 <= t / 60 && 0 <= JsRem60(t) < 60
    ensures t < 0 ==> t / 60 < 0 && -60 < JsRem60(t) <= 0
    ensures (t / 60) * 60 + JsRem60(t) == if t < 0 && JsRem60(t) != 0 then t - 60 else t
  {
    var q, r := t / 60, t % 60;
    assert t == 60 * q + r;
    if t < 0 && r != 0 {
      EuclidUnique(-t, -q - 1, 60 - r);
    } else if t < 0 {
      EuclidUnique(-t, -q, 0);
    }
  }

  /** formatTime(ms): whole minutes and seconds of floor(ms / 1000). For a
      negative duration the seconds are truncated towards zero while the
      minutes are floored, so they then fall a minute short. */
  function FormatTime(ms: int): (c: Clock)
    ensures ms >= 0 ==> 0 <= c.minutes && 0 <= c.seconds < 60
    ensures ms < 0 ==> c.minutes < 0 && -60 < c.seconds <= 0
    ensures c.minutes * 60 + c.seconds == if ms < 0 && c.seconds != 0 then ms / 1000 - 60 else ms / 1000
  {
    var totalSeconds := ms / 1000;   // Math.floor: Dafny's division by a positive divisor floors
    SplitMinutes(totalSeconds);
    var minutes := totalSeconds / 60;
    var seconds := JsRem60(totalSeconds);
    Clock(minutes, seconds)
  }

  /** The share of the daily goal reached, as a percentage, capped at 100. */
  function Progress(total: int): (p: real)
    ensures p <= 100.0
    ensures p == 100.0 <==> total >= GOAL_MS
    ensures total >= 0 ==> p >= 0.0
    ensures total < GOAL_MS ==> p == total as real * 100.0 / GOAL_MS as real
  {
    var ratio := (total as real / GOAL_MS as real) * 100.0;
    if ratio < 100.0 then ratio else 100.0
  }

  datatype Display = Display(time: Clock, progress: real)

  /** What updateOutdoorDisplay renders: the displayed total as minutes and
      seconds, and the bar, full exactly when the goal is reached. */
  function Show(d: TimerData, now: int, today: DayKey): (v: Display)
    ensures var total := DisplayTotal(d, now, today);
      && (total >= 0 ==> 0 <= v.time.seconds < 60 && v.time.minutes * 60 + v.time.seconds == total / 1000)
      && v.progress <= 100.0
      && (v.progress == 100.0 <==> total >= GOAL_MS)
      && (total < 0 ==> v.time.minutes < 0 && -60 < v.time.seconds <= 0
                        && v.time.minutes * 60 + v.time.seconds == if v.time.seconds != 0 then total / 1000 - 60 else total / 1000)
      && (total < GOAL_MS ==> v.progress == total as real * 100.0 / GOAL_MS as real)
      && (total >= 0 ==> v.progress >= 0.0)
  {
    var total := DisplayTotal(d, now, today);
    Display(FormatTime(total), Progress(total))
  }

  /** The record after toggleOutdoorTimer. Stopping without a start time
      makes the elapsed time NaN; NaN is saved as null and null reads back
      as 0, so today's total is then reset to 0. */
  function Toggled(d: TimerData, now: int, today: DayKey): (e: TimerData)
    ensures e.isTracking == !d.isTracking
    ensures WellFormed(e)
    ensures e.isTracking ==> e.startTime == Some(now) && e.days == d.days
    ensures !e.isTracking ==> e.startTime.None? && e.days.Keys == d.days.Keys + {today}
    ensures !e.isTracking ==> forall k :: k in d.days && k != today ==> e.days[k] == d.days[k]
    ensures !e.isTracking ==>
      DayTotal(e, today) == if d.startTime.Some? then DayTotal(d, today) + (now - d.startTime.value) else 0
  {
    if !d.isTracking then
      d.(isTracking := true, startTime := Some(now))
    else
      var before := if today in d.days then d.days[today] else 0;
      var total := match d.startTime
        case Some(start) => before + (now - start)
        case None => 0;
      TimerData(false, None, d.days[today := total])
  }

  datatype ButtonLabel = StartTimer | StopTimer

  /** While a session is open, the live display shows exactly the total that
      stopping now would record for today. */
  lemma LiveDisplayMatchesStop(d: TimerData, now: int, today: DayKey)
    requires SessionOpen(d)
    ensures DisplayTotal(d, now, today) == DayTotal(Toggled(d, now, today), today)
  {
  }

  /** Starting at t0 and stopping at t1 adds exactly t1 - t0 to today's total
      and leaves every other day alone; the display during the session shows
      the same growing total. */
  lemma StartThenStop(d: TimerData, t0: int, t: int, t1: int, today: DayKey)
    requires !d.isTracking && t0 != 0
    ensures DisplayTotal(Toggled(d, t0, today), t, today) == DayTotal(d, today) + (t - t0)
    ensures var e := Toggled(Toggled(d, t0, today), t1, today);
      && !e.isTracking && e.startTime.None?
      && DayTotal(e, today) == DayTotal(d, today) + (t1 - t0)
      && forall k :: k in d.days && k != today ==> k in e.days && e.days[k] == d.days[k]
  {
  }

  /** With a clock that does not run backwards, closing a session never
      lowers today's total. */
  lemma StopNeverLowersTotal(d: TimerData, now: int, today: DayKey)
    requires d.isTracking && d.startTime.Some? && now >= d.startTime.value
    ensures DayTotal(Toggled(d, now, today), today) >= DayTotal(d, today)
  {
  }

  /** Progress grows with the total. */
  lemma ProgressMonotone(a: int, b: int)
    requires a <= b
    ensures Progress(a) <= Progress(b)
  {
  }

  lemma FormatTimeExamples()
    ensures FormatTime(60000) == Clock(1, 0)
    ensures FormatTime(5399999) == Clock(89, 59)
    ensures FormatTime(-1500) == Clock(-1, -2)
  {
  }

  /** The storage entry of the tracker. */
  class OutdoorStore {
    var stored: Stored

    constructor (initial: Stored)
      ensures stored == initial
    {
      stored := initial;
    }

    /** updateOutdoorDisplay. */
    method Refresh(now: int, today: DayKey) returns (shown: Display)
      ensures shown == Show(Load(stored), now, today)
    {
      var data := Load(stored);
      shown := Show(data, now, today);
    }

    /** toggleOutdoorTimer: flip tracking, start or close the session, save,
        then refresh the display. */
    method Toggle(now: int, today: DayKey) returns (buttonText: ButtonLabel, shown: Display)
      modifies this
      ensures stored == Saved(Toggled(Load(old(stored)), now, today))
      ensures buttonText == if Load(stored).isTracking then StopTimer else StartTimer
      ensures shown == Show(Load(stored), now, today)
    {
      var data := Load(stored);
      data := data.(isTracking := !data.isTracking);
      if data.isTracking {
        data := data.(startTime := Some(now));
        buttonText := StopTimer;
      } else {
        var days := data.days;
        if today !in days {
          days := days[today := 0];
        }
        match data.startTime {
          case Some(start) => days := days[today := days[today] + (now - start)];
          case None => days := days[today := 0];
        }
        data := TimerData(false, None, days);
        buttonText := StartTimer;
      }
      stored := Saved(data);
      shown := Refresh(now, today);
    }

    /** initializeOutdoorTracker: the button buttonText and whether the one-second
        refresh is (re)started follow the persisted tracking flag. */
    method Initialize(now: int, today: DayKey) returns (buttonText: ButtonLabel, resumeRefresh: bool, shown: Display)
      ensures resumeRefresh == Load(stored).isTracking
      ensures buttonText == if Load(stored).isTracking then StopTimer else StartTimer
      ensures shown == Show(Load(stored), now, today)
    {
      var data := Load(stored);
      if data.isTracking {
        buttonText, resumeRefresh := StopTimer, true;
      } else {
        buttonText, resumeRefresh := StartTimer, false;
      }
      shown := Refresh(now, today);
    }
  }
}
