/**
 * The weekly reward calendar and what it implies for trading: which
 * reward window is open, which come next, which paid out last, the market
 * phase and the recommended strategy. The clock is an input: `now` is the
 * time in milliseconds since the epoch and `offset` is London's offset
 * from UTC at that moment (no hour in winter, one in summer), as the time
 * zone database would give it.
 */
module MarketTiming {
  import opened Js
  import Sorting

  datatype Impact = High | Medium | Low

  datatype MarketEffect = Crash | Dip | Recovery | Neutral

  /** A recurring window: its weekday (0 is Sunday), starting hour and length in hours. */
  datatype RewardsWindow = RewardsWindow(
    name: string,
    day: nat,
    hour: nat,
    duration: nat,
    impact: Impact,
    marketEffect: MarketEffect)

  const SecondMs: nat := 1000
  const HourMs: nat := 3600000
  const DayMs: nat := 86400000

  /** The name fragment that marks a daily drop rather than a weekly reward. */
  const DailyContentTag: string := "Daily Content"
  const DailyDropName: string := "Daily Content Drop"

  /** The hour (London) from which the day's content has dropped. */
  const ContentDropHour: nat := 18

  predicate ValidWindow(w: RewardsWindow) {
    w.day < 7 && 0 < w.duration && w.hour + w.duration <= 24
  }

  /** `getRewardsWindows`: four weekly rewards, then the daily drops (none on Wednesday). */
  function RewardsWindows(): (ws: seq<RewardsWindow>)
    ensures |ws| == 10
    ensures forall i :: 0 <= i < |ws| ==> ValidWindow(ws[i])
  {
    [ RewardsWindow("Rivals Rewards", 4, 7, 3, High, Crash),
      RewardsWindow("Weekend League Rewards", 1, 7, 3, High, Crash),
      RewardsWindow("Squad Battles Rewards", 0, 7, 2, Medium, Dip),
      RewardsWindow("TOTW Release", 3, 18, 2, Medium, Neutral),
      RewardsWindow(DailyDropName, 0, 18, 1, Medium, Neutral),
      RewardsWindow(DailyDropName, 1, 18, 1, Medium, Neutral),
      RewardsWindow(DailyDropName, 2, 18, 1, Medium, Neutral),
      RewardsWindow(DailyDropName, 4, 18, 1, Medium, Neutral),
      RewardsWindow(DailyDropName, 5, 18, 1, Medium, Neutral),
      RewardsWindow(DailyDropName, 6, 18, 1, Medium, Neutral) ]
  }

  // ---------------------------------------------------------------------
  // The London clock

  /** A London wall-clock reading: the weekday and the milliseconds since local midnight. */
  datatype LocalTime = LocalTime(day: nat, ms: nat)

  predicate ValidTime(t: LocalTime) {
    t.day < 7 && t.ms < DayMs
  }

  /**
   * `getLondonTime`: the time shifted by London's offset and cut to whole
   * seconds, as the round trip through a locale string leaves it. The
   * epoch fell on a Thursday.
   */
  function London(now: nat, offset: nat): (t: LocalTime)
    ensures ValidTime(t)
  {
    var local := now + offset;
    var ms := local % DayMs;
    assert ms / SecondMs * SecondMs <= ms;
    LocalTime((local / DayMs + 4) % 7, ms / SecondMs * SecondMs)
  }

  function Hour(t: LocalTime): nat {
    t.ms / HourMs
  }

  /** The window is open at `t`: same weekday, and the hour lies in `[hour, hour + duration)`. */
  predicate Covers(w: RewardsWindow, t: LocalTime) {
    w.day == t.day && w.hour <= Hour(t) < w.hour + w.duration
  }

  // ---------------------------------------------------------------------
  // The open window

  /** `isRewardsTime`: some window is open now. */
  predicate IsRewardsTime(now: nat, offset: nat) {
    exists i :: 0 <= i < |RewardsWindows()| && Covers(RewardsWindows()[i], London(now, offset))
  }

  /** `windows.find(...)`: the first window open at `t`. */
  function FirstCovering(ws: seq<RewardsWindow>, t: LocalTime): Option<RewardsWindow> {
    if ws == [] then None
    else if Covers(ws[0], t) then Some(ws[0])
    else FirstCovering(ws[1..], t)
  }

  /** The search finds a window exactly when one is open, and it finds the first open one. */
  lemma {:induction false} FirstCoveringSpec(ws: seq<RewardsWindow>, t: LocalTime)
    ensures FirstCovering(ws, t).Some? <==> exists i :: 0 <= i < |ws| && Covers(ws[i], t)
    ensures FirstCovering(ws, t).Some? ==>
      exists i :: 0 <= i < |ws| && ws[i] == FirstCovering(ws, t).value && Covers(ws[i], t)
        && forall j :: 0 <= j < i ==> !Covers(ws[j], t)
  {
    if ws != [] && !Covers(ws[0], t) {
      FirstCoveringSpec(ws[1..], t);
      if exists i :: 0 <= i < |ws| && Covers(ws[i], t) {
        var i :| 0 <= i < |ws| && Covers(ws[i], t);
        assert ws[1..][i - 1] == ws[i];
      }
      if FirstCovering(ws, t).Some? {
        var i :| 0 <= i < |ws[1..]| && ws[1..][i] == FirstCovering(ws, t).value && Covers(ws[1..][i], t)
          && forall j :: 0 <= j < i ==> !Covers(ws[1..][j], t);
        forall j | 0 <= j < i + 1
          ensures !Covers(ws[j], t)
        {
          if j > 0 {
            assert ws[j] == ws[1..][j - 1];
          }
        }
      }
    }
  }

  /** `getCurrentReward` */
  function CurrentReward(now: nat, offset: nat): Option<RewardsWindow> {
    FirstCovering(RewardsWindows(), London(now, offset))
  }

  /** `getCurrentReward` finds a window exactly when `isRewardsTime` holds, and the window it finds is open. */
  lemma CurrentRewardAgrees(now: nat, offset: nat)
    ensures CurrentReward(now, offset).Some? <==> IsRewardsTime(now, offset)
    ensures CurrentReward(now, offset).Some? ==> Covers(CurrentReward(now, offset).value, London(now, offset))
  {
    FirstCoveringSpec(RewardsWindows(), London(now, offset));
  }

  // ---------------------------------------------------------------------
  // Upcoming rewards

  /** One upcoming occurrence of a window, `hoursUntil` hours from now. */
  datatype Upcoming = Upcoming(reward: RewardsWindow, hoursUntil: real)

  predicate IsDaily(w: RewardsWindow) {
    Includes(w.name, DailyContentTag)
  }

  /**
   * The days until the window's next start: its weekday's distance ahead;
   * on its own weekday at or after its hour, 1 for a daily drop and 7 for
   * a weekly reward.
   */
  function DaysUntil(w: RewardsWindow, t: LocalTime): nat {
    var ahead := (w.day - t.day + 7) % 7;
    if ahead == 0 && Hour(t) >= w.hour then (if IsDaily(w) then 1 else 7) else ahead
  }

  /** Hours from `t` to the start of the window's next occurrence. */
  function HoursUntil(w: RewardsWindow, t: LocalTime): real {
    ((DaysUntil(w, t) * DayMs + w.hour * HourMs) - t.ms) as real / HourMs as real
  }

  /** The loop of `getUpcomingRewards`: each window with a future start, in window order. */
  function Candidates(ws: seq<RewardsWindow>, t: LocalTime): seq<Upcoming>
    decreases |ws|
  {
    if ws == [] then []
    else
      var w := ws[|ws| - 1];
      Candidates(ws[..|ws| - 1], t) + (if HoursUntil(w, t) > 0.0 then [Upcoming(w, HoursUntil(w, t))] else [])
  }

  function HoursKey(u: Upcoming): real {
    u.hoursUntil
  }

  /** `getUpcomingRewards`: the candidates sorted by how soon they start. */
  function UpcomingRewards(now: nat, offset: nat): seq<Upcoming> {
    Sorting.SortBy(Candidates(RewardsWindows(), London(now, offset)), HoursKey)
  }

  /** A valid window's next start is always in the future, and at most a week away. */
  lemma HoursUntilBounds(w: RewardsWindow, t: LocalTime)
    requires ValidWindow(w) && ValidTime(t)
    ensures 0.0 < HoursUntil(w, t) <= 168.0
  {
    var d := DaysUntil(w, t);
    var diff := (d * DayMs + w.hour * HourMs) - t.ms;
    assert d <= 7;
    if d == 0 {
      assert t.ms < w.hour * HourMs;
    } else if d == 7 {
      assert w.hour * HourMs <= t.ms;
      assert diff <= 7 * DayMs;
    } else {
      assert d * DayMs <= 6 * DayMs;
      assert w.hour * HourMs <= 23 * HourMs;
    }
    assert 0 < diff <= 168 * HourMs;
  }

  /** No window is ever dropped by the `hoursUntil > 0` filter: every window has exactly one candidate, in order. */
  lemma {:induction false} CandidatesAll(ws: seq<RewardsWindow>, t: LocalTime)
    requires ValidTime(t) && forall i :: 0 <= i < |ws| ==> ValidWindow(ws[i])
    ensures |Candidates(ws, t)| == |ws|
    ensures forall i :: 0 <= i < |ws| ==> Candidates(ws, t)[i] == Upcoming(ws[i], HoursUntil(ws[i], t))
    decreases |ws|
  {
    if ws != [] {
      var n := |ws| - 1;
      CandidatesAll(ws[..n], t);
      HoursUntilBounds(ws[n], t);
    }
  }

  /**
   * The upcoming list holds one entry per window (all ten), each starting
   * between now and a week ahead, at that window's next start, in
   * ascending order of start.
   */
  lemma UpcomingSpec(now: nat, offset: nat)
    ensures |UpcomingRewards(now, offset)| == |RewardsWindows()|
    ensures Sorting.SortedBy(UpcomingRewards(now, offset), HoursKey)
    ensures multiset(UpcomingRewards(now, offset)) == multiset(Candidates(RewardsWindows(), London(now, offset)))
    ensures forall u :: u in UpcomingRewards(now, offset) ==>
      u.hoursUntil == HoursUntil(u.reward, London(now, offset)) && 0.0 < u.hoursUntil <= 168.0
    ensures forall i :: 0 <= i < |UpcomingRewards(now, offset)| ==>
      UpcomingRewards(now, offset)[i].reward in RewardsWindows() && ValidWindow(UpcomingRewards(now, offset)[i].reward)
  {
    SortedCandidates(RewardsWindows(), London(now, offset));
  }

  /** Sorting the candidates of valid windows keeps one entry per window, each a week ahead at most, ascending. */
  lemma SortedCandidates(ws: seq<RewardsWindow>, t: LocalTime)
    requires ValidTime(t) && forall i :: 0 <= i < |ws| ==> ValidWindow(ws[i])
    ensures |Sorting.SortBy(Candidates(ws, t), HoursKey)| == |ws|
    ensures Sorting.SortedBy(Sorting.SortBy(Candidates(ws, t), HoursKey), HoursKey)
    ensures multiset(Sorting.SortBy(Candidates(ws, t), HoursKey)) == multiset(Candidates(ws, t))
    ensures forall u :: u in Sorting.SortBy(Candidates(ws, t), HoursKey) ==>
      u.hoursUntil == HoursUntil(u.reward, t) && 0.0 < u.hoursUntil <= 168.0
    ensures forall i :: 0 <= i < |Sorting.SortBy(Candidates(ws, t), HoursKey)| ==>
      Sorting.SortBy(Candidates(ws, t), HoursKey)[i].reward in ws
      && ValidWindow(Sorting.SortBy(Candidates(ws, t), HoursKey)[i].reward)
  {
    var c := Candidates(ws, t);
    var r := Sorting.SortBy(c, HoursKey);
    CandidatesAll(ws, t);
    Sorting.SortBySpec(c, HoursKey);
    forall u | u in r
      ensures u.hoursUntil == HoursUntil(u.reward, t) && 0.0 < u.hoursUntil <= 168.0
      ensures u.reward in ws && ValidWindow(u.reward)
    {
      assert u in multiset(c);
      var i :| 0 <= i < |c| && c[i] == u;
      HoursUntilBounds(ws[i], t);
    }
    forall i | 0 <= i < |r|
      ensures r[i].reward in ws && ValidWindow(r[i].reward)
    {
      assert r[i] in r;
    }
  }

  /** `getUpcomingRewards`: one pass over the windows collecting future starts, then a sort. */
  method GetUpcomingRewards(now: nat, offset: nat) returns (upcoming: seq<Upcoming>)
    ensures upcoming == UpcomingRewards(now, offset)
  {
    var londonTime := London(now, offset);
    var found := CollectUpcoming(RewardsWindows(), londonTime);
    upcoming := Sorting.SortBy(found, HoursKey);
  }

  /** The loop of `getUpcomingRewards` over the given windows. */
  method CollectUpcoming(windows: seq<RewardsWindow>, londonTime: LocalTime) returns (found: seq<Upcoming>)
    ensures found == Candidates(windows, londonTime)
  {
    found := [];
    var i := 0;
    while i < |windows|
      invariant 0 <= i <= |windows|
      invariant found == Candidates(windows[..i], londonTime)
    {
      var window := windows[i];
      assert windows[..i + 1][..i] == windows[..i] && windows[..i + 1][i] == window;
      var daysUntil := (window.day - londonTime.day + 7) % 7;
      if daysUntil == 0 && Hour(londonTime) >= window.hour {
        if Includes(window.name, DailyContentTag) {
          daysUntil := 1;
        } else {
          daysUntil := 7;
        }
      }
      var hoursUntil := ((daysUntil * DayMs + window.hour * HourMs) - londonTime.ms) as real / HourMs as real;
      if hoursUntil > 0.0 {
        found := found + [Upcoming(window, hoursUntil)];
      }
      i := i + 1;
    }
    assert windows[..i] == windows;
  }

  /** `getNextRewardsTime`: the first upcoming reward (there always is one). */
  function NextReward(now: nat, offset: nat): Upcoming {
    UpcomingSpec(now, offset);
    UpcomingRewards(now, offset)[0]
  }

  /** The next reward is one of the windows, and none starts sooner. */
  lemma NextRewardIsSoonest(now: nat, offset: nat)
    ensures NextReward(now, offset) in UpcomingRewards(now, offset)
    ensures NextReward(now, offset).reward in RewardsWindows()
    ensures forall i :: 0 <= i < |RewardsWindows()| ==>
      NextReward(now, offset).hoursUntil <= HoursUntil(RewardsWindows()[i], London(now, offset))
  {
    var ws := RewardsWindows();
    var t := London(now, offset);
    var c := Candidates(ws, t);
    CandidatesAll(ws, t);
    UpcomingSpec(now, offset);
    Sorting.SortByFirst(c, HoursKey);
    forall i | 0 <= i < |ws|
      ensures NextReward(now, offset).hoursUntil <= HoursUntil(ws[i], t)
    {
      assert c[i] in c;
    }
    var k :| 0 <= k < |c| && c[k] == NextReward(now, offset);
  }

  // ---------------------------------------------------------------------
  // The last reward

  /** One past occurrence of a window, `hoursAgo` hours before now. */
  datatype Past = Past(reward: RewardsWindow, hoursAgo: real)

  /**
   * Hours since the window's most recent start: today's start for a window
   * on today's weekday (negative when its hour is still ahead), otherwise
   * its start on its weekday earlier this week.
   */
  function HoursAgo(w: RewardsWindow, t: LocalTime): real {
    if w.day == t.day then (t.ms - w.hour * HourMs) as real / HourMs as real
    else
      var back := (t.day - w.day + 7) % 7;
      var daysAgo := if back == 0 then 7 else back;
      ((t.ms + daysAgo * DayMs) - w.hour * HourMs) as real / HourMs as real
  }

  /** How far back a window counts: a day for today's weekday, a week otherwise. */
  function LookBack(w: RewardsWindow, t: LocalTime): real {
    if w.day == t.day then 24.0 else 168.0
  }

  predicate RecentlyPaid(w: RewardsWindow, t: LocalTime) {
    0.0 < HoursAgo(w, t) <= LookBack(w, t)
  }

  /** The loop of `getLastReward`: each window that paid out within its look-back, in window order. */
  function PastRewards(ws: seq<RewardsWindow>, t: LocalTime): seq<Past>
    decreases |ws|
  {
    if ws == [] then []
    else
      var w := ws[|ws| - 1];
      PastRewards(ws[..|ws| - 1], t) + (if RecentlyPaid(w, t) then [Past(w, HoursAgo(w, t))] else [])
  }

  function AgoKey(p: Past): real {
    p.hoursAgo
  }

  /** `getLastReward`: none when nothing paid out recently, else the most recent. */
  function LastReward(now: nat, offset: nat): Option<Past> {
    var past := PastRewards(RewardsWindows(), London(now, offset));
    if past == [] then None
    else
      Sorting.SortBySpec(past, AgoKey);
      Some(Sorting.SortBy(past, AgoKey)[0])
  }

  /** The past list holds exactly the recently paid windows, each with its hours ago. */
  lemma PastRewardsSpec(ws: seq<RewardsWindow>, t: LocalTime)
    ensures forall p :: p in PastRewards(ws, t) <==>
      exists i :: 0 <= i < |ws| && RecentlyPaid(ws[i], t) && p == Past(ws[i], HoursAgo(ws[i], t))
  {
    PastRewardsSound(ws, t);
    PastRewardsComplete(ws, t);
  }

  lemma {:induction false} PastRewardsSound(ws: seq<RewardsWindow>, t: LocalTime)
    ensures forall p :: p in PastRewards(ws, t) ==>
      exists i :: 0 <= i < |ws| && RecentlyPaid(ws[i], t) && p == Past(ws[i], HoursAgo(ws[i], t))
    decreases |ws|
  {
    if ws != [] {
      var n := |ws| - 1;
      PastRewardsSound(ws[..n], t);
      forall p | p in PastRewards(ws, t)
        ensures exists i :: 0 <= i < |ws| && RecentlyPaid(ws[i], t) && p == Past(ws[i], HoursAgo(ws[i], t))
      {
        if p in PastRewards(ws[..n], t) {
          var i :| 0 <= i < n && RecentlyPaid(ws[..n][i], t) && p == Past(ws[..n][i], HoursAgo(ws[..n][i], t));
          assert ws[i] == ws[..n][i];
        } else {
          assert RecentlyPaid(ws[n], t) && p == Past(ws[n], HoursAgo(ws[n], t));
        }
      }
    }
  }

  lemma {:induction false} PastRewardsComplete(ws: seq<RewardsWindow>, t: LocalTime)
    ensures forall i :: 0 <= i < |ws| && RecentlyPaid(ws[i], t) ==> Past(ws[i], HoursAgo(ws[i], t)) in PastRewards(ws, t)
    decreases |ws|
  {
    if ws != [] {
      var n := |ws| - 1;
      PastRewardsComplete(ws[..n], t);
      forall i | 0 <= i < n && RecentlyPaid(ws[i], t)
        ensures Past(ws[i], HoursAgo(ws[i], t)) in PastRewards(ws, t)
      {
        assert ws[..n][i] == ws[i];
      }
    }
  }

  /**
   * There is a last reward exactly when some window paid out within its
   * look-back; it is one of those, paid out between 0 and 168 hours ago,
   * and none of them paid out more recently.
   */
  lemma LastRewardSpec(now: nat, offset: nat)
    ensures LastReward(now, offset).None? <==> forall i :: 0 <= i < |RewardsWindows()| ==> !RecentlyPaid(RewardsWindows()[i], London(now, offset))
    ensures LastReward(now, offset).Some? ==>
      var p := LastReward(now, offset).value;
      && (exists i :: 0 <= i < |RewardsWindows()| && RecentlyPaid(RewardsWindows()[i], London(now, offset))
            && p == Past(RewardsWindows()[i], HoursAgo(RewardsWindows()[i], London(now, offset))))
      && 0.0 < p.hoursAgo <= 168.0
      && forall i :: 0 <= i < |RewardsWindows()| && RecentlyPaid(RewardsWindows()[i], London(now, offset)) ==>
           p.hoursAgo <= HoursAgo(RewardsWindows()[i], London(now, offset))
  {
    var ws := RewardsWindows();
    var t := London(now, offset);
    var past := PastRewards(ws, t);
    PastRewardsSpec(ws, t);
    if past != [] {
      var p := LastReward(now, offset).value;
      Sorting.SortByFirst(past, AgoKey);
      assert past[0] in past;
      forall i | 0 <= i < |ws| && RecentlyPaid(ws[i], t)
        ensures p.hoursAgo <= HoursAgo(ws[i], t)
      {
        assert Past(ws[i], HoursAgo(ws[i], t)) in past;
      }
    }
  }

  /** A window on today's weekday counts only once its hour has passed today: last week's occurrence is never considered. */
  lemma SameDayLooksBackOnlyToToday(w: RewardsWindow, t: LocalTime)
    requires ValidTime(t) && w.day == t.day
    ensures RecentlyPaid(w, t) <==> w.hour * HourMs < t.ms
  {
  }

  /** `getLastReward`: one pass collecting recent payouts, then the most recent by sorting. */
  method GetLastReward(now: nat, offset: nat) returns (last: Option<Past>)
    ensures last == LastReward(now, offset)
  {
    var londonTime := London(now, offset);
    var pastRewards := CollectPast(RewardsWindows(), londonTime);
    if |pastRewards| == 0 {
      return None;
    }
    Sorting.SortBySpec(pastRewards, AgoKey);
    last := Some(Sorting.SortBy(pastRewards, AgoKey)[0]);
  }

  /** The loop of `getLastReward` over the given windows. */
  method CollectPast(windows: seq<RewardsWindow>, londonTime: LocalTime) returns (pastRewards: seq<Past>)
    ensures pastRewards == PastRewards(windows, londonTime)
  {
    pastRewards := [];
    var i := 0;
    while i < |windows|
      invariant 0 <= i <= |windows|
      invariant pastRewards == PastRewards(windows[..i], londonTime)
    {
      var window := windows[i];
      assert windows[..i + 1][..i] == windows[..i] && windows[..i + 1][i] == window;
      if window.day == londonTime.day {
        var hoursAgo := (londonTime.ms - window.hour * HourMs) as real / HourMs as real;
        if hoursAgo > 0.0 && hoursAgo <= 24.0 {
          pastRewards := pastRewards + [Past(window, hoursAgo)];
        }
      } else {
        var daysAgo := (londonTime.day - window.day + 7) % 7;
        if daysAgo == 0 {
          daysAgo := 7;
        }
        var hoursAgo := ((londonTime.ms + daysAgo * DayMs) - window.hour * HourMs) as real / HourMs as real;
        if hoursAgo > 0.0 && hoursAgo <= 168.0 {
          pastRewards := pastRewards + [Past(window, hoursAgo)];
        }
      }
      i := i + 1;
    }
    assert windows[..i] == windows;
  }

  // ---------------------------------------------------------------------
  // Market phase and strategy

  datatype Phase = PreReward | RewardActive | PostReward | Normal

  datatype Strategy = Sell | Buy | Hold | Wait

  /** The weekday in UTC (the post-reward check reads the clock in UTC, not London time). */
  function UtcDay(now: nat): nat {
    (now / DayMs + 4) % 7
  }

  /** Hours since the window's end on its next UTC weekday from today (today included). */
  function HoursSinceEnd(w: RewardsWindow, now: nat): real {
    var daysUntil := (w.day - UtcDay(now) + 7) % 7;
    var end := (now / DayMs + daysUntil) * DayMs + (w.hour + w.duration) * HourMs;
    (now - end) as real / HourMs as real
  }

  predicate JustEnded(w: RewardsWindow, now: nat) {
    0.0 <= HoursSinceEnd(w, now) <= 2.0
  }

  /** The next reward is close enough to sell ahead of: a high impact one within 6 hours, a medium one within 3. */
  predicate Imminent(next: Upcoming) {
    next.hoursUntil <= 6.0 && (next.reward.impact == High || (next.reward.impact == Medium && next.hoursUntil <= 3.0))
  }

  /** `getMarketPhase` */
  function MarketPhase(now: nat, offset: nat): Phase {
    if CurrentReward(now, offset).Some? then RewardActive
    else if Imminent(NextReward(now, offset)) then PreReward
    else if exists i :: 0 <= i < |RewardsWindows()| && JustEnded(RewardsWindows()[i], now) then PostReward
    else Normal
  }

  /** Only a window on today's UTC weekday can have just ended: any other's end is still ahead. */
  lemma JustEndedToday(w: RewardsWindow, now: nat)
    requires JustEnded(w, now)
    ensures w.day % 7 == UtcDay(now)
  {
  }

  /** The phase is reward-active exactly when a window is open. */
  lemma PhaseActive(now: nat, offset: nat)
    ensures MarketPhase(now, offset) == RewardActive <==> IsRewardsTime(now, offset)
  {
    CurrentRewardAgrees(now, offset);
  }

  /** Pre-reward only before an imminent reward, and never while a window is open. */
  lemma PhasePre(now: nat, offset: nat)
    ensures MarketPhase(now, offset) == PreReward ==> !IsRewardsTime(now, offset) && Imminent(NextReward(now, offset))
  {
    CurrentRewardAgrees(now, offset);
  }

  /** Post-reward only within two hours after the end of a window on today's UTC weekday. */
  lemma PhasePost(now: nat, offset: nat)
    ensures MarketPhase(now, offset) == PostReward ==>
      exists i :: 0 <= i < |RewardsWindows()| && RewardsWindows()[i].day == UtcDay(now) && JustEnded(RewardsWindows()[i], now)
  {
    if MarketPhase(now, offset) == PostReward {
      SomeJustEndedToday(RewardsWindows(), now);
    }
  }

  lemma SomeJustEndedToday(ws: seq<RewardsWindow>, now: nat)
    requires forall i :: 0 <= i < |ws| ==> ws[i].day < 7
    requires exists i :: 0 <= i < |ws| && JustEnded(ws[i], now)
    ensures exists i :: 0 <= i < |ws| && ws[i].day == UtcDay(now) && JustEnded(ws[i], now)
  {
    var i :| 0 <= i < |ws| && JustEnded(ws[i], now);
    JustEndedToday(ws[i], now);
  }

  /** Normal only when no window is open, none is imminent and none just ended. */
  lemma PhaseNormal(now: nat, offset: nat)
    ensures MarketPhase(now, offset) == Normal ==>
      !IsRewardsTime(now, offset) && !Imminent(NextReward(now, offset))
      && forall i :: 0 <= i < |RewardsWindows()| ==> !JustEnded(RewardsWindows()[i], now)
  {
    CurrentRewardAgrees(now, offset);
  }

  /** `getRecommendedStrategy` */
  function RecommendedStrategy(phase: Phase, nextReward: Option<RewardsWindow>): Strategy {
    match phase
    case PreReward => if nextReward.Some? && nextReward.value.impact == High then Sell else Hold
    case RewardActive => Wait
    case PostReward => Buy
    case Normal => Hold
  }

  /** Sell only ahead of a high impact reward, wait only while one is active, buy only just after one. */
  lemma StrategySpec(phase: Phase, nextReward: Option<RewardsWindow>)
    ensures RecommendedStrategy(phase, nextReward) == Sell <==> phase == PreReward && nextReward.Some? && nextReward.value.impact == High
    ensures RecommendedStrategy(phase, nextReward) == Wait <==> phase == RewardActive
    ensures RecommendedStrategy(phase, nextReward) == Buy <==> phase == PostReward
    ensures RecommendedStrategy(phase, nextReward) == Hold <==>
      phase == Normal || (phase == PreReward && !(nextReward.Some? && nextReward.value.impact == High))
  {
  }

  // ---------------------------------------------------------------------
  // Daily content and the combined context

  datatype ContentType = Packs | Sbc | Objectives | Unknown

  datatype DailyContent = DailyContent(kind: ContentType, tradeable: bool, impact: Impact, description: string)

  /** `getTodaysDailyContent`: a placeholder once the day's content has dropped, nothing before. */
  function TodaysDailyContent(now: nat, offset: nat): Option<DailyContent> {
    if Hour(London(now, offset)) >= ContentDropHour then
      Some(DailyContent(Unknown, false, Medium, "Daily content detected (API integration pending)"))
    else None
  }

  /** One entry of the context's upcoming list. */
  datatype RewardSummary = RewardSummary(name: string, day: string, timeUntil: real, impact: Impact)

  function DayName(day: nat): string
    requires day < 7
  {
    ["Sunday", "Monday", "Tuesday", "Wednesday", "Thursday", "Friday", "Saturday"][day]
  }

  /** The upcoming list without the daily drops, as summaries. */
  function WeeklySummaries(us: seq<Upcoming>): seq<RewardSummary>
    requires forall i :: 0 <= i < |us| ==> ValidWindow(us[i].reward)
    decreases |us|
  {
    if us == [] then []
    else
      var rest := WeeklySummaries(us[1..]);
      assert ValidWindow(us[0].reward);
      if IsDaily(us[0].reward) then rest
      else [RewardSummary(us[0].reward.name, DayName(us[0].reward.day), us[0].hoursUntil, us[0].reward.impact)] + rest
  }

  datatype Context = Context(
    isRewardsTime: bool,
    activeReward: Option<RewardsWindow>,
    lastReward: Option<Past>,
    nextReward: Upcoming,
    upcomingRewards: seq<RewardSummary>,
    dailyContent: Option<DailyContent>,
    dayOfWeek: string,
    hourLondon: nat,
    marketPhase: Phase,
    recommendedStrategy: Strategy)

  /** `getMarketTimingContext`, without the two `Date` objects it also returns. */
  function MarketTimingContext(now: nat, offset: nat): Context {
    var londonTime := London(now, offset);
    var current := CurrentReward(now, offset);
    var next := NextReward(now, offset);
    var phase := MarketPhase(now, offset);
    UpcomingSpec(now, offset);
    Context(
      current.Some?,
      current,
      LastReward(now, offset),
      next,
      WeeklySummaries(UpcomingRewards(now, offset)),
      TodaysDailyContent(now, offset),
      DayName(londonTime.day),
      Hour(londonTime),
      phase,
      RecommendedStrategy(phase, Some(next.reward)))
  }

  /** The summaries skip every daily drop. */
  lemma {:induction false} SummariesNotDaily(us: seq<Upcoming>)
    requires forall i :: 0 <= i < |us| ==> ValidWindow(us[i].reward)
    ensures forall r :: r in WeeklySummaries(us) ==> !Includes(r.name, DailyContentTag)
    decreases |us|
  {
    if us != [] {
      SummariesNotDaily(us[1..]);
    }
  }

  /** A lower bound on the entries' start times bounds the summaries' too. */
  lemma {:induction false} SummariesAtLeast(us: seq<Upcoming>, x: real)
    requires forall i :: 0 <= i < |us| ==> ValidWindow(us[i].reward)
    requires forall i :: 0 <= i < |us| ==> x <= us[i].hoursUntil
    ensures forall r :: r in WeeklySummaries(us) ==> x <= r.timeUntil
    decreases |us|
  {
    if us != [] {
      SummariesAtLeast(us[1..], x);
    }
  }

  /** Summaries of a list in order of start are in order of start. */
  lemma {:induction false} SummariesSorted(us: seq<Upcoming>)
    requires forall i :: 0 <= i < |us| ==> ValidWindow(us[i].reward)
    requires Sorting.SortedBy(us, HoursKey)
    ensures forall i, j :: 0 <= i < j < |WeeklySummaries(us)| ==> WeeklySummaries(us)[i].timeUntil <= WeeklySummaries(us)[j].timeUntil
    decreases |us|
  {
    if us != [] {
      var tail := us[1..];
      assert Sorting.SortedBy(tail, HoursKey) by {
        forall i, j | 0 <= i < j < |tail|
          ensures HoursKey(tail[i]) <= HoursKey(tail[j])
        {
          assert tail[i] == us[i + 1] && tail[j] == us[j + 1];
        }
      }
      SummariesSorted(tail);
      forall i | 0 <= i < |tail|
        ensures us[0].hoursUntil <= tail[i].hoursUntil
      {
        assert tail[i] == us[i + 1] && HoursKey(us[0]) <= HoursKey(us[i + 1]);
      }
      SummariesAtLeast(tail, us[0].hoursUntil);
      var s := WeeklySummaries(us);
      var rest := WeeklySummaries(tail);
      if !IsDaily(us[0].reward) {
        forall i, j | 0 <= i < j < |s|
          ensures s[i].timeUntil <= s[j].timeUntil
        {
          assert s[j] == rest[j - 1] && s[j] in rest;
          if i > 0 {
            assert s[i] == rest[i - 1];
          }
        }
      }
    }
  }

  /**
   * The context agrees with its parts: it is reward time exactly when a
   * reward is active; daily content is present exactly from 18:00 London
   * time; the upcoming list holds no daily drop and runs in order of
   * start; the next reward starts no later than any of them; and the
   * strategy is to sell only ahead of an imminent high impact reward.
   */
  lemma ContextSpec(now: nat, offset: nat)
    ensures MarketTimingContext(now, offset).isRewardsTime == MarketTimingContext(now, offset).activeReward.Some?
    ensures MarketTimingContext(now, offset).isRewardsTime <==> IsRewardsTime(now, offset)
    ensures MarketTimingContext(now, offset).dailyContent.Some? <==> MarketTimingContext(now, offset).hourLondon >= ContentDropHour
    ensures forall r :: r in MarketTimingContext(now, offset).upcomingRewards ==> !Includes(r.name, DailyContentTag)
    ensures forall r :: r in MarketTimingContext(now, offset).upcomingRewards ==>
      MarketTimingContext(now, offset).nextReward.hoursUntil <= r.timeUntil
    ensures forall i, j :: 0 <= i < j < |MarketTimingContext(now, offset).upcomingRewards| ==>
      MarketTimingContext(now, offset).upcomingRewards[i].timeUntil <= MarketTimingContext(now, offset).upcomingRewards[j].timeUntil
    ensures MarketTimingContext(now, offset).recommendedStrategy == Sell ==>
      MarketTimingContext(now, offset).nextReward.reward.impact == High && MarketTimingContext(now, offset).nextReward.hoursUntil <= 6.0
  {
    var ctx := MarketTimingContext(now, offset);
    var us := UpcomingRewards(now, offset);
    var t := London(now, offset);
    CurrentRewardAgrees(now, offset);
    UpcomingSpec(now, offset);
    SummariesNotDaily(us);
    SummariesSorted(us);
    assert forall i :: 0 <= i < |us| ==> HoursKey(us[0]) <= HoursKey(us[i]);
    SummariesAtLeast(us, us[0].hoursUntil);
    PhasePre(now, offset);
    StrategySpec(ctx.marketPhase, Some(ctx.nextReward.reward));
  }

  /**
   * A daily drop whose hour has passed is moved to tomorrow rather than to
   * next week, so on a Sunday evening Monday's drop is listed twice: once
   * for Sunday's window and once for Monday's.
   */
  lemma DailyDropListedTwice()
    ensures var t := LocalTime(0, 19 * HourMs);
      HoursUntil(RewardsWindows()[4], t) == HoursUntil(RewardsWindows()[5], t) == 23.0
  {
    var t := LocalTime(0, 19 * HourMs);
    IncludesAt(DailyDropName, DailyContentTag, 0);
    assert DaysUntil(RewardsWindows()[4], t) == 1;
    assert DaysUntil(RewardsWindows()[5], t) == 1;
  }
}
