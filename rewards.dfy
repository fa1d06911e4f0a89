/** The rewards screen of `app/rewards.tsx`: the daily check-in state machine
    (may the user check in today, and which streak day applies) and the
    ad reward with its limit of ten a day. The clock is the parameter `nowMs`
    (milliseconds since the epoch, UTC); calendar dates are day numbers
    counted from 1970-01-01. */
module Rewards {
  import opened Wrappers
  import Catalog
  import Seqs

  const MsPerDay: int := 1000 * 3600 * 24

  /** 2024-01-01, the date the screen assumes when there was no check-in yet. */
  const DefaultLastCheckIn: int := 19723

  /** The most ads that may be rewarded on one day. */
  const DailyAdLimit: int := 10

  /** Coins credited for one ad. */
  const CoinsPerAd: int := 9

  /** The calendar date (UTC) of an instant: `toISOString().split('T')[0]`. */
  function DayOf(ms: int): int {
    ms / MsPerDay
  }

  /** The screen's per-ad coin amount agrees with the catalogue's. */
  lemma CoinsPerAdMatchesCatalog()
    ensures CoinsPerAd == Catalog.WatchAd.coinsPerAd
  {
  }

  /** One day of the check-in calendar: the schedule slot plus whether it was
      claimed and on which date. */
  datatype CheckInSlot = CheckInSlot(day: int, coins: int, bonus: bool, claimed: bool, date: Option<int>)

  /** `canCheckInToday`. */
  predicate CanCheckInToday(lastCheckIn: Option<int>, nowMs: int): (b: bool)
    ensures b <==> lastCheckIn.None? || lastCheckIn.value != DayOf(nowMs)
  {
    lastCheckIn != Some(DayOf(nowMs))
  }

  /** `daysDiff`: whole days from midnight of the last check-in (or of
      2024-01-01) to now, rounded down. */
  function DaysDiff(lastCheckIn: Option<int>, nowMs: int): (d: int)
    ensures var last := lastCheckIn.GetOr(DefaultLastCheckIn);
      d * MsPerDay <= nowMs - last * MsPerDay < d * MsPerDay + MsPerDay
  {
    (nowMs - lastCheckIn.GetOr(DefaultLastCheckIn) * MsPerDay) / MsPerDay
  }

  /** Since the last check-in is a midnight, `daysDiff` is exactly the number of
      calendar days between that date and today. */
  lemma DaysDiffIsDayDistance(lastCheckIn: Option<int>, nowMs: int)
    ensures DaysDiff(lastCheckIn, nowMs) == DayOf(nowMs) - lastCheckIn.GetOr(DefaultLastCheckIn)
  {
    var last := lastCheckIn.GetOr(DefaultLastCheckIn);
    var q := nowMs / MsPerDay;
    assert nowMs - last * MsPerDay == (q - last) * MsPerDay + nowMs % MsPerDay;
  }

  /** `getCurrentCheckInDay`: the streak day today's check-in would count for,
      or none when the user already checked in today or the last check-in is
      not in the past. */
  function CurrentCheckInDay(lastCheckIn: Option<int>, dailyStreak: int, nowMs: int): (r: Option<int>)
    ensures r.Some? ==> r.value <= 7
    ensures r.Some? && dailyStreak >= 0 ==> r.value >= 1
  {
    if !CanCheckInToday(lastCheckIn, nowMs) then None
    else
      var daysDiff := DaysDiff(lastCheckIn, nowMs);
      if daysDiff == 1 then Some(if dailyStreak + 1 < 7 then dailyStreak + 1 else 7)
      else if daysDiff > 1 then Some(1)
      else None
  }

  /** On the day after the last check-in the streak advances by one, capped
      at 7: it stays at 7 and never wraps round to 1. */
  lemma ConsecutiveDayAdvances(last: int, dailyStreak: int, nowMs: int)
    requires DayOf(nowMs) == last + 1
    ensures CurrentCheckInDay(Some(last), dailyStreak, nowMs) == Some(if dailyStreak + 1 < 7 then dailyStreak + 1 else 7)
    ensures dailyStreak >= 6 ==> CurrentCheckInDay(Some(last), dailyStreak, nowMs) == Some(7)
  {
    DaysDiffIsDayDistance(Some(last), nowMs);
  }

  /** A gap of more than one day starts the streak over at day 1. */
  lemma GapResetsStreak(last: int, dailyStreak: int, nowMs: int)
    requires DayOf(nowMs) > last + 1
    ensures CurrentCheckInDay(Some(last), dailyStreak, nowMs) == Some(1)
  {
    DaysDiffIsDayDistance(Some(last), nowMs);
  }

  /** With no check-in recorded the screen measures from 2024-01-01: from
      2024-01-03 on the streak starts at 1; on 2024-01-02 it is counted as a
      consecutive day; on or before 2024-01-01 there is no check-in day. */
  lemma MissingLastCheckIn(dailyStreak: int, nowMs: int)
    ensures DayOf(nowMs) > DefaultLastCheckIn + 1 ==> CurrentCheckInDay(None, dailyStreak, nowMs) == Some(1)
    ensures DayOf(nowMs) == DefaultLastCheckIn + 1 ==>
      CurrentCheckInDay(None, dailyStreak, nowMs) == Some(if dailyStreak + 1 < 7 then dailyStreak + 1 else 7)
    ensures DayOf(nowMs) <= DefaultLastCheckIn ==> CurrentCheckInDay(None, dailyStreak, nowMs) == None
  {
    DaysDiffIsDayDistance(None, nowMs);
  }

  /** There is no check-in day exactly when today is already checked in or
      the last check-in is not before today. */
  lemma NoCheckInDayIff(lastCheckIn: Option<int>, dailyStreak: int, nowMs: int)
    ensures CurrentCheckInDay(lastCheckIn, dailyStreak, nowMs).None? <==>
      (!CanCheckInToday(lastCheckIn, nowMs) || DayOf(nowMs) <= lastCheckIn.GetOr(DefaultLastCheckIn))
  {
    DaysDiffIsDayDistance(lastCheckIn, nowMs);
  }

  /** The calendar after claiming slot `index` on `date`: that slot is claimed
      and stamped, every other slot is as it was. */
  function MarkClaimed(history: seq<CheckInSlot>, index: int, date: int): (r: seq<CheckInSlot>)
    ensures |r| == |history|
    ensures 0 <= index < |r| ==> r[index] == history[index].(claimed := true, date := Some(date))
    ensures forall i :: 0 <= i < |r| && i != index ==> r[i] == history[i]
  {
    seq(|history|, i requires 0 <= i < |history| =>
      if i == index then history[i].(claimed := true, date := Some(date)) else history[i])
  }

  /** The slot matches the schedule entry for its position. */
  predicate FollowsSchedule(history: seq<CheckInSlot>) {
    |history| == |Catalog.DailyCheckIn()| &&
    forall i :: 0 <= i < |history| ==>
      var e := Catalog.DailyCheckIn()[i];
      history[i].day == e.day && history[i].coins == e.coins && history[i].bonus == e.bonus
  }

  /** Marking a slot claimed keeps the calendar in line with the schedule. */
  lemma MarkClaimedFollowsSchedule(history: seq<CheckInSlot>, index: int, date: int)
    requires FollowsSchedule(history)
    ensures FollowsSchedule(MarkClaimed(history, index, date))
  {
  }

  /** The history tab: the claimed slots, latest schedule day first. */
  function ClaimedHistory(history: seq<CheckInSlot>): (r: seq<CheckInSlot>)
    ensures forall x :: x in r <==> x in history && x.claimed
    ensures IncreasingDays(history) ==> forall i, j :: 0 <= i < j < |r| ==> r[i].day > r[j].day
  {
    var claimed := Seqs.Filter(history, (s: CheckInSlot) => s.claimed);
    var r := Seqs.Reverse(claimed);
    assert forall x :: x in r <==> x in claimed by {
      forall x ensures x in r <==> x in claimed {
        if x in claimed {
          var k :| 0 <= k < |claimed| && claimed[k] == x;
          assert r[|claimed| - 1 - k] == x;
        }
      }
    }
    assert IncreasingDays(history) ==> IncreasingDays(claimed) by {
      if IncreasingDays(history) {
        SubsequenceKeepsIncreasingDays(claimed, history);
      }
    }
    r
  }

  predicate IncreasingDays(s: seq<CheckInSlot>) {
    forall i, j :: 0 <= i < j < |s| ==> s[i].day < s[j].day
  }

  /** A calendar in line with the schedule lists its days in increasing
      order, since slot i is day i + 1. */
  /** In a calendar kept in line with the schedule, as `RewardsState.Valid()`
      keeps it, the history tab lists the claimed slots latest day first. */
  lemma ScheduledHistoryNewestFirst(history: seq<CheckInSlot>)
    requires FollowsSchedule(history)
    ensures var r := ClaimedHistory(history);
      forall i, j :: 0 <= i < j < |r| ==> r[i].day > r[j].day
  {
    ScheduleDaysIncrease(history);
  }

  lemma ScheduleDaysIncrease(history: seq<CheckInSlot>)
    requires FollowsSchedule(history)
    ensures IncreasingDays(history)
  {
    forall i, j | 0 <= i < j < |history|
      ensures history[i].day < history[j].day
    {
      assert history[i].day == Catalog.DailyCheckIn()[i].day == i + 1;
      assert history[j].day == Catalog.DailyCheckIn()[j].day == j + 1;
    }
  }

  lemma {:induction false} SubsequenceKeepsIncreasingDays(s: seq<CheckInSlot>, t: seq<CheckInSlot>)
    requires Seqs.IsSubsequence(s, t) && IncreasingDays(t)
    ensures IncreasingDays(s)
    decreases |t|
  {
    if s != [] && t != [] {
      if s[0] == t[0] && Seqs.IsSubsequence(s[1..], t[1..]) {
        SubsequenceKeepsIncreasingDays(s[1..], t[1..]);
        SubsequenceElementsFromTail(s[1..], t[1..]);
        forall j | 0 < j < |s| ensures s[0].day < s[j].day {
          assert s[j] == s[1..][j - 1] && s[j] in s[1..];
          var m :| 0 <= m < |t[1..]| && t[1..][m] == s[j];
          assert t[m + 1] == s[j];
        }
      } else {
        SubsequenceKeepsIncreasingDays(s, t[1..]);
      }
    }
  }

  lemma {:induction false} SubsequenceElementsFromTail(s: seq<CheckInSlot>, t: seq<CheckInSlot>)
    requires Seqs.IsSubsequence(s, t)
    ensures forall x :: x in s ==> x in t
    decreases |t|
  {
    if s != [] && t != [] {
      if s[0] == t[0] && Seqs.IsSubsequence(s[1..], t[1..]) {
        SubsequenceElementsFromTail(s[1..], t[1..]);
        assert s == [s[0]] + s[1..];
        assert t == [t[0]] + t[1..];
      } else {
        SubsequenceElementsFromTail(s, t[1..]);
        assert t == [t[0]] + t[1..];
      }
    }
  }

  /** The screen's `userRewards` state. */
  class RewardsState {
    var totalCoins: int
    var dailyStreak: int
    var lastCheckIn: Option<int>
    var totalAdsWatched: int
    var dailyAdsWatched: int
    var checkInHistory: seq<CheckInSlot>

    /** The streak is a schedule day (0 before the first check-in) and the
        calendar has one slot per schedule day. */
    ghost predicate Valid()
      reads this
    {
      0 <= dailyStreak <= 7 && FollowsSchedule(checkInHistory)
    }

    /** The screen's starting state: a five-day streak whose last check-in was
        2024-06-27, days 1 to 5 claimed on 2024-06-23 to 2024-06-27. */
    constructor ()
      ensures Valid()
      ensures totalCoins == 1250 && dailyStreak == 5 && lastCheckIn == Some(19901)
      ensures totalAdsWatched == 45 && dailyAdsWatched == 2
      ensures forall i :: 0 <= i < |checkInHistory| ==>
        checkInHistory[i].claimed == (i < 5) &&
        checkInHistory[i].date == (if i < 5 then Some(19897 + i) else None)
    {
      totalCoins := 1250;
      dailyStreak := 5;
      lastCheckIn := Some(19901);
      totalAdsWatched := 45;
      dailyAdsWatched := 2;
      var schedule := Catalog.DailyCheckIn();
      checkInHistory := seq(|schedule|, i requires 0 <= i < |schedule| =>
        CheckInSlot(schedule[i].day, schedule[i].coins, schedule[i].bonus, i < 5,
                    if i < 5 then Some(19897 + i) else None));
    }

    /** `handleCheckIn`: when there is a check-in day, credit that day's
        scheduled coins, record the day as the streak and today as the last
        check-in, and claim that day's slot; otherwise change nothing. */
    method HandleCheckIn(nowMs: int)
      requires Valid()
      modifies this
      ensures Valid()
      ensures totalAdsWatched == old(totalAdsWatched) && dailyAdsWatched == old(dailyAdsWatched)
      ensures var day := CurrentCheckInDay(old(lastCheckIn), old(dailyStreak), nowMs);
        if day.None? then
          totalCoins == old(totalCoins) && dailyStreak == old(dailyStreak) &&
          lastCheckIn == old(lastCheckIn) && checkInHistory == old(checkInHistory)
        else
          1 <= day.value <= 7 &&
          totalCoins == old(totalCoins) + Catalog.DailyCheckIn()[day.value - 1].coins &&
          dailyStreak == day.value &&
          lastCheckIn == Some(DayOf(nowMs)) &&
          checkInHistory == MarkClaimed(old(checkInHistory), day.value - 1, DayOf(nowMs))
    {
      var checkInDay := CurrentCheckInDay(lastCheckIn, dailyStreak, nowMs);
      if checkInDay.None? || checkInDay.value == 0 {
        return;
      }
      var day := checkInDay.value;
      var todayReward := Catalog.DailyCheckIn()[day - 1];
      var today := DayOf(nowMs);
      totalCoins := totalCoins + todayReward.coins;
      dailyStreak := day;
      lastCheckIn := Some(today);
      MarkClaimedFollowsSchedule(checkInHistory, day - 1, today);
      checkInHistory := MarkClaimed(checkInHistory, day - 1, today);
    }

    /** `watchAdForCoins` once the ad has been watched: refused at ten ads
        today; otherwise nine coins and one more ad on both counters. */
    method WatchAdForCoins() returns (granted: bool)
      modifies this
      ensures granted == (old(dailyAdsWatched) < DailyAdLimit)
      ensures dailyStreak == old(dailyStreak) && lastCheckIn == old(lastCheckIn)
      ensures checkInHistory == old(checkInHistory)
      ensures granted ==>
        totalCoins == old(totalCoins) + CoinsPerAd &&
        dailyAdsWatched == old(dailyAdsWatched) + 1 &&
        totalAdsWatched == old(totalAdsWatched) + 1
      ensures !granted ==>
        totalCoins == old(totalCoins) && dailyAdsWatched == old(dailyAdsWatched) &&
        totalAdsWatched == old(totalAdsWatched)
    {
      if dailyAdsWatched >= DailyAdLimit {
        return false;
      }
      totalCoins := totalCoins + CoinsPerAd;
      dailyAdsWatched := dailyAdsWatched + 1;
      totalAdsWatched := totalAdsWatched + 1;
      granted := true;
    }
  }

  /** A successful check-in makes a second one on the same day impossible. */
  lemma SecondCheckInSameDay(dailyStreak: int, nowMs: int)
    ensures !CanCheckInToday(Some(DayOf(nowMs)), nowMs)
    ensures CurrentCheckInDay(Some(DayOf(nowMs)), dailyStreak, nowMs).None?
  {
  }

  /** Seven check-ins on consecutive days after a missed day earn the whole
      schedule: 190 coins, the streak ending at 7. */
  method SevenConsecutiveCheckIns(r: RewardsState, firstDay: int)
    requires r.Valid() && r.lastCheckIn.Some? && r.lastCheckIn.value < firstDay - 1
    modifies r
    ensures r.Valid()
    ensures r.totalCoins == old(r.totalCoins) + 190 && r.dailyStreak == 7
    ensures r.lastCheckIn == Some(firstDay + 6)
  {
    ghost var schedule := Catalog.DailyCheckIn();
    GapResetsStreak(r.lastCheckIn.value, r.dailyStreak, firstDay * MsPerDay);
    r.HandleCheckIn(firstDay * MsPerDay);
    assert schedule[..1] == [schedule[0]];
    var k := 1;
    while k < 7
      invariant 1 <= k <= 7
      invariant r.Valid() && r.dailyStreak == k && r.lastCheckIn == Some(firstDay + k - 1)
      invariant r.totalCoins == old(r.totalCoins) + Seqs.SumOf(schedule[..k], Catalog.Coins)
    {
      ConsecutiveDayAdvances(firstDay + k - 1, k, (firstDay + k) * MsPerDay);
      Seqs.SumOfConcat(schedule[..k], [schedule[k]], Catalog.Coins);
      assert schedule[..k + 1] == schedule[..k] + [schedule[k]];
      r.HandleCheckIn((firstDay + k) * MsPerDay);
      k := k + 1;
    }
    Catalog.FullCycleCoins();
    assert schedule[..7] == schedule;
  }

  /** From the screen's starting state (last check-in 2024-06-27), a week of
      daily check-ins that begins any day after 2024-06-28 ends with 1440
      coins and a full streak. */
  method WeekAfterStartingState(firstDay: int) returns (coins: int, streak: int)
    requires firstDay > 19902
    ensures coins == 1250 + 190 && streak == 7
  {
    var r := new RewardsState();
    SevenConsecutiveCheckIns(r, firstDay);
    coins := r.totalCoins;
    streak := r.dailyStreak;
  }
}
