// The inspector's real-time monitoring page: a feed of simulated market
// activity that grows by one random entry per tick unless paused, keeps the
// 50 most recent entries, can be narrowed to the flagged ones, and is
// summarised by counts and share volumes. The initial feed, the clock and
// Math.random's draws are inputs.

module Monitoring {
  import opened Common
  import opened StockData

  /** One entry of the feed. */
  datatype Activity = Activity(
    id: int, kind: string, symbol: string, action: string,
    shares: int, price: real, timestamp: string, flagged: bool)

  /** The symbols a simulated activity is drawn from. */
  const FeedSymbols: seq<string> := ["BIAT", "SFBT", "ATB", "UIB", "STAR", "POULINA", "BH", "BNA"]

  /** The number of entries the feed keeps. */
  const FeedLimit: nat := 50

  /** A simulated activity from the clock and seven draws, used in order:
      type, symbol, action, shares, whole price, price fraction, flag. */
  function NewActivity(now: int, timestamp: string, rand: seq<real>): (a: Activity)
    requires |rand| >= 7 && Draws(rand)
    ensures a.id == now && a.timestamp == timestamp
    ensures a.kind == "trade" <==> rand[0] > 0.3
    ensures a.kind == "order" <==> rand[0] <= 0.3
    ensures a.symbol in FeedSymbols
    ensures a.action == "buy" <==> rand[2] > 0.5
    ensures a.action == "sell" <==> rand[2] <= 0.5
    ensures 100 <= a.shares <= 5099
    ensures 5.0 <= a.price < 155.0
    ensures a.flagged <==> rand[6] > 0.85
  {
    var k := (rand[1] * 8.0).Floor;
    var whole := (rand[4] * 150.0).Floor;
    Activity(now,
      if rand[0] > 0.3 then "trade" else "order",
      FeedSymbols[k],
      if rand[2] > 0.5 then "buy" else "sell",
      (rand[3] * 5000.0).Floor + 100,
      whole as real + 5.0 + rand[5],
      timestamp,
      rand[6] > 0.85)
  }

  /** The feed after a new activity: the activity first, then the 49 most
      recent entries. */
  function Pushed(activities: seq<Activity>, a: Activity): (r: seq<Activity>)
    ensures 1 <= |r| <= FeedLimit && r[0] == a
    ensures r[1..] == Take(activities, FeedLimit - 1)
  {
    [a] + Take(activities, FeedLimit - 1)
  }

  /** The sum of the shares of the entries, JavaScript's `reduce`. */
  function SharesSum(s: seq<Activity>): int
  {
    if |s| == 0 then 0 else SharesSum(s[..|s| - 1]) + s[|s| - 1].shares
  }

  predicate IsTrade(a: Activity) { a.kind == "trade" }
  predicate IsOrder(a: Activity) { a.kind == "order" }
  predicate IsFlagged(a: Activity) { a.flagged }
  predicate IsBuy(a: Activity) { a.action == "buy" }
  predicate IsSell(a: Activity) { a.action == "sell" }

  /** The five statistics shown above the feed. */
  datatype Stats = Stats(totalTrades: nat, totalOrders: nat, flaggedCount: nat, buyVolume: int, sellVolume: int)

  /** stats: counts of trades, orders and flagged entries, and the shares
      bought and sold, all over the whole feed. */
  function StatsOf(activities: seq<Activity>): (st: Stats)
    ensures st.totalTrades == Count(activities, IsTrade)
    ensures st.totalOrders == Count(activities, IsOrder)
    ensures st.flaggedCount == Count(activities, IsFlagged)
    ensures st.totalTrades + st.totalOrders <= |activities|
    ensures (forall i :: 0 <= i < |activities| ==> IsBuy(activities[i]) || IsSell(activities[i])) ==>
      st.buyVolume + st.sellVolume == SharesSum(activities)
  {
    CountDisjoint(activities, IsTrade, IsOrder);
    assert (forall i :: 0 <= i < |activities| ==> IsBuy(activities[i]) || IsSell(activities[i])) ==>
      SharesSum(Filter(activities, IsBuy)) + SharesSum(Filter(activities, IsSell)) == SharesSum(activities) by {
      if forall i :: 0 <= i < |activities| ==> IsBuy(activities[i]) || IsSell(activities[i]) {
        VolumesSplit(activities);
      }
    }
    Stats(Count(activities, IsTrade), Count(activities, IsOrder), Count(activities, IsFlagged),
      SharesSum(Filter(activities, IsBuy)), SharesSum(Filter(activities, IsSell)))
  }

  /** Counting over a list with an element in front. */
  lemma {:induction false} CountPrepend<T>(x: T, s: seq<T>, p: T -> bool)
    ensures Count([x] + s, p) == (if p(x) then 1 else 0) + Count(s, p)
  {
    if |s| > 0 {
      var t := [x] + s;
      assert t[..|t| - 1] == [x] + s[..|s| - 1];
      CountPrepend(x, s[..|s| - 1], p);
    }
  }

  /** When every entry is a buy or a sell, the bought and sold volumes add up
      to all the shares of the feed. */
  lemma {:induction false} VolumesSplit(s: seq<Activity>)
    requires forall i :: 0 <= i < |s| ==> IsBuy(s[i]) || IsSell(s[i])
    ensures SharesSum(Filter(s, IsBuy)) + SharesSum(Filter(s, IsSell)) == SharesSum(s)
  {
    if |s| > 0 {
      var front := s[..|s| - 1];
      var x := s[|s| - 1];
      VolumesSplit(front);
      if IsBuy(x) {
        var b := Filter(front, IsBuy) + [x];
        assert b[..|b| - 1] == Filter(front, IsBuy);
        assert Filter(s, IsSell) == Filter(front, IsSell);
      } else {
        var t := Filter(front, IsSell) + [x];
        assert t[..|t| - 1] == Filter(front, IsSell);
        assert Filter(s, IsBuy) == Filter(front, IsBuy);
      }
    }
  }

  /** While the feed is below its limit, a tick adds the new entry to the
      counts it qualifies for and drops nothing. */
  lemma TickCounts(activities: seq<Activity>, a: Activity)
    requires |activities| < FeedLimit
    ensures StatsOf(Pushed(activities, a)).totalTrades == StatsOf(activities).totalTrades + (if IsTrade(a) then 1 else 0)
    ensures StatsOf(Pushed(activities, a)).totalOrders == StatsOf(activities).totalOrders + (if IsOrder(a) then 1 else 0)
    ensures StatsOf(Pushed(activities, a)).flaggedCount == StatsOf(activities).flaggedCount + (if IsFlagged(a) then 1 else 0)
  {
    assert Pushed(activities, a) == [a] + activities;
    CountPrepend(a, activities, IsTrade);
    CountPrepend(a, activities, IsOrder);
    CountPrepend(a, activities, IsFlagged);
  }

  /** The page's state. */
  class MonitoringPage {
    var isPaused: bool
    var showFlaggedOnly: bool
    var activities: seq<Activity>

    constructor(feed: seq<Activity>)
      ensures !isPaused && !showFlaggedOnly && activities == feed
    {
      isPaused := false;
      showFlaggedOnly := false;
      activities := feed;
    }

    /** displayedActivities: the flagged entries in feed order when the
        filter is on, otherwise the whole feed. */
    function Displayed(): (r: seq<Activity>)
      reads this
      ensures !showFlaggedOnly ==> r == activities
      ensures forall x :: x in r <==> x in activities && (showFlaggedOnly ==> x.flagged)
      ensures |r| <= |activities|
    {
      if showFlaggedOnly then Filter(activities, IsFlagged) else activities
    }

    /** One interval tick: unless paused, the activity drawn from the clock
        and seven draws goes first and the feed keeps its 50 most recent
        entries. */
    method Tick(now: int, timestamp: string, rand: seq<real>)
      requires |rand| >= 7 && Draws(rand)
      modifies this`activities
      ensures isPaused ==> activities == old(activities)
      ensures !isPaused ==> activities == Pushed(old(activities), NewActivity(now, timestamp, rand))
      ensures !isPaused ==> |activities| <= FeedLimit && 100 <= activities[0].shares <= 5099
    {
      if isPaused {
        return;
      }
      var a := NewActivity(now, timestamp, rand);
      activities := [a] + Take(activities, FeedLimit - 1);
    }

    /** The pause button. */
    method TogglePaused()
      modifies this`isPaused
      ensures isPaused == !old(isPaused)
    {
      isPaused := !isPaused;
    }

    /** The flagged-only filter button. */
    method ToggleFlaggedOnly()
      modifies this`showFlaggedOnly
      ensures showFlaggedOnly == !old(showFlaggedOnly)
    {
      showFlaggedOnly := !showFlaggedOnly;
    }
  }
}
