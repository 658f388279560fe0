/** The daily withdraw limit of the pickup action: how many non-canceled orders
    already have a `start_date` inside the calendar day of a proposed pickup. */
module Quota {
  import opened Wrappers
  import opened Domain

  /** The day number of an instant; `startOfDay`/`endOfDay` are the ends of that day. */
  function Day(t: int): int { t / DAY }

  function StartOfDay(t: int): int { Day(t) * DAY }

  function EndOfDay(t: int): int { StartOfDay(t) + DAY - 1 }

  /** The interval `[StartOfDay(t), EndOfDay(t)]` holds exactly the instants of t's day. */
  lemma WithinDayIff(s: int, t: int)
    ensures StartOfDay(t) <= s <= EndOfDay(t) <==> Day(s) == Day(t)
  {
  }

  /** The most pickups already counted on a day for which one more is still admitted. */
  const DailyLimit: nat := 5

  /** The row matches `start_date BETWEEN lo AND hi AND canceled_at IS NULL`. */
  predicate PickedUpBetween(o: Order, lo: int, hi: int)
  {
    o.canceled_at.None? && o.start_date.Some? && lo <= o.start_date.value <= hi
  }

  /** The ids the quota query counts for the day containing `t`, over all deliverymen. */
  function PickedUpOn(orders: map<nat, Order>, t: int): set<nat>
  {
    set id | id in orders && PickedUpBetween(orders[id], StartOfDay(t), EndOfDay(t))
  }

  function DayCount(orders: map<nat, Order>, t: int): nat
  {
    |PickedUpOn(orders, t)|
  }

  /** The quota guard refuses a pickup dated `t`: the count must be MORE than five. */
  predicate QuotaRefuses(orders: map<nat, Order>, t: int)
  {
    DayCount(orders, t) > DailyLimit
  }

  /** What a successful pickup writes: only that order's `start_date`. */
  function WithPickup(orders: map<nat, Order>, id: nat, t: int): (r: map<nat, Order>)
    requires id in orders
    ensures r.Keys == orders.Keys
    ensures forall k :: k in orders && k != id ==> r[k] == orders[k]
    ensures r[id] == orders[id].(start_date := Some(t))
  {
    orders[id := orders[id].(start_date := Some(t))]
  }

  /** No day has more than six non-canceled pickups. */
  ghost predicate WithinDailyBound(orders: map<nat, Order>)
  {
    forall t :: DayCount(orders, t) <= DailyLimit + 1
  }

  /** A pickup of a not-yet-withdrawn order adds one to the count of its own day, and only
      when the order is not canceled; every other day keeps its count. */
  lemma PickupCount(orders: map<nat, Order>, id: nat, s: int, t: int)
    requires id in orders && orders[id].start_date.None?
    ensures DayCount(WithPickup(orders, id, s), t)
         == DayCount(orders, t) + if Day(s) == Day(t) && orders[id].canceled_at.None? then 1 else 0
  {
    var after := WithPickup(orders, id, s);
    var before := PickedUpOn(orders, t);
    assert id !in before;
    WithinDayIff(s, t);
    if Day(s) == Day(t) && orders[id].canceled_at.None? {
      assert PickedUpOn(after, t) == before + {id};
    } else {
      assert PickedUpOn(after, t) == before;
    }
  }

  /** The guard admits a sixth pickup on a day that already has five. */
  lemma SixthPickupAdmitted(orders: map<nat, Order>, id: nat, s: int)
    requires id in orders && orders[id].start_date.None? && orders[id].canceled_at.None?
    requires DayCount(orders, s) == DailyLimit
    ensures !QuotaRefuses(orders, s)
    ensures DayCount(WithPickup(orders, id, s), s) == DailyLimit + 1
  {
    PickupCount(orders, id, s, s);
  }

  /** Pickups the guard admits never take a day beyond six. */
  lemma PickupKeepsDailyBound(orders: map<nat, Order>, id: nat, s: int)
    requires WithinDailyBound(orders)
    requires id in orders && orders[id].start_date.None?
    requires !QuotaRefuses(orders, s)
    ensures WithinDailyBound(WithPickup(orders, id, s))
  {
    forall t
      ensures DayCount(WithPickup(orders, id, s), t) <= DailyLimit + 1
    {
      PickupCount(orders, id, s, t);
      if Day(s) == Day(t) {
        assert StartOfDay(s) == StartOfDay(t);
      }
    }
  }

  /** A change that starts no new non-canceled pickup (creating an unstarted order, editing
      product or ids, canceling) keeps the bound. */
  lemma NoNewPickups(before: map<nat, Order>, after: map<nat, Order>)
    requires WithinDailyBound(before)
    requires forall id :: id in after && after[id].canceled_at.None? && after[id].start_date.Some?
               ==> id in before && before[id].canceled_at.None? && before[id].start_date == after[id].start_date
    ensures WithinDailyBound(after)
  {
    forall t
      ensures DayCount(after, t) <= DailyLimit + 1
    {
      var a, b := PickedUpOn(after, t), PickedUpOn(before, t);
      assert a <= b;
      assert |b| == |a| + |b - a| by {
        assert b == a + (b - a);
      }
      assert DayCount(before, t) <= DailyLimit + 1;
    }
  }
}
