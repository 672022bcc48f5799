/**
 * The read-state machine of the notification bell: the list of
 * notifications, the unread counter the badge shows, the open flag of the
 * dropdown, and the loading/error flags of the (simulated) fetch.
 */
module NotificationCenter {
  import opened Wrappers
  import opened RenderState

  /** `{id, type, title, message, timestamp, read}`; the timestamp is in milliseconds. */
  datatype Notification = Notification(id: int, kind: string, title: string, message: string, timestamp: int, read: bool)

  /** `notifications.filter(n => !n.read).length` */
  function CountUnread(ns: seq<Notification>): (n: nat)
    ensures n <= |ns|
    ensures n == 0 <==> forall i :: 0 <= i < |ns| ==> ns[i].read
  {
    if |ns| == 0 then 0
    else CountUnread(ns[..|ns| - 1]) + (if ns[|ns| - 1].read then 0 else 1)
  }

  /** How many unread notifications carry the id `id`. */
  function CountUnreadWithId(ns: seq<Notification>, id: int): (n: nat)
    ensures n <= CountUnread(ns)
  {
    if |ns| == 0 then 0
    else CountUnreadWithId(ns[..|ns| - 1], id) + (if ns[|ns| - 1].id == id && !ns[|ns| - 1].read then 1 else 0)
  }

  predicate UniqueIds(ns: seq<Notification>) {
    forall i, j :: 0 <= i < j < |ns| ==> ns[i].id != ns[j].id
  }

  /** The list `markAsRead(id)` stores: the notifications with that id become read. */
  function MarkedRead(ns: seq<Notification>, id: int): (r: seq<Notification>)
    ensures |r| == |ns|
    ensures forall i :: 0 <= i < |ns| ==> r[i] == if ns[i].id == id then ns[i].(read := true) else ns[i]
  {
    seq(|ns|, i requires 0 <= i < |ns| => if ns[i].id == id then ns[i].(read := true) else ns[i])
  }

  /** The list `markAllAsRead` stores. */
  function AllRead(ns: seq<Notification>): (r: seq<Notification>)
    ensures |r| == |ns|
    ensures forall i :: 0 <= i < |ns| ==> r[i] == ns[i].(read := true)
  {
    seq(|ns|, i requires 0 <= i < |ns| => ns[i].(read := true))
  }

  /** Marking one id read takes exactly the unread notifications with that id off the count. */
  lemma {:induction false} MarkedReadCount(ns: seq<Notification>, id: int)
    ensures CountUnread(MarkedRead(ns, id)) == CountUnread(ns) - CountUnreadWithId(ns, id)
    decreases |ns|
  {
    if |ns| > 0 {
      var front := ns[..|ns| - 1];
      assert MarkedRead(ns, id)[..|ns| - 1] == MarkedRead(front, id);
      MarkedReadCount(front, id);
    }
  }

  /** With distinct ids, at most one notification is taken off the count. */
  lemma {:induction false} UniqueIdsCountAtMostOne(ns: seq<Notification>, id: int)
    requires UniqueIds(ns)
    ensures CountUnreadWithId(ns, id) <= 1
    ensures CountUnreadWithId(ns, id) == 1 <==> exists i :: 0 <= i < |ns| && ns[i].id == id && !ns[i].read
    decreases |ns|
  {
    if |ns| > 0 {
      var front := ns[..|ns| - 1];
      var last := ns[|ns| - 1];
      UniqueIdsCountAtMostOne(front, id);
      if last.id == id && !last.read {
        assert forall i :: 0 <= i < |front| ==> front[i].id == ns[i].id != last.id;
      }
      if exists i :: 0 <= i < |ns| && ns[i].id == id && !ns[i].read {
        var i :| 0 <= i < |ns| && ns[i].id == id && !ns[i].read;
        if i < |ns| - 1 {
          assert front[i] == ns[i];
        }
      }
    }
  }

  /** After `markAllAsRead` nothing is unread, and doing it again changes nothing. */
  lemma AllReadSettles(ns: seq<Notification>)
    ensures CountUnread(AllRead(ns)) == 0
    ensures AllRead(AllRead(ns)) == AllRead(ns)
  {
  }

  /** `setUnreadCount(prev => Math.max(0, prev - 1))` */
  function Decremented(count: int): (r: int)
    ensures r >= 0
    ensures count > 0 ==> r == count - 1
    ensures count <= 0 ==> r == 0
  {
    if count - 1 > 0 then count - 1 else 0
  }

  /**
   * With distinct ids, the as-written decrement never lifts the counter above
   * the real number of unread notifications.
   */
  lemma MarkAsReadKeepsCounterBelow(ns: seq<Notification>, count: int, id: int)
    requires UniqueIds(ns) && count <= CountUnread(ns)
    ensures Decremented(count) <= CountUnread(MarkedRead(ns, id))
  {
    MarkedReadCount(ns, id);
    UniqueIdsCountAtMostOne(ns, id);
  }

  /**
   * The counter can fall below the real count: marking an already read
   * notification still decrements it, and the badge disappears while a
   * notification is still unread.
   */
  lemma BadgeHiddenWhileUnread()
    ensures var ns := [Notification(1, "info", "", "", 0, true), Notification(2, "alert", "", "", 0, false)];
      && CountUnread(ns) == 1
      && Decremented(1) == 0
      && CountUnread(MarkedRead(ns, 1)) == 1
      && Badge(Decremented(1)).None?
  {
    var ns := [Notification(1, "info", "", "", 0, true), Notification(2, "alert", "", "", 0, false)];
    assert MarkedRead(ns, 1) == ns;
  }

  /** The evident intent of `markAsRead`: subtract only what was actually unread. */
  function DecrementedBy(count: int, marked: nat): (r: int)
    ensures r >= 0
    ensures count >= marked ==> r == count - marked
  {
    if count - marked > 0 then count - marked else 0
  }

  /** The corrected decrement keeps an exact counter exact. */
  lemma DecrementedByKeepsExact(ns: seq<Notification>, count: int, id: int)
    requires count == CountUnread(ns)
    ensures DecrementedBy(count, CountUnreadWithId(ns, id)) == CountUnread(MarkedRead(ns, id))
  {
    MarkedReadCount(ns, id);
  }

  /** The unread badge: shown, with the counter, exactly when the counter is positive. */
  function Badge(unreadCount: int): (shown: Option<int>)
    ensures shown.Some? <==> unreadCount > 0
    ensures shown.Some? ==> shown.value == unreadCount
  {
    if unreadCount > 0 then Some(unreadCount) else None
  }

  /** The "Mark all as read" button: inside the open panel, and only while the counter is positive. */
  function MarkAllButtonShown(isOpen: bool, unreadCount: int): (shown: bool)
    ensures shown ==> isOpen && Badge(unreadCount).Some?
    ensures isOpen && Badge(unreadCount).Some? ==> shown
  {
    isOpen && unreadCount > 0
  }

  datatype Icon = AlertIcon | SuccessIcon | MarketIcon | DefaultIcon

  const IconKinds := {"alert", "success", "market"}

  /** `getNotificationIcon(type)` */
  function IconFor(kind: string): (icon: Icon)
    ensures icon == DefaultIcon <==> kind !in IconKinds
    ensures icon == AlertIcon <==> kind == "alert"
    ensures icon == SuccessIcon <==> kind == "success"
    ensures icon == MarketIcon <==> kind == "market"
  {
    if kind == "alert" then AlertIcon
    else if kind == "success" then SuccessIcon
    else if kind == "market" then MarketIcon
    else DefaultIcon
  }

  // The messages of the four sample notifications.
  const AlertMessage := "You've reached 80% of your Shopping budget this month."
  const InsightMessage := "Your spending in Groceries category has decreased by 15% compared to last month."
  const SavingsMessage := "You've reached 50% of your Emergency Fund savings goal!"
  const MarketMessage := "AAPL stock price is up by 3% today."

  /** The four sample notifications, timed against the clock reading `nowMs`. */
  function SampleNotifications(nowMs: int): (ns: seq<Notification>)
    ensures |ns| == 4 && UniqueIds(ns)
    ensures CountUnread(ns) == 2
    ensures forall i :: 0 <= i < |ns| ==> ns[i].timestamp < nowMs
  {
    var alert := Notification(1, "alert", "Budget Alert", AlertMessage, nowMs - 1000 * 60 * 30, false);
    var insight := Notification(2, "info", "New Financial Insight", InsightMessage, nowMs - 1000 * 60 * 60 * 3, false);
    var savings := Notification(3, "success", "Savings Goal Progress", SavingsMessage, nowMs - 1000 * 60 * 60 * 24, true);
    var market := Notification(4, "market", "Stock Price Alert", MarketMessage, nowMs - 1000 * 60 * 60 * 48, true);
    var ns := [alert, insight, savings, market];
    assert ns[..1][..0] == [] && ns[..2][..1] == ns[..1] && ns[..3][..2] == ns[..2] && ns[..4][..3] == ns[..3];
    assert CountUnread(ns[..1]) == 1 && CountUnread(ns[..2]) == 2 && CountUnread(ns[..3]) == 2;
    assert ns[..4] == ns;
    ns
  }

  /** The component's state, updated in place by its handlers. */
  class Center {
    var notifications: seq<Notification>
    var loading: bool
    var error: string
    var unreadCount: int
    var isOpen: bool

    /** The counter is never negative: every method keeps this, and every way of setting the counter establishes it. */
    predicate Valid()
      reads this
    {
      unreadCount >= 0
    }

    /** The counter never exceeds the real number of unread notifications. */
    predicate CounterBelow()
      reads this
    {
      unreadCount <= CountUnread(notifications)
    }

    /** The counter is the real number of unread notifications. */
    predicate CounterExact()
      reads this
    {
      unreadCount == CountUnread(notifications)
    }

    /** The initial state of the five `useState` hooks. */
    constructor ()
      ensures Valid() && CounterExact()
      ensures notifications == [] && !loading && error == "" && unreadCount == 0 && !isOpen
    {
      notifications := [];
      loading := false;
      error := "";
      unreadCount := 0;
      isOpen := false;
    }

    method StartLoading()
      modifies this
      ensures old(Valid()) ==> Valid()
      ensures old(CounterExact()) ==> CounterExact()
      ensures loading
      ensures notifications == old(notifications) && error == old(error)
      ensures unreadCount == old(unreadCount) && isOpen == old(isOpen)
    {
      loading := true;
    }

    /** The fetch succeeded: store the list, count its unread entries, stop loading. */
    method LoadSucceeded(list: seq<Notification>)
      modifies this
      ensures notifications == list && unreadCount == CountUnread(list) && !loading
      ensures error == old(error) && isOpen == old(isOpen)
      ensures Valid() && CounterExact()
    {
      notifications := list;
      unreadCount := CountUnread(list);
      loading := false;
    }

    /** The fetch failed: keep the error message, stop loading. */
    method LoadFailed(message: string)
      modifies this
      ensures old(Valid()) ==> Valid()
      ensures old(CounterExact()) ==> CounterExact()
      ensures error == message && !loading
      ensures notifications == old(notifications) && unreadCount == old(unreadCount) && isOpen == old(isOpen)
    {
      error := message;
      loading := false;
    }

    /** `markAsRead(id)`, as written: the counter drops by one whatever was marked. */
    method MarkAsRead(id: int)
      modifies this
      ensures notifications == MarkedRead(old(notifications), id)
      ensures unreadCount == Decremented(old(unreadCount))
      ensures loading == old(loading) && error == old(error) && isOpen == old(isOpen)
      ensures Valid()
      ensures UniqueIds(old(notifications)) && old(CounterBelow()) ==> CounterBelow()
    {
      if UniqueIds(notifications) && CounterBelow() {
        MarkAsReadKeepsCounterBelow(notifications, unreadCount, id);
      }
      notifications := MarkedRead(notifications, id);
      unreadCount := Decremented(unreadCount);
    }

    /** `markAsRead(id)` as evidently intended: the counter drops by the number of notifications it marked. */
    method MarkAsReadExact(id: int)
      modifies this
      ensures notifications == MarkedRead(old(notifications), id)
      ensures unreadCount == DecrementedBy(old(unreadCount), CountUnreadWithId(old(notifications), id))
      ensures loading == old(loading) && error == old(error) && isOpen == old(isOpen)
      ensures Valid()
      ensures old(CounterExact()) ==> CounterExact()
    {
      var marked := CountUnreadWithId(notifications, id);
      if CounterExact() {
        DecrementedByKeepsExact(notifications, unreadCount, id);
      }
      notifications := MarkedRead(notifications, id);
      unreadCount := DecrementedBy(unreadCount, marked);
    }

    method MarkAllAsRead()
      modifies this
      ensures notifications == AllRead(old(notifications)) && unreadCount == 0
      ensures loading == old(loading) && error == old(error) && isOpen == old(isOpen)
      ensures Valid() && CounterExact()
    {
      AllReadSettles(notifications);
      notifications := AllRead(notifications);
      unreadCount := 0;
    }

    /** The bell button. */
    method ToggleOpen()
      modifies this
      ensures old(Valid()) ==> Valid()
      ensures old(CounterExact()) ==> CounterExact()
      ensures isOpen == !old(isOpen)
      ensures notifications == old(notifications) && loading == old(loading)
      ensures error == old(error) && unreadCount == old(unreadCount)
    {
      isOpen := !isOpen;
    }

    /** The Close button. */
    method Close()
      modifies this
      ensures old(Valid()) ==> Valid()
      ensures old(CounterExact()) ==> CounterExact()
      ensures !isOpen
      ensures notifications == old(notifications) && loading == old(loading)
      ensures error == old(error) && unreadCount == old(unreadCount)
    {
      isOpen := false;
    }

    /** What the open panel shows. */
    function PanelContent(): (v: View)
      reads this
      ensures v == ViewOf(loading, error, |notifications| == 0)
    {
      ViewOf(loading, error, |notifications| == 0)
    }
  }
}
