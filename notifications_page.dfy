/**
 * The Notifications page shows the cached list filtered by the active tab:
 * 0 all, 1 unread, 2 approved (success), 3 warnings; any other tab index
 * falls through to "all".
 */
module NotificationsPage {
  import opened Seqs
  import opened NotificationModel
  import NotificationContext

  /** The `switch (activeTab)` inside the filter callback. */
  predicate TabKeeps(tab: int, n: Notification) {
    if tab == 1 then !n.read
    else if tab == 2 then n.kind == Success
    else if tab == 3 then n.kind == Warning
    else true
  }

  function TabFilter(ns: seq<Notification>, tab: int): (r: seq<Notification>)
    ensures |r| <= |ns|
    ensures forall i :: 0 <= i < |r| ==> TabKeeps(tab, r[i])
  {
    Filter(ns, (n: Notification) => TabKeeps(tab, n))
  }

  /** The shown list never adds or reorders notifications. */
  lemma TabFilterIsSubsequence(ns: seq<Notification>, tab: int)
    ensures IsSubsequence(TabFilter(ns, tab), ns)
  {
    FilterIsSubsequence(ns, (n: Notification) => TabKeeps(tab, n));
  }

  /** Each notification is shown as often as the list holds it when the tab keeps it, else never. */
  lemma TabFilterCounts(ns: seq<Notification>, tab: int)
    ensures forall n :: multiset(TabFilter(ns, tab))[n] == if TabKeeps(tab, n) then multiset(ns)[n] else 0
  {
    FilterCounts(ns, (n: Notification) => TabKeeps(tab, n));
  }

  /** Tab 0, and any tab the switch does not name, shows the whole list. */
  lemma AllTabShowsAll(ns: seq<Notification>, tab: int)
    requires tab !in {1, 2, 3}
    ensures TabFilter(ns, tab) == ns
  {
    FilterKeepsAll(ns, (n: Notification) => TabKeeps(tab, n));
  }

  /** The unread tab shows as many notifications as the counter counts after a fetch. */
  lemma UnreadTabMatchesCounter(ns: seq<Notification>)
    ensures TabFilter(ns, 1) == Filter(ns, NotificationContext.Unread)
    ensures |TabFilter(ns, 1)| == NotificationContext.CountUnread(ns)
  {
    FilterCongruent(ns, (n: Notification) => TabKeeps(1, n), NotificationContext.Unread);
  }

  /** The success and warning tabs show exactly the notifications of that kind. */
  lemma KindTabsSelectKind(ns: seq<Notification>)
    ensures forall n :: multiset(TabFilter(ns, 2))[n] == if n.kind == Success then multiset(ns)[n] else 0
    ensures forall n :: multiset(TabFilter(ns, 3))[n] == if n.kind == Warning then multiset(ns)[n] else 0
  {
    TabFilterCounts(ns, 2);
    TabFilterCounts(ns, 3);
  }
}
