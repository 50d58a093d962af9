/**
 * `src/pages/Notifications/NotificationsPage.tsx`: the status filter of the delivery log, the
 * defaults of the summary cards and the title of a log entry.
 */
module Notifications {
  import opened Wrappers
  import opened JsStrings
  import opened Lists

  /** The fields of a delivery-log entry the page computes with. */
  datatype NotificationLog = NotificationLog(id: int, notificationType: string, subject: Option<string>, status: string)

  /** The `stats` object; any field may be missing. */
  datatype Stats = Stats(total: Option<int>, sent: Option<int>, failed: Option<int>, pending: Option<int>)

  function StatusOf(n: NotificationLog): string { n.status }

  /** `filteredNotifications`: the history's status filter over the log. */
  function FilteredNotifications(ns: seq<NotificationLog>, filter: string): (r: seq<NotificationLog>)
    ensures filter == "all" ==> r == ns
    ensures filter != "all" ==> forall i :: 0 <= i < |r| ==> r[i] in ns && r[i].status == filter
    ensures filter != "all" ==> forall i :: 0 <= i < |ns| && ns[i].status == filter ==> ns[i] in r
  {
    StatusFiltered(ns, StatusOf, filter)
  }

  /**
   * The log view keeps exactly the entries the filter asks for, in log order: `all` is the
   * whole log, and a status is the entries with it.
   */
  lemma FilteredNotificationsExact(a: seq<NotificationLog>, b: seq<NotificationLog>, filter: string)
    ensures FilteredNotifications(a, "all") == a
    ensures forall n :: n in FilteredNotifications(a, filter) && filter != "all" ==> n in a && n.status == filter
    ensures forall n :: n in a && n.status == filter ==> n in FilteredNotifications(a, filter)
    ensures FilteredNotifications(a + b, filter) == FilteredNotifications(a, filter) + FilteredNotifications(b, filter)
  {
    StatusFilteredAppend(a, b, StatusOf, filter);
    var r := FilteredNotifications(a, filter);
    forall n | n in r && filter != "all"
      ensures n in a && n.status == filter
    {
      var i :| 0 <= i < |r| && r[i] == n;
    }
    forall n | n in a && n.status == filter
      ensures n in r
    {
      var i :| 0 <= i < |a| && a[i] == n;
    }
  }

  /** `stats.x || 0`: a missing count, or a zero one, shows as 0. */
  function StatDisplay(x: Option<int>): (r: int)
    ensures x.None? ==> r == 0
    ensures x.Some? ==> r == x.value
  {
    if x.Some? && x.value != 0 then x.value else 0
  }

  /** The four summary cards: total, sent, failed and pending. */
  function StatCards(s: Stats): (cards: seq<int>)
    ensures |cards| == 4
    ensures cards == [s.total.GetOr(0), s.sent.GetOr(0), s.failed.GetOr(0), s.pending.GetOr(0)]
  {
    [StatDisplay(s.total), StatDisplay(s.sent), StatDisplay(s.failed), StatDisplay(s.pending)]
  }

  /** `notification.subject || notification.notification_type`. */
  function Title(n: NotificationLog): (t: string)
    ensures Truthy(n.subject) ==> t == n.subject.value
    ensures !Truthy(n.subject) ==> t == n.notificationType
  {
    Or(n.subject, n.notificationType)
  }
}
