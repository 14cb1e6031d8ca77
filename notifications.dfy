/** The push-notification screen: the compose form, the recipient estimate,
    sending (immediately or scheduled), cancelling a scheduled notification
    and the integer counters of the stats panel. */
module Notifications {
  import opened Seqs

  datatype Target = All | Specific | Segment

  datatype Platform = AllPlatforms | Android | Ios | Web

  datatype NotificationStatus = Draft | Scheduled | Sent | Failed

  /** A notification; the optional fields of the record are `Option`s and
      the timestamps are opaque strings. */
  datatype Notification = Notification(
    id: int,
    title: string,
    message: string,
    target: Target,
    targetUsers: Option<seq<int>>,
    targetSegment: Option<string>,
    scheduled: bool,
    scheduledTime: Option<string>,
    status: NotificationStatus,
    sentAt: Option<string>,
    createdAt: string,
    openCount: int,
    totalSent: int,
    platform: Platform,
    imageUrl: Option<string>,
    deepLink: Option<string>)

  /** A user segment; its name, description and criteria are display-only. */
  datatype UserSegment = UserSegment(id: string, userCount: int)

  /** The segment list the screen starts with. */
  const DefaultSegments: seq<UserSegment> := [
    UserSegment("active", 1250),
    UserSegment("inactive", 890),
    UserSegment("new", 340),
    UserSegment("premium", 156),
    UserSegment("kenya", 980),
    UserSegment("international", 670)]

  /** The stats panel's integer counters (the open rate is left out). */
  datatype Stats = Stats(totalSent: int, totalOpened: int, scheduled: int, failed: int)

  const ZeroStats := Stats(0, 0, 0, 0)

  /** The compose form. The segment is held as a segment id: the select
      and the segment cards store any id of the segment list, whatever the
      record type declares. */
  datatype Form = Form(
    title: string,
    message: string,
    target: Target,
    targetUsers: seq<int>,
    targetSegment: string,
    scheduled: bool,
    scheduledTime: string,
    platform: Platform,
    imageUrl: string,
    deepLink: string)

  const DefaultForm := Form("", "", All, [], "active", false, "", AllPlatforms, "", "")

  /** The estimated audience size of the form: 2500 for everyone, the
      first segment with the chosen id (0 if none matches), or the number
      of listed user ids. */
  function EstimatedRecipients(form: Form, segments: seq<UserSegment>): (n: int)
    ensures form.target == All ==> n == 2500
    ensures form.target == Specific ==> n == |form.targetUsers|
    ensures form.target == Segment ==>
              var want := form.targetSegment;
              ((forall i :: 0 <= i < |segments| ==> segments[i].id != want) ==> n == 0) &&
              (forall i :: (0 <= i < |segments| && segments[i].id == want &&
                 (forall j :: 0 <= j < i ==> segments[j].id != want)) ==> n == segments[i].userCount)
  {
    match form.target
    case All => 2500
    case Segment =>
      var found := Find((s: UserSegment) => s.id == form.targetSegment, segments);
      if found.Some? then found.value.userCount else 0
    case Specific => |form.targetUsers|
  }

  /** With the screen's own segment list every id the select or a segment
      card can store is found with its own count: active 1250, inactive 890,
      new 340, premium 156, kenya 980, international 670; any other id
      estimates 0. */
  lemma DefaultSegmentEstimates(form: Form)
    requires form.target == Segment
    ensures forall i :: 0 <= i < |DefaultSegments| && form.targetSegment == DefaultSegments[i].id ==>
              EstimatedRecipients(form, DefaultSegments) == DefaultSegments[i].userCount
    ensures form.targetSegment == "kenya" ==> EstimatedRecipients(form, DefaultSegments) == 980
    ensures form.targetSegment == "international" ==> EstimatedRecipients(form, DefaultSegments) == 670
    ensures form.targetSegment !in ["active", "inactive", "new", "premium", "kenya", "international"] ==>
              EstimatedRecipients(form, DefaultSegments) == 0
  {
    var s := DefaultSegments;
    assert forall i, j :: 0 <= j < i < |s| ==> |s[j].id| != |s[i].id|;
    assert s[4].id == "kenya" && s[5].id == "international";
    var ids := ["active", "inactive", "new", "premium", "kenya", "international"];
    if form.targetSegment !in ids {
      assert forall i :: 0 <= i < |s| ==> s[i].id == ids[i];
    }
  }

  /** The load-time counters: recipients and opens summed, scheduled and
      failed notifications counted. */
  function TotalSentOf(ns: seq<Notification>): int
  {
    Sum((n: Notification) => n.totalSent, ns)
  }

  function TotalOpenedOf(ns: seq<Notification>): int
  {
    Sum((n: Notification) => n.openCount, ns)
  }

  function ScheduledCount(ns: seq<Notification>): nat
  {
    |Filter((n: Notification) => n.status == Scheduled, ns)|
  }

  function FailedCount(ns: seq<Notification>): nat
  {
    |Filter((n: Notification) => n.status == Failed, ns)|
  }

  /** The stats computed from a list of notifications at load time. */
  function InitialStats(ns: seq<Notification>): (r: Stats)
    ensures r.scheduled + r.failed <= |ns|
    ensures (forall i :: 0 <= i < |ns| ==> ns[i].totalSent >= 0) ==> r.totalSent >= 0
    ensures (forall i :: 0 <= i < |ns| ==> ns[i].openCount >= 0) ==> r.totalOpened >= 0
  {
    FilterDisjoint((n: Notification) => n.status == Scheduled, (n: Notification) => n.status == Failed, ns);
    SumNonNegative((n: Notification) => n.totalSent, ns);
    SumNonNegative((n: Notification) => n.openCount, ns);
    Stats(TotalSentOf(ns), TotalOpenedOf(ns), ScheduledCount(ns), FailedCount(ns))
  }

  function AddStats(a: Stats, b: Stats): Stats
  {
    Stats(a.totalSent + b.totalSent, a.totalOpened + b.totalOpened, a.scheduled + b.scheduled, a.failed + b.failed)
  }

  lemma SumsAppend(a: seq<Notification>, b: seq<Notification>)
    ensures TotalSentOf(a + b) == TotalSentOf(a) + TotalSentOf(b)
    ensures TotalOpenedOf(a + b) == TotalOpenedOf(a) + TotalOpenedOf(b)
  {
    SumAppend((n: Notification) => n.totalSent, a, b);
    SumAppend((n: Notification) => n.openCount, a, b);
  }

  lemma CountsAppend(a: seq<Notification>, b: seq<Notification>)
    ensures ScheduledCount(a + b) == ScheduledCount(a) + ScheduledCount(b)
    ensures FailedCount(a + b) == FailedCount(a) + FailedCount(b)
  {
    FilterAppend((n: Notification) => n.status == Scheduled, a, b);
    FilterAppend((n: Notification) => n.status == Failed, a, b);
  }

  /** The load-time stats of two lists together are the sums of their stats. */
  lemma InitialStatsAppend(a: seq<Notification>, b: seq<Notification>)
    ensures InitialStats(a + b) == AddStats(InitialStats(a), InitialStats(b))
  {
    SumsAppend(a, b);
    CountsAppend(a, b);
  }

  /** The load-time stats of one notification. */
  lemma InitialStatsSingle(n: Notification)
    ensures InitialStats([n]) ==
            Stats(n.totalSent, n.openCount, if n.status == Scheduled then 1 else 0, if n.status == Failed then 1 else 0)
  {
    SumSingle((x: Notification) => x.totalSent, n);
    SumSingle((x: Notification) => x.openCount, n);
    FilterSingle((x: Notification) => x.status == Scheduled, n);
    FilterSingle((x: Notification) => x.status == Failed, n);
  }

  /** The notification a send creates from the form. */
  function NewNotification(form: Form, id: int, recipients: int, now: string): (r: Notification)
    ensures r.id == id && r.title == form.title && r.message == form.message
    ensures r.status == Scheduled <==> form.scheduled
    ensures r.status == Sent <==> !form.scheduled
    ensures r.sentAt.Some? <==> !form.scheduled
    ensures r.openCount == 0 && r.totalSent == recipients
  {
    Notification(
      id, form.title, form.message, form.target,
      Some(form.targetUsers), Some(form.targetSegment), form.scheduled, Some(form.scheduledTime),
      if form.scheduled then Scheduled else Sent,
      if form.scheduled then None else Some(now),
      now, 0, recipients, form.platform, Some(form.imageUrl), Some(form.deepLink))
  }

  /** The stats after a send: an immediate send adds its recipients to the
      total sent, a scheduled one adds one to the scheduled count. */
  function SendStats(stats: Stats, scheduled: bool, recipients: int): (r: Stats)
    ensures !scheduled ==> r.totalSent == stats.totalSent + recipients && r.scheduled == stats.scheduled
    ensures scheduled ==> r.totalSent == stats.totalSent && r.scheduled == stats.scheduled + 1
    ensures r.totalOpened == stats.totalOpened && r.failed == stats.failed
  {
    if !scheduled then stats.(totalSent := stats.totalSent + recipients)
    else stats.(scheduled := stats.scheduled + 1)
  }

  /** Stats that agree with the list keep agreeing after an immediate send;
      after a scheduled send they agree only when the estimate was 0, since
      the load-time sum counts a scheduled notification's recipients and
      the send does not. */
  lemma SendKeepsStatsInSync(stats: Stats, ns: seq<Notification>, form: Form, id: int, recipients: int, now: string)
    requires stats == InitialStats(ns)
    ensures !form.scheduled ==>
              SendStats(stats, false, recipients) == InitialStats([NewNotification(form, id, recipients, now)] + ns)
    ensures form.scheduled ==>
              (SendStats(stats, true, recipients) == InitialStats([NewNotification(form, id, recipients, now)] + ns)
               <==> recipients == 0)
  {
    var n := NewNotification(form, id, recipients, now);
    InitialStatsAppend([n], ns);
    InitialStatsSingle(n);
  }

  /** `cancelScheduledNotification`'s list update: every notification with
      that id is removed, the rest keep their order. */
  function WithoutNotification(ns: seq<Notification>, id: int): (r: seq<Notification>)
    ensures forall i :: 0 <= i < |r| ==> r[i] in ns && r[i].id != id
    ensures forall i :: 0 <= i < |ns| && ns[i].id != id ==> ns[i] in r
  {
    Filter((n: Notification) => n.id != id, ns)
  }

  /** Removing by id from a list where only `n` carries that id. */
  lemma WithoutTheOnly(before: seq<Notification>, n: Notification, after: seq<Notification>)
    requires forall i :: 0 <= i < |before| ==> before[i].id != n.id
    requires forall i :: 0 <= i < |after| ==> after[i].id != n.id
    ensures WithoutNotification(before + [n] + after, n.id) == before + after
  {
    FilterRemovesOnly((x: Notification) => x.id != n.id, before, n, after);
  }

  /** Cancelling the one notification with that id, when it is scheduled and
      has no recipients or opens, keeps agreeing stats in agreement. */
  lemma CancelKeepsStatsInSync(stats: Stats, before: seq<Notification>, n: Notification, after: seq<Notification>)
    requires stats == InitialStats(before + [n] + after)
    requires n.status == Scheduled && n.totalSent == 0 && n.openCount == 0
    requires forall i :: 0 <= i < |before| ==> before[i].id != n.id
    requires forall i :: 0 <= i < |after| ==> after[i].id != n.id
    ensures WithoutNotification(before + [n] + after, n.id) == before + after
    ensures stats.(scheduled := stats.scheduled - 1) == InitialStats(before + after)
  {
    WithoutTheOnly(before, n, after);
    InitialStatsAppend(before + [n], after);
    InitialStatsAppend(before, [n]);
    InitialStatsAppend(before, after);
    InitialStatsSingle(n);
  }

  /** The id of the next notification is the list length plus one, so
      after a cancellation it can repeat a live id: with ids 1 to 5,
      cancelling 2 and sending gives a second notification with id 5, and a
      later cancel of 5 removes both. */
  lemma IdCollisionAfterCancel(a: Notification, b: Notification, c: Notification, d: Notification, e: Notification,
                               form: Form, recipients: int, now: string)
    requires a.id == 1 && b.id == 2 && c.id == 3 && d.id == 4 && e.id == 5
    ensures WithoutNotification([a, b, c, d, e], 2) == [a, c, d, e]
    ensures var sent := NewNotification(form, |[a, c, d, e]| + 1, recipients, now);
            sent.id == e.id &&
            WithoutNotification([sent, a, c, d, e], 5) == [a, c, d]
  {
    FirstCancel(a, b, c, d, e);
    SecondCancel(NewNotification(form, 5, recipients, now), a, c, d, e);
  }

  lemma FirstCancel(a: Notification, b: Notification, c: Notification, d: Notification, e: Notification)
    requires a.id == 1 && b.id == 2 && c.id == 3 && d.id == 4 && e.id == 5
    ensures WithoutNotification([a, b, c, d, e], 2) == [a, c, d, e]
  {
    var q := (x: Notification) => x.id != 2;
    assert [a, b, c, d, e] == [a] + [b] + [c, d, e];
    FilterRemovesOnly(q, [a], b, [c, d, e]);
    assert [a] + [c, d, e] == [a, c, d, e];
  }

  lemma SecondCancel(sent: Notification, a: Notification, c: Notification, d: Notification, e: Notification)
    requires a.id == 1 && c.id == 3 && d.id == 4 && sent.id == 5 && e.id == 5
    ensures WithoutNotification([sent, a, c, d, e], 5) == [a, c, d]
  {
    var q := (x: Notification) => x.id != 5;
    var s := [sent, a, c, d, e];
    assert s[1..] == [a, c, d] + [e];
    FilterDropsLast(q, [a, c, d], e);
    assert Filter(q, s) == Filter(q, s[1..]);
  }

  /** The screen's state and its handlers. */
  class NotificationsScreen {
    var notifications: seq<Notification>
    var form: Form
    var segments: seq<UserSegment>
    var stats: Stats

    constructor ()
      ensures notifications == [] && form == DefaultForm && segments == DefaultSegments && stats == ZeroStats
    {
      notifications := [];
      form := DefaultForm;
      segments := DefaultSegments;
      stats := ZeroStats;
    }

    /** The mount-time load: the list and the stats computed from it. */
    method Load(loaded: seq<Notification>)
      modifies this
      ensures notifications == loaded && stats == InitialStats(loaded)
      ensures form == old(form) && segments == old(segments)
    {
      notifications := loaded;
      stats := InitialStats(loaded);
    }

    /** A segment card's "Send to Segment" button: the form targets that
      segment by its id; every other field of the form is kept. */
    method SendToSegment(segment: UserSegment)
      modifies this
      ensures form == old(form).(target := Segment, targetSegment := segment.id)
      ensures notifications == old(notifications) && segments == old(segments) && stats == old(stats)
    {
      form := form.(target := Segment, targetSegment := segment.id);
    }

    /** `handleInputChange`: the form as edited. */
    method EditForm(edited: Form)
      modifies this
      ensures form == edited
      ensures notifications == old(notifications) && segments == old(segments) && stats == old(stats)
    {
      form := edited;
    }

    /** `sendNotification`: a form without a title or without a message is
        refused and nothing changes; otherwise the new notification goes to
        the front of the list, the form is reset and the stats are updated.
        `now` is the current time as an ISO string. */
    method SendNotification(now: string) returns (sent: bool)
      modifies this
      ensures sent <==> old(form).title != "" && old(form).message != ""
      ensures !sent ==> notifications == old(notifications) && form == old(form) && stats == old(stats)
      ensures sent ==>
                var recipients := EstimatedRecipients(old(form), old(segments));
                notifications == [NewNotification(old(form), |old(notifications)| + 1, recipients, now)] + old(notifications) &&
                form == DefaultForm &&
                stats == SendStats(old(stats), old(form).scheduled, recipients)
      ensures sent && !old(form).scheduled && old(stats) == InitialStats(old(notifications)) ==>
                stats == InitialStats(notifications)
      ensures segments == old(segments)
    {
      if form.title == "" || form.message == "" {
        return false;
      }
      var recipients := EstimatedRecipients(form, segments);
      var n := NewNotification(form, |notifications| + 1, recipients, now);
      var scheduled := form.scheduled;
      if stats == InitialStats(notifications) {
        SendKeepsStatsInSync(stats, notifications, form, n.id, recipients, now);
      }
      notifications := [n] + notifications;
      ResetForm();
      stats := SendStats(stats, scheduled, recipients);
      sent := true;
    }

    /** `resetForm`: back to the default form. */
    method ResetForm()
      modifies this
      ensures form == DefaultForm
      ensures notifications == old(notifications) && segments == old(segments) && stats == old(stats)
    {
      form := DefaultForm;
    }

    /** `cancelScheduledNotification`: every notification with that id goes
        and the scheduled count drops by one, whether or not anything was
        removed. */
    method CancelScheduledNotification(id: int)
      modifies this
      ensures notifications == WithoutNotification(old(notifications), id)
      ensures stats == old(stats).(scheduled := old(stats).scheduled - 1)
      ensures form == old(form) && segments == old(segments)
    {
      notifications := WithoutNotification(notifications, id);
      stats := stats.(scheduled := stats.scheduled - 1);
    }
  }
}
