/**
 * `NotificationSystem`: the `useNotifications` store of toast-like
 * notifications. Entries are appended with a fresh id, removed by id (by the
 * close button or when their auto-removal timer fires) or all at once.
 *
 * The fresh id (`Math.random().toString(36).substr(2, 9)`) is an input, and
 * instead of starting a timer `addNotification` reports the delay after which
 * the entry's removal is scheduled.
 */
module Notifications {
  import opened Opt
  import opened Seqs

  /** The default auto-removal delay, in milliseconds. */
  const DEFAULT_DURATION: int := 5000

  datatype NoticeKind = Info | Success | Warning | Error

  /** A notification's action button; its click handler is not modelled. */
  datatype Action = Action(buttonLabel: string)

  datatype Notification = Notification(
    id: string,
    kind: NoticeKind,
    title: string,
    message: string,
    duration: Option<int>,
    action: Option<Action>)

  /**
   * The object handed to `addNotification`. Its type omits `id`, but an `id`
   * can still arrive in it through the options spread of the `show*` helpers.
   */
  datatype NotificationFields = NotificationFields(
    id: Option<string>,
    kind: NoticeKind,
    title: string,
    message: string,
    duration: Option<int>,
    action: Option<Action>)

  /** The `Partial<Notification>` options of `show*`: a field is `Some` when present. */
  datatype ShowOptions = ShowOptions(
    id: Option<string>,
    kind: Option<NoticeKind>,
    title: Option<string>,
    message: Option<string>,
    duration: Option<int>,
    action: Option<Action>)

  const NO_OPTIONS := ShowOptions(Option.None, Option.None, Option.None, Option.None, Option.None, Option.None)

  /** `{ ...notification, id }`: the caller's fields with the fresh id written last. */
  function Stamp(fields: NotificationFields, freshId: string): (n: Notification)
    ensures n.id == freshId
    ensures n.kind == fields.kind && n.title == fields.title && n.message == fields.message
    ensures n.duration == fields.duration && n.action == fields.action
  {
    Notification(freshId, fields.kind, fields.title, fields.message, fields.duration, fields.action)
  }

  /** `notification.duration || 5000`: a missing or zero duration means the default. */
  function EffectiveDuration(duration: Option<int>): (d: int)
    ensures d != 0
  {
    if duration.None? || duration.value == 0 then DEFAULT_DURATION else duration.value
  }

  /** Auto-removal is scheduled unless the duration is negative. */
  lemma AutoRemovalUnlessNegative(duration: Option<int>)
    ensures EffectiveDuration(duration) > 0 <==> !(duration.Some? && duration.value < 0)
    ensures duration.None? || duration == Some(0) ==> EffectiveDuration(duration) == DEFAULT_DURATION
    ensures duration.Some? && duration.value != 0 ==> EffectiveDuration(duration) == duration.value
  {
  }

  /** The delay of the removal timer `addNotification` starts, if any. */
  function RemovalTimer(duration: Option<int>): (r: Option<int>)
    ensures r.Some? ==> r.value > 0
    ensures r.None? <==> duration.Some? && duration.value < 0
    ensures r.Some? ==> r.value == EffectiveDuration(duration)
    ensures duration.Some? && duration.value > 0 ==> r == Some(duration.value)
    ensures duration.None? || duration == Some(0) ==> r == Some(DEFAULT_DURATION)
  {
    var d := EffectiveDuration(duration);
    if d > 0 then Some(d) else Option.None
  }

  /** `prev.filter(n => n.id !== id)`. */
  function Removed(notifications: seq<Notification>, id: string): (r: seq<Notification>)
    ensures forall i :: 0 <= i < |r| ==> r[i].id != id
  {
    Filter(notifications, (n: Notification) => n.id != id)
  }

  /**
   * Removing an id drops every entry with that id and keeps the others, in
   * order and with their repeats: only the entries with that id are lost.
   * Removing an absent id changes nothing.
   */
  lemma RemovedKeepsOthers(notifications: seq<Notification>, id: string)
    ensures IsSubseq(Removed(notifications, id), notifications)
    ensures forall i :: 0 <= i < |notifications| && notifications[i].id != id ==>
      notifications[i] in Removed(notifications, id)
    ensures |Removed(notifications, id)| + Count(notifications, (n: Notification) => n.id == id) == |notifications|
    ensures (forall i :: 0 <= i < |notifications| ==> notifications[i].id != id) ==>
      Removed(notifications, id) == notifications
  {
    var p := (n: Notification) => n.id != id;
    CountComplement(notifications, p, (n: Notification) => n.id == id);
    if forall i :: 0 <= i < |notifications| ==> notifications[i].id != id {
      FilterAll(notifications, p);
    }
  }

  /** When its timer fires, an entry added with an id not yet in use leaves the list as it was before. */
  lemma {:induction false} RemoveUndoesAdd(notifications: seq<Notification>, fields: NotificationFields, freshId: string)
    requires forall i :: 0 <= i < |notifications| ==> notifications[i].id != freshId
    ensures Removed(notifications + [Stamp(fields, freshId)], freshId) == notifications
  {
    var p := (n: Notification) => n.id != freshId;
    FilterConcat(notifications, [Stamp(fields, freshId)], p);
    FilterAll(notifications, p);
    assert Filter([Stamp(fields, freshId)], p) == [];
  }

  /** `{ type, title, message, ...options }`: each field present in the options wins. */
  function ShowFields(kind: NoticeKind, title: string, message: string, options: ShowOptions): (f: NotificationFields)
    ensures f.kind == options.kind.GetOr(kind)
    ensures f.title == options.title.GetOr(title)
    ensures f.message == options.message.GetOr(message)
    ensures f.duration == options.duration && f.action == options.action && f.id == options.id
  {
    NotificationFields(
      options.id,
      options.kind.GetOr(kind),
      options.title.GetOr(title),
      options.message.GetOr(message),
      options.duration,
      options.action)
  }

  /**
   * Whatever the options hold, including an `id`, the stored entry carries
   * the fresh id; without options it carries exactly the helper's kind, title
   * and message and the default auto-removal.
   */
  lemma ShowStampsFreshId(kind: NoticeKind, title: string, message: string, options: ShowOptions, freshId: string)
    ensures Stamp(ShowFields(kind, title, message, options), freshId).id == freshId
    ensures options == NO_OPTIONS ==>
      Stamp(ShowFields(kind, title, message, options), freshId)
        == Notification(freshId, kind, title, message, Option.None, Option.None)
      && RemovalTimer(options.duration) == Some(DEFAULT_DURATION)
  {
  }

  /** The state of `useNotifications`. */
  class NotificationStore {
    var notifications: seq<Notification>

    constructor()
      ensures notifications == []
    {
      notifications := [];
    }

    /**
     * `addNotification`: appends the entry under the fresh id and returns
     * that id, with the delay of the removal timer it schedules, if any.
     */
    method AddNotification(fields: NotificationFields, freshId: string) returns (id: string, timer: Option<int>)
      modifies this
      ensures notifications == old(notifications) + [Stamp(fields, freshId)]
      ensures id == freshId
      ensures timer == RemovalTimer(fields.duration)
    {
      id := freshId;
      var entry := Stamp(fields, id);
      notifications := notifications + [entry];
      var duration := EffectiveDuration(fields.duration);
      if duration > 0 {
        timer := Some(duration);
      } else {
        timer := Option.None;
      }
    }

    /** `removeNotification`, also what a fired timer does. */
    method RemoveNotification(id: string)
      modifies this
      ensures notifications == Removed(old(notifications), id)
    {
      notifications := Filter(notifications, (n: Notification) => n.id != id);
    }

    method ClearAll()
      modifies this
      ensures notifications == []
    {
      notifications := [];
    }

    method Show(kind: NoticeKind, title: string, message: string, options: ShowOptions, freshId: string)
      returns (id: string, timer: Option<int>)
      modifies this
      ensures notifications == old(notifications) + [Stamp(ShowFields(kind, title, message, options), freshId)]
      ensures id == freshId
      ensures timer == RemovalTimer(options.duration)
    {
      id, timer := AddNotification(ShowFields(kind, title, message, options), freshId);
    }

    method ShowInfo(title: string, message: string, options: ShowOptions, freshId: string)
      returns (id: string, timer: Option<int>)
      modifies this
      ensures notifications == old(notifications) + [Stamp(ShowFields(Info, title, message, options), freshId)]
      ensures id == freshId && timer == RemovalTimer(options.duration)
    {
      id, timer := Show(Info, title, message, options, freshId);
    }

    method ShowSuccess(title: string, message: string, options: ShowOptions, freshId: string)
      returns (id: string, timer: Option<int>)
      modifies this
      ensures notifications == old(notifications) + [Stamp(ShowFields(Success, title, message, options), freshId)]
      ensures id == freshId && timer == RemovalTimer(options.duration)
    {
      id, timer := Show(Success, title, message, options, freshId);
    }

    method ShowWarning(title: string, message: string, options: ShowOptions, freshId: string)
      returns (id: string, timer: Option<int>)
      modifies this
      ensures notifications == old(notifications) + [Stamp(ShowFields(Warning, title, message, options), freshId)]
      ensures id == freshId && timer == RemovalTimer(options.duration)
    {
      id, timer := Show(Warning, title, message, options, freshId);
    }

    method ShowError(title: string, message: string, options: ShowOptions, freshId: string)
      returns (id: string, timer: Option<int>)
      modifies this
      ensures notifications == old(notifications) + [Stamp(ShowFields(Error, title, message, options), freshId)]
      ensures id == freshId && timer == RemovalTimer(options.duration)
    {
      id, timer := Show(Error, title, message, options, freshId);
    }
  }
}
