/**
 * The process-wide notification feed (src/components/store/useNotificationStore.ts):
 * a most-recent-first list that only `addNotification` and
 * `clearNotifications` replace.
 */
module NotificationStore {
  import opened Seqs

  /** The decoded message body (`NotificationMessage` in src/context/NotificationContext.tsx). */
  datatype NotificationMessage = NotificationMessage(title: string, message: string, kind: string, timestamp: string)

  /** The list after `addNotification(n)`: `[n, ...notifications]`. */
  function Added(notifications: seq<NotificationMessage>, n: NotificationMessage): (r: seq<NotificationMessage>)
    ensures |r| == |notifications| + 1
    ensures r[0] == n && r[1..] == notifications
  {
    [n] + notifications
  }

  /** The list after adding each of `arrivals` in turn, oldest arrival first. */
  function AddedAll(notifications: seq<NotificationMessage>, arrivals: seq<NotificationMessage>): (r: seq<NotificationMessage>)
    ensures |r| == |notifications| + |arrivals|
    decreases |arrivals|
  {
    if arrivals == [] then notifications
    else AddedAll(Added(notifications, arrivals[0]), arrivals[1..])
  }

  /** Arrivals end up in reverse arrival order, in front of what was already there. */
  lemma {:induction false} AddedAllReversesArrivals(notifications: seq<NotificationMessage>, arrivals: seq<NotificationMessage>)
    ensures AddedAll(notifications, arrivals) == Reverse(arrivals) + notifications
    decreases |arrivals|
  {
    if arrivals != [] {
      AddedAllReversesArrivals(Added(notifications, arrivals[0]), arrivals[1..]);
      assert Reverse(arrivals) == Reverse(arrivals[1..]) + [arrivals[0]];
    }
  }

  /** Starting from the empty store, the newest arrival is at index 0 and the first arrival is last. */
  lemma NewestFirst(arrivals: seq<NotificationMessage>)
    requires arrivals != []
    ensures AddedAll([], arrivals)[0] == arrivals[|arrivals| - 1]
    ensures AddedAll([], arrivals)[|arrivals| - 1] == arrivals[0]
  {
    AddedAllReversesArrivals([], arrivals);
    ReverseEnds(arrivals);
  }

  lemma {:induction false} ReverseEnds<T>(s: seq<T>)
    requires s != []
    ensures Reverse(s)[0] == s[|s| - 1] && Reverse(s)[|s| - 1] == s[0]
    decreases |s|
  {
    if |s| > 1 {
      ReverseEnds(s[1..]);
      assert Reverse(s) == Reverse(s[1..]) + [s[0]];
    }
  }

  /** No deduplication: the same record added twice is there twice. */
  lemma NoDeduplication(notifications: seq<NotificationMessage>, n: NotificationMessage)
    ensures var r := Added(Added(notifications, n), n);
      |r| == |notifications| + 2 && r[0] == n && r[1] == n && r[2..] == notifications
  {
  }

  class NotificationStore {
    var notifications: seq<NotificationMessage>

    /** The store is created empty. */
    constructor ()
      ensures notifications == []
    {
      notifications := [];
    }

    /** `addNotification(n)`: put `n` in front of the list. */
    method AddNotification(n: NotificationMessage)
      modifies this
      ensures notifications == Added(old(notifications), n)
    {
      notifications := [n] + notifications;
    }

    /** `clearNotifications()`: empty the list, whatever it held (so clearing twice is clearing once). */
    method ClearNotifications()
      modifies this
      ensures notifications == []
    {
      notifications := [];
    }
  }
}
