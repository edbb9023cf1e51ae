/**
 * The admin's notification list: every admin notification, read or not,
 * newest first; marking one read flips its flag in place once the service
 * has recorded it.
 */
module AdminNotifications {
  import opened Common
  import opened Model
  import Sorting

  /** ngOnInit's list: the fetched notifications, newest first. */
  function NewestFirst(fetched: seq<Notification>): seq<Notification>
  {
    Sorting.SortBy(fetched, NewerFirst)
  }

  /** The list holds the fetched notifications, each as often as fetched, newest first. */
  lemma NewestFirstCorrect(fetched: seq<Notification>)
    ensures var r := NewestFirst(fetched);
      multiset(r) == multiset(fetched) && (forall i, j :: 0 <= i < j < |r| ==> r[i].createdAt >= r[j].createdAt)
  {
    NewerFirstPreorder();
    Sorting.SortBySorted(fetched, NewerFirst);
    Sorting.SortByPermutation(fetched, NewerFirst);
  }

  /** The index of the first notification with the id, or -1. */
  function IndexOfNotification(ns: seq<Notification>, id: string): (r: int)
    ensures -1 <= r < |ns|
    ensures r >= 0 ==> ns[r].id == id && forall k :: 0 <= k < r ==> ns[k].id != id
    ensures r == -1 <==> forall k :: 0 <= k < |ns| ==> ns[k].id != id
  {
    if ns == [] then -1
    else if ns[0].id == id then 0
    else
      var k := IndexOfNotification(ns[1..], id);
      if k == -1 then -1 else k + 1
  }

  class AdminNotificationsList {
    var notifications: seq<Notification>

    constructor ()
      ensures notifications == []
    {
      notifications := [];
    }

    /** ngOnInit: the admin notifications, newest first; a failed request leaves the list as it was. */
    method OnInit(fetched: Option<seq<Notification>>)
      modifies this
      ensures fetched.Some? ==> notifications == NewestFirst(fetched.value)
      ensures fetched.None? ==> notifications == old(notifications)
    {
      if fetched.Some? {
        notifications := NewestFirst(fetched.value);
      }
    }

    /**
     * markAsRead: once the service has recorded it, the first notification
     * with the id is marked read; the list keeps its length and order, and
     * every other notification is untouched.
     */
    method MarkAsRead(id: string, recorded: bool)
      modifies this
      ensures |notifications| == |old(notifications)|
      ensures recorded && IndexOfNotification(old(notifications), id) >= 0 ==>
        var k := IndexOfNotification(old(notifications), id);
        notifications == old(notifications)[k := old(notifications)[k].(read := true)]
      ensures !recorded || IndexOfNotification(old(notifications), id) == -1 ==> notifications == old(notifications)
      ensures forall i :: 0 <= i < |notifications| && i != IndexOfNotification(old(notifications), id) ==>
        notifications[i] == old(notifications)[i]
    {
      if recorded {
        var k := IndexOfNotification(notifications, id);
        if k >= 0 {
          notifications := notifications[k := notifications[k].(read := true)];
        }
      }
    }
  }
}
