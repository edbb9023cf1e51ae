/**
 * The shopper's notification box: a logged-in shopper with a known email
 * sees their unread notifications, newest first; marking one read removes it
 * from the box once the service has recorded it.
 */
module CustomerNotifications {
  import opened Common
  import opened Model
  import Sorting
  import opened UserAuth

  predicate Unread(n: Notification) { !n.read }

  /** What loadNotifications keeps of the fetched list: the unread ones, newest first. */
  function UnreadNewestFirst(fetched: seq<Notification>): seq<Notification>
  {
    Sorting.SortBy(Filter(fetched, Unread), NewerFirst)
  }

  /** The box holds exactly the unread fetched notifications, each as often as fetched, newest first. */
  lemma {:induction false} UnreadNewestFirstCorrect(fetched: seq<Notification>)
    ensures var r := UnreadNewestFirst(fetched);
      multiset(r) == multiset(Filter(fetched, Unread)) &&
      (forall n :: n in r <==> n in fetched && !n.read) &&
      NewestFirstOrder(r)
  {
    var s := Filter(fetched, Unread);
    NewerFirstPreorder();
    Sorting.SortBySorted(s, NewerFirst);
    Sorting.SortByPermutation(s, NewerFirst);
    forall n ensures n in UnreadNewestFirst(fetched) <==> n in s {
      Sorting.SortByMembers(s, NewerFirst, n);
    }
  }

  /** The box after a recorded markAsRead: every notification with another id, in the same order. */
  function WithoutNotification(ns: seq<Notification>, id: string): (r: seq<Notification>)
    ensures |r| <= |ns|
    ensures forall n :: n in r <==> n in ns && n.id != id
  {
    if ns == [] then []
    else
      assert ns == [ns[0]] + ns[1..];
      (if ns[0].id != id then [ns[0]] else []) + WithoutNotification(ns[1..], id)
  }

  /** Removing keeps the order: it splits over a concatenation. */
  lemma {:induction false} WithoutNotificationAppend(a: seq<Notification>, b: seq<Notification>, id: string)
    ensures WithoutNotification(a + b, id) == WithoutNotification(a, id) + WithoutNotification(b, id)
  {
    if a == [] {
      assert a + b == b;
    } else {
      assert (a + b)[1..] == a[1..] + b;
      WithoutNotificationAppend(a[1..], b, id);
    }
  }

  /** Every notification is at least as new as the ones after it. */
  predicate NewestFirstOrder(ns: seq<Notification>)
  {
    forall i, j :: 0 <= i < j < |ns| ==> ns[i].createdAt >= ns[j].createdAt
  }

  /** A notification no older than any of a newest-first list can lead it. */
  lemma ConsNewestFirst(n: Notification, rest: seq<Notification>)
    requires NewestFirstOrder(rest)
    requires forall j :: 0 <= j < |rest| ==> n.createdAt >= rest[j].createdAt
    ensures NewestFirstOrder([n] + rest)
  {
    forall i, j | 0 <= i < j < |[n] + rest|
      ensures ([n] + rest)[i].createdAt >= ([n] + rest)[j].createdAt
    {
      assert ([n] + rest)[j] == rest[j - 1];
      if i > 0 {
        assert ([n] + rest)[i] == rest[i - 1];
      }
    }
  }

  /** Removing an id keeps a newest-first box newest first. */
  lemma {:induction false} WithoutNotificationSorted(ns: seq<Notification>, id: string)
    requires NewestFirstOrder(ns)
    ensures NewestFirstOrder(WithoutNotification(ns, id))
  {
    if ns != [] {
      assert NewestFirstOrder(ns[1..]) by {
        forall i, j | 0 <= i < j < |ns[1..]|
          ensures ns[1..][i].createdAt >= ns[1..][j].createdAt
        {
          assert ns[1..][i] == ns[i + 1] && ns[1..][j] == ns[j + 1];
        }
      }
      WithoutNotificationSorted(ns[1..], id);
      var rest := WithoutNotification(ns[1..], id);
      forall j | 0 <= j < |rest|
        ensures ns[0].createdAt >= rest[j].createdAt
      {
        assert rest[j] in ns[1..];
        var k :| 0 <= k < |ns[1..]| && ns[1..][k] == rest[j];
        assert ns[k + 1] == rest[j];
      }
      if ns[0].id != id {
        ConsNewestFirst(ns[0], rest);
      }
    }
  }

  class CustomerNotificationsBox {
    const userAuth: UserAuthService
    var notifications: seq<Notification>

    constructor (userAuth: UserAuthService)
      ensures this.userAuth == userAuth && notifications == []
    {
      this.userAuth := userAuth;
      notifications := [];
    }

    /**
     * ngOnInit: only a logged-in shopper with a known email gets a list;
     * `fetched` is the service's answer for that email (None when it fails,
     * which leaves the box as it was).
     */
    method OnInit(email: Option<string>, fetched: Option<seq<Notification>>)
      modifies this
      ensures userAuth.IsLoggedIn() && email.Some? && email.value != "" && fetched.Some? ==>
        notifications == UnreadNewestFirst(fetched.value)
      ensures !(userAuth.IsLoggedIn() && email.Some? && email.value != "" && fetched.Some?) ==>
        notifications == old(notifications)
    {
      if userAuth.IsLoggedIn() && email.Some? && email.value != "" {
        if fetched.Some? {
          notifications := UnreadNewestFirst(fetched.value);
        }
      }
    }

    /** markAsRead: once the service has recorded it, the notification leaves the box; a failure changes nothing. */
    method MarkAsRead(id: string, recorded: bool)
      modifies this
      ensures recorded ==> notifications == WithoutNotification(old(notifications), id)
      ensures !recorded ==> notifications == old(notifications)
      ensures NewestFirstOrder(old(notifications)) ==> NewestFirstOrder(notifications)
      ensures forall n :: n in notifications ==> n in old(notifications)
    {
      if recorded {
        if NewestFirstOrder(notifications) {
          WithoutNotificationSorted(notifications, id);
        }
        notifications := WithoutNotification(notifications, id);
      }
    }
  }
}
