/** The notification list (components/notification-center.tsx): marking
    notifications read, dismissing them, and counting the unread ones.  The
    list is the component's only state; each operation is a pure map from
    the old list to the new one. */
module NotificationCenter {

  datatype Priority = High | Medium | Low

  datatype Notification = Notification(
    id: string,
    title: string,
    description: string,
    time: string,
    priority: Priority,
    read: bool)

  /** The notifications the component starts with, all unread. */
  const InitialNotifications: seq<Notification> := [
    Notification("1", "Invoice #1234 is due", "Invoice for Client XYZ is due in 3 days", "2 hours ago", High, false),
    Notification("2", "New client inquiry", "ABC Corp has requested a proposal", "5 hours ago", Medium, false),
    Notification("3", "Expense approval needed", "John requested approval for $1,200 expense", "Yesterday", Medium, false),
    Notification("4", "Tax filing reminder", "Quarterly taxes due in 2 weeks", "2 days ago", High, false)
  ]

  // The id helpers below mirror those of the action panel on purpose: the two
  // components keep separate record types and each filters by id on its own.

  predicate HasId(ns: seq<Notification>, id: string) {
    exists i :: 0 <= i < |ns| && ns[i].id == id
  }

  /** The number of notifications with this id. */
  function CountId(ns: seq<Notification>, id: string): (n: nat)
    ensures n <= |ns|
    ensures n == 0 <==> !HasId(ns, id)
  {
    if ns == [] then 0
    else (if ns[0].id == id then 1 else 0) + CountId(ns[1..], id)
  }

  /** The positions of the unread notifications. */
  function UnreadIndices(ns: seq<Notification>): set<int> {
    set i | 0 <= i < |ns| && !ns[i].read
  }

  /** The positions of the unread notifications with this id. */
  function UnreadIndicesWithId(ns: seq<Notification>, id: string): set<int> {
    set i | 0 <= i < |ns| && !ns[i].read && ns[i].id == id
  }

  // ---------------------------------------------------------------------------
  // The three operations

  /** `markAsRead(id)`: every notification with the id becomes read; the list
      keeps its length and order, and every other field of every entry. */
  function MarkAsRead(ns: seq<Notification>, id: string): (r: seq<Notification>)
    ensures |r| == |ns|
    ensures forall i :: 0 <= i < |ns| ==> r[i].(read := ns[i].read) == ns[i]
    ensures forall i :: 0 <= i < |ns| ==> (r[i].read <==> ns[i].read || ns[i].id == id)
  {
    if ns == [] then []
    else [if ns[0].id == id then ns[0].(read := true) else ns[0]] + MarkAsRead(ns[1..], id)
  }

  /** `dismissNotification(id)`: drops exactly the notifications with the id. */
  function Dismiss(ns: seq<Notification>, id: string): (r: seq<Notification>)
    ensures forall n :: n in r <==> n in ns && n.id != id
    ensures |r| == |ns| - CountId(ns, id)
    ensures !HasId(ns, id) ==> r == ns
  {
    if ns == [] then []
    else if ns[0].id == id then Dismiss(ns[1..], id)
    else [ns[0]] + Dismiss(ns[1..], id)
  }

  /** The unread notifications, in order. */
  function Unread(ns: seq<Notification>): (r: seq<Notification>)
    ensures forall n :: n in r <==> n in ns && !n.read
    ensures |r| <= |ns|
  {
    if ns == [] then []
    else if !ns[0].read then [ns[0]] + Unread(ns[1..])
    else Unread(ns[1..])
  }

  /** `unreadCount`: the length of the filtered list. */
  function UnreadCount(ns: seq<Notification>): (n: nat)
    ensures n <= |ns|
    ensures n == 0 <==> forall i :: 0 <= i < |ns| ==> ns[i].read
  {
    var u := Unread(ns);
    assert (exists i :: 0 <= i < |ns| && !ns[i].read) ==> |u| > 0 by {
      if exists i :: 0 <= i < |ns| && !ns[i].read {
        var i :| 0 <= i < |ns| && !ns[i].read;
        assert ns[i] in u;
      }
    }
    assert |u| > 0 ==> exists i :: 0 <= i < |ns| && !ns[i].read by {
      if |u| > 0 {
        assert u[0] in ns;
      }
    }
    |u|
  }

  // ---------------------------------------------------------------------------
  // Properties

  /** Filtering distributes over concatenation, so dismissing keeps the
      relative order of the remaining notifications. */
  lemma {:induction false} DismissDistributes(a: seq<Notification>, b: seq<Notification>, id: string)
    ensures Dismiss(a + b, id) == Dismiss(a, id) + Dismiss(b, id)
  {
    if a == [] {
      assert a + b == b;
    } else {
      var ab := a + b;
      assert ab[0] == a[0] && ab[1..] == a[1..] + b;
      DismissDistributes(a[1..], b, id);
      if a[0].id == id {
        assert Dismiss(ab, id) == Dismiss(a[1..] + b, id);
      } else {
        assert Dismiss(ab, id) == [a[0]] + Dismiss(a[1..] + b, id);
        assert Dismiss(a, id) == [a[0]] + Dismiss(a[1..], id);
      }
    }
  }

  lemma {:induction false} UnreadDistributes(a: seq<Notification>, b: seq<Notification>)
    ensures Unread(a + b) == Unread(a) + Unread(b)
  {
    if a == [] {
      assert a + b == b;
    } else {
      assert (a + b)[1..] == a[1..] + b;
      UnreadDistributes(a[1..], b);
    }
  }

  /** Appending one notification adds one to the unread count exactly when
      it is unread. */
  lemma UnreadCountSnoc(init: seq<Notification>, last: Notification)
    ensures UnreadCount(init + [last]) == UnreadCount(init) + (if last.read then 0 else 1)
  {
    UnreadDistributes(init, [last]);
    assert Unread([last]) == if last.read then [] else [last];
  }

  /** The unread positions of a list grown by one entry. */
  lemma UnreadIndicesSnoc(ns: seq<Notification>)
    requires ns != []
    ensures UnreadIndices(ns) ==
              UnreadIndices(ns[..|ns| - 1]) + (if ns[|ns| - 1].read then {} else {|ns| - 1})
    ensures |ns| - 1 !in UnreadIndices(ns[..|ns| - 1])
  {
    var k := |ns| - 1;
    var init := ns[..k];
    forall i | 0 <= i < k
      ensures i in UnreadIndices(ns) <==> i in UnreadIndices(init)
    {
      assert ns[i] == init[i];
    }
  }

  /** The unread count is the number of positions holding an unread
      notification. */
  lemma {:induction false} UnreadCountCountsUnreadEntries(ns: seq<Notification>)
    ensures UnreadCount(ns) == |UnreadIndices(ns)|
    decreases |ns|
  {
    if ns != [] {
      var k := |ns| - 1;
      assert ns == ns[..k] + [ns[k]];
      UnreadCountSnoc(ns[..k], ns[k]);
      UnreadIndicesSnoc(ns);
      UnreadCountCountsUnreadEntries(ns[..k]);
    }
  }

  /** Marking read twice is marking read once. */
  lemma MarkAsReadIdempotent(ns: seq<Notification>, id: string)
    ensures MarkAsRead(MarkAsRead(ns, id), id) == MarkAsRead(ns, id)
  {
    var once := MarkAsRead(ns, id);
    var twice := MarkAsRead(once, id);
    forall i | 0 <= i < |ns|
      ensures twice[i] == once[i]
    {
      assert twice[i].(read := once[i].read) == once[i];
    }
  }

  /** Marking read turns exactly the unread notifications with the id into
      read ones, so the unread count drops by their number and never rises. */
  lemma MarkAsReadUnreadCount(ns: seq<Notification>, id: string)
    ensures UnreadCount(MarkAsRead(ns, id)) == UnreadCount(ns) - |UnreadIndicesWithId(ns, id)|
    ensures UnreadCount(MarkAsRead(ns, id)) <= UnreadCount(ns)
  {
    var marked := MarkAsRead(ns, id);
    UnreadCountCountsUnreadEntries(ns);
    UnreadCountCountsUnreadEntries(marked);
    var all, withId := UnreadIndices(ns), UnreadIndicesWithId(ns, id);
    assert UnreadIndices(marked) == all - withId;
    assert withId <= all;
    assert all == (all - withId) + withId;
  }

  /** Dismissing after marking read is the same as dismissing alone. */
  lemma {:induction false} DismissAfterMarkAsRead(ns: seq<Notification>, id: string)
    ensures Dismiss(MarkAsRead(ns, id), id) == Dismiss(ns, id)
  {
    if ns != [] {
      var marked := MarkAsRead(ns, id);
      assert marked[1..] == MarkAsRead(ns[1..], id);
      DismissAfterMarkAsRead(ns[1..], id);
    }
  }

  /** When nothing is read, every notification counts as unread. */
  lemma {:induction false} NoneReadAllUnread(ns: seq<Notification>)
    requires forall i :: 0 <= i < |ns| ==> !ns[i].read
    ensures UnreadCount(ns) == |ns|
  {
    if ns != [] {
      NoneReadAllUnread(ns[1..]);
      assert Unread(ns) == [ns[0]] + Unread(ns[1..]);
    }
  }

  /** Every starting notification is unread. */
  lemma InitialAllUnread()
    ensures UnreadCount(InitialNotifications) == |InitialNotifications| == 4
  {
    NoneReadAllUnread(InitialNotifications);
  }
}
