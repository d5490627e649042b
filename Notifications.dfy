/**
 * The notification panel's list reducers: marking read, deleting, the three
 * filters and the two counters, and the category check boxes of its settings.
 * Each reducer maps the previous list to the next one.
 */
module Notifications {

  datatype Kind = Info | Success | Warning | Error
  datatype Priority = Low | Medium | High | Critical
  datatype Category = SystemEvents | UserEvents | BusinessEvents | SecurityEvents

  /** `timestamp` is the `Date` as milliseconds. */
  datatype Notification = Notification(
    id: string, title: string, message: string, kind: Kind, priority: Priority,
    timestamp: int, isRead: bool, actionUrl: string, category: Category)

  datatype Filter = All | UnreadOnly | CriticalOnly

  datatype Settings = Settings(email: bool, push: bool, whatsapp: bool, sound: bool, categories: seq<string>)

  /** `markAsRead(id)`. */
  function MarkAsRead(ns: seq<Notification>, id: string): (r: seq<Notification>)
    ensures |r| == |ns|
  {
    if ns == [] then []
    else [if ns[0].id == id then ns[0].(isRead := true) else ns[0]] + MarkAsRead(ns[1..], id)
  }

  /** `markAllAsRead()`. */
  function MarkAllAsRead(ns: seq<Notification>): (r: seq<Notification>)
    ensures |r| == |ns|
  {
    if ns == [] then [] else [ns[0].(isRead := true)] + MarkAllAsRead(ns[1..])
  }

  /** `deleteNotification(id)`. */
  function Delete(ns: seq<Notification>, id: string): (r: seq<Notification>)
    ensures |r| <= |ns|
  {
    if ns == [] then []
    else (if ns[0].id != id then [ns[0]] else []) + Delete(ns[1..], id)
  }

  predicate Shows(n: Notification, f: Filter) {
    match f
    case UnreadOnly => !n.isRead
    case CriticalOnly => n.priority == Critical
    case All => true
  }

  /** `filteredNotifications` for the selected filter. */
  function Filtered(ns: seq<Notification>, f: Filter): (r: seq<Notification>)
    ensures |r| <= |ns|
  {
    if ns == [] then []
    else (if Shows(ns[0], f) then [ns[0]] else []) + Filtered(ns[1..], f)
  }

  function UnreadCount(ns: seq<Notification>): nat {
    |Filtered(ns, UnreadOnly)|
  }

  function CriticalCount(ns: seq<Notification>): nat {
    |Filtered(ns, CriticalOnly)|
  }

  /** The settings check box for `category`: checking appends it, unchecking removes every occurrence. */
  function ToggleCategory(s: Settings, category: string, checked: bool): Settings {
    s.(categories := if checked then s.categories + [category] else Without(s.categories, category))
  }

  function Without(xs: seq<string>, x: string): (r: seq<string>)
    ensures |r| <= |xs|
  {
    if xs == [] then [] else (if xs[0] != x then [xs[0]] else []) + Without(xs[1..], x)
  }

  // ---------------------------------------------------------------------------
  // Properties

  /** Only the items with that id become read; every other field, the length and the order stay. */
  lemma {:induction false} MarkAsReadPointwise(ns: seq<Notification>, id: string)
    ensures forall i :: 0 <= i < |ns| ==>
              MarkAsRead(ns, id)[i] == if ns[i].id == id then ns[i].(isRead := true) else ns[i]
  {
    if ns != [] {
      MarkAsReadPointwise(ns[1..], id);
    }
  }

  /** An id no item has changes nothing. */
  lemma AbsentIdNoop(ns: seq<Notification>, id: string)
    requires forall i :: 0 <= i < |ns| ==> ns[i].id != id
    ensures MarkAsRead(ns, id) == ns && Delete(ns, id) == ns
  {
    MarkAsReadPointwise(ns, id);
    DeletePointwise(ns, id);
  }

  lemma {:induction false} DeletePointwise(ns: seq<Notification>, id: string)
    requires forall i :: 0 <= i < |ns| ==> ns[i].id != id
    ensures Delete(ns, id) == ns
  {
    if ns != [] {
      DeletePointwise(ns[1..], id);
      assert [ns[0]] + ns[1..] == ns;
    }
  }

  /** After marking all, every item is read and nothing else changed. */
  lemma {:induction false} MarkAllPointwise(ns: seq<Notification>)
    ensures forall i :: 0 <= i < |ns| ==> MarkAllAsRead(ns)[i] == ns[i].(isRead := true)
  {
    if ns != [] {
      MarkAllPointwise(ns[1..]);
    }
  }

  /** Marking all is idempotent and leaves no unread item. */
  lemma MarkAllIdempotent(ns: seq<Notification>)
    ensures MarkAllAsRead(MarkAllAsRead(ns)) == MarkAllAsRead(ns)
    ensures UnreadCount(MarkAllAsRead(ns)) == 0
  {
    MarkAllPointwise(ns);
    MarkAllPointwise(MarkAllAsRead(ns));
    NoneShown(MarkAllAsRead(ns), UnreadOnly);
  }

  lemma {:induction false} NoneShown(ns: seq<Notification>, f: Filter)
    requires forall i :: 0 <= i < |ns| ==> !Shows(ns[i], f)
    ensures Filtered(ns, f) == []
  {
    if ns != [] {
      NoneShown(ns[1..], f);
    }
  }

  /** A filter keeps exactly the items it shows, and keeps them in order. */
  lemma {:induction false} FilteredMembers(ns: seq<Notification>, f: Filter, n: Notification)
    ensures n in Filtered(ns, f) <==> n in ns && Shows(n, f)
  {
    if ns != [] {
      FilteredMembers(ns[1..], f, n);
      assert ns == [ns[0]] + ns[1..];
    }
  }

  /** Regrouping a kept head in front of two appended parts. */
  lemma ConsAppend(h: seq<Notification>, x: seq<Notification>, y: seq<Notification>)
    ensures h + (x + y) == (h + x) + y
  {
  }

  lemma {:induction false} FilteredAppend(a: seq<Notification>, b: seq<Notification>, f: Filter)
    ensures Filtered(a + b, f) == Filtered(a, f) + Filtered(b, f)
  {
    if a == [] {
      assert a + b == b;
    } else {
      var h := if Shows(a[0], f) then [a[0]] else [];
      assert (a + b)[0] == a[0] && (a + b)[1..] == a[1..] + b;
      assert Filtered(a + b, f) == h + Filtered(a[1..] + b, f);
      FilteredAppend(a[1..], b, f);
      ConsAppend(h, Filtered(a[1..], f), Filtered(b, f));
    }
  }

  /** `all` is the identity. */
  lemma {:induction false} AllIsIdentity(ns: seq<Notification>)
    ensures Filtered(ns, All) == ns
  {
    if ns != [] {
      AllIsIdentity(ns[1..]);
      assert [ns[0]] + ns[1..] == ns;
    }
  }

  /** Deleting removes exactly the items with that id, and keeps the rest in order. */
  lemma {:induction false} DeleteMembers(ns: seq<Notification>, id: string, n: Notification)
    ensures n in Delete(ns, id) <==> n in ns && n.id != id
  {
    if ns != [] {
      DeleteMembers(ns[1..], id, n);
      assert ns == [ns[0]] + ns[1..];
    }
  }

  lemma {:induction false} DeleteAppend(a: seq<Notification>, b: seq<Notification>, id: string)
    ensures Delete(a + b, id) == Delete(a, id) + Delete(b, id)
  {
    if a == [] {
      assert a + b == b;
    } else {
      var h := if a[0].id != id then [a[0]] else [];
      assert (a + b)[0] == a[0] && (a + b)[1..] == a[1..] + b;
      assert Delete(a + b, id) == h + Delete(a[1..] + b, id);
      DeleteAppend(a[1..], b, id);
      ConsAppend(h, Delete(a[1..], id), Delete(b, id));
    }
  }

  /** Both counters are at most the number of items. */
  lemma CountsBounded(ns: seq<Notification>)
    ensures UnreadCount(ns) <= |ns| && CriticalCount(ns) <= |ns|
  {
  }

  /** Marking one id read leaves as many unread items as deleting that id would. */
  lemma {:induction false} MarkReadCountsLikeDelete(ns: seq<Notification>, id: string)
    ensures UnreadCount(MarkAsRead(ns, id)) == UnreadCount(Delete(ns, id))
  {
    if ns != [] {
      MarkReadCountsLikeDelete(ns[1..], id);
      var m := MarkAsRead(ns, id);
      assert m[1..] == MarkAsRead(ns[1..], id);
      var d := Delete(ns, id);
      if ns[0].id == id {
        assert d == Delete(ns[1..], id);
      } else {
        assert d == [ns[0]] + Delete(ns[1..], id) && d[1..] == Delete(ns[1..], id);
      }
    }
  }

  lemma {:induction false} WithoutMembers(xs: seq<string>, x: string, y: string)
    ensures y in Without(xs, x) <==> y in xs && y != x
  {
    if xs != [] {
      WithoutMembers(xs[1..], x, y);
      assert xs == [xs[0]] + xs[1..];
    }
  }

  /** Unchecking removes every occurrence of the category and keeps the others; checking appends it. Other settings stay. */
  lemma ToggleCategoryEffect(s: Settings, category: string, checked: bool, other: string)
    ensures var t := ToggleCategory(s, category, checked);
      t.(categories := []) == s.(categories := [])
      && (checked ==> t.categories == s.categories + [category])
      && (!checked ==> category !in t.categories && (other != category ==> (other in t.categories <==> other in s.categories)))
  {
    WithoutMembers(s.categories, category, category);
    WithoutMembers(s.categories, category, other);
  }
}
