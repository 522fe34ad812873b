/**
 * The notification inbox (frontend/src/pages/Notification.jsx): the
 * notifications addressed to the user's role, marking them read, deleting
 * them, and the all/unread/read views.
 */
module Notifications {
  import opened Wrappers
  import opened Seqs

  /** A stored notification; a missing read flag reads as false. */
  datatype Notice = Notice(id: string, recipientType: string, kind: string, title: string, message: string, read: bool)

  /** role === "student" ? "students" : "parents". */
  function RecipientType(role: string): (r: string)
    ensures r == "students" <==> role == "student"
    ensures r == "students" || r == "parents"
  {
    if role == "student" then "students" else "parents"
  }

  /** notifications.map(n => n.id === id ? {...n, read: true} : n). */
  function MarkRead(ns: seq<Notice>, id: string): (r: seq<Notice>)
    ensures |r| == |ns|
    ensures forall i :: 0 <= i < |ns| ==> r[i] == (if ns[i].id == id then ns[i].(read := true) else ns[i])
  {
    if ns == [] then [] else [if ns[0].id == id then ns[0].(read := true) else ns[0]] + MarkRead(ns[1..], id)
  }

  /** notifications.map(n => ({...n, read: true})). */
  function AllRead(ns: seq<Notice>): (r: seq<Notice>)
    ensures |r| == |ns|
    ensures forall i :: 0 <= i < |ns| ==> r[i] == ns[i].(read := true)
  {
    if ns == [] then [] else [ns[0].(read := true)] + AllRead(ns[1..])
  }

  /** Marking everything read twice is marking it once, and afterwards the unread view is empty. */
  lemma AllReadIdempotent(ns: seq<Notice>)
    ensures AllRead(AllRead(ns)) == AllRead(ns)
    ensures FilteredNotifications(AllRead(ns), "unread") == []
  {
    var once := AllRead(ns);
    assert forall i :: 0 <= i < |once| ==> once[i].read;
    var unread := FilteredNotifications(once, "unread");
    if unread != [] {
      FilterMember(once, (n: Notice) => !n.read, unread[0]);
    }
  }

  function OtherNotice(id: string): Notice -> bool { (n: Notice) => n.id != id }

  /** notifications.filter(n => n.id !== id). */
  function WithoutNotice(ns: seq<Notice>, id: string): (r: seq<Notice>)
    ensures IsSubseq(r, ns)
    ensures forall n :: n in r <==> n in ns && n.id != id
    ensures |r| == Count(ns, OtherNotice(id))
  {
    var p := OtherNotice(id);
    FilterIsSubseq(ns, p);
    FilterLength(ns, p);
    assert forall n :: n in Filter(ns, p) <==> n in ns && p(n) by {
      forall n ensures n in Filter(ns, p) <==> n in ns && p(n) { FilterMember(ns, p, n); }
    }
    Filter(ns, p)
  }

  /** getFilteredNotifications. */
  function FilteredNotifications(ns: seq<Notice>, filter: string): (r: seq<Notice>)
    ensures IsSubseq(r, ns)
    ensures filter != "unread" && filter != "read" ==> r == ns
  {
    if filter == "unread" then FilterIsSubseq(ns, (n: Notice) => !n.read); Filter(ns, (n: Notice) => !n.read)
    else if filter == "read" then FilterIsSubseq(ns, (n: Notice) => n.read); Filter(ns, (n: Notice) => n.read)
    else IsSubseqRefl(ns); ns
  }

  /** The unread and read views split the list: every notification is in exactly one, and none is lost. */
  lemma ReadViewsPartition(ns: seq<Notice>, n: Notice)
    ensures |FilteredNotifications(ns, "unread")| + |FilteredNotifications(ns, "read")| == |ns|
    ensures n in ns ==> (n in FilteredNotifications(ns, "unread") <==> n !in FilteredNotifications(ns, "read"))
    ensures n in FilteredNotifications(ns, "unread") <==> n in ns && !n.read
  {
    var unread := (m: Notice) => !m.read;
    var read := (m: Notice) => m.read;
    FilterComplement(ns, read, unread);
    FilterMember(ns, unread, n);
    FilterMember(ns, read, n);
  }

  /** getTypeStyles. */
  function TypeStyles(kind: string): (r: string)
    ensures kind == "urgent" ==> r == "bg-red-100 text-red-800"
    ensures kind == "important" ==> r == "bg-yellow-100 text-yellow-800"
    ensures kind != "urgent" && kind != "important" ==> r == "bg-blue-100 text-blue-800"
  {
    if kind == "urgent" then "bg-red-100 text-red-800"
    else if kind == "important" then "bg-yellow-100 text-yellow-800"
    else "bg-blue-100 text-blue-800"
  }

  /** The notifications the recipient query returns from the store. */
  function ForRecipient(store: seq<Notice>, recipientType: string): (r: seq<Notice>)
    ensures forall n :: n in r <==> n in store && n.recipientType == recipientType
  {
    var p := (n: Notice) => n.recipientType == recipientType;
    assert forall n :: n in Filter(store, p) <==> n in store && p(n) by {
      forall n ensures n in Filter(store, p) <==> n in store && p(n) { FilterMember(store, p, n); }
    }
    Filter(store, p)
  }

  class Inbox {
    var notifications: seq<Notice>
    var loading: bool
    var selectedFilter: string
    var showActions: Option<string>

    constructor ()
      ensures notifications == [] && loading && selectedFilter == "all" && showActions == None
    {
      notifications := [];
      loading := true;
      selectedFilter := "all";
      showActions := None;
    }

    /**
     * fetchNotifications: with a signed-in user whose record exists, load the
     * notifications for the recipient type of the user's role.  `store` is
     * the collection's content, or None when a read fails.
     */
    method FetchNotifications(signedIn: bool, role: Option<string>, store: Option<seq<Notice>>)
      modifies this`notifications, this`loading
      ensures !loading
      ensures signedIn && role.Some? && store.Some? ==>
        notifications == ForRecipient(store.value, RecipientType(role.value))
      ensures !(signedIn && role.Some? && store.Some?) ==> notifications == old(notifications)
    {
      loading := true;
      if signedIn && role.Some? && store.Some? {
        notifications := ForRecipient(store.value, RecipientType(role.value));
      }
      loading := false;
    }

    method FilterNotifications(filter: string)
      modifies this`selectedFilter
      ensures selectedFilter == filter
    {
      selectedFilter := filter;
    }

    /** markAsRead: only the notifications with this id become read; the action menu closes. */
    method MarkAsRead(id: string)
      modifies this`notifications, this`showActions
      ensures notifications == MarkRead(old(notifications), id) && showActions == None
    {
      notifications := MarkRead(notifications, id);
      showActions := None;
    }

    /** deleteNotification: every notification with this id goes; the action menu closes. */
    method DeleteNotification(id: string)
      modifies this`notifications, this`showActions
      ensures notifications == WithoutNotice(old(notifications), id) && showActions == None
    {
      notifications := WithoutNotice(notifications, id);
      showActions := None;
    }

    method MarkAllAsRead()
      modifies this`notifications
      ensures notifications == AllRead(old(notifications))
    {
      notifications := AllRead(notifications);
    }
  }
}
