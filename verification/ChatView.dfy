/** The Android chat view-model as the client that reassembles timeline pages:
    whatever order its reads complete in, it shows a gap-free, duplicate-free
    tail of the room's timeline, and scrolling up ends with all of it. */
module ChatView {
  import opened Base
  import opened Order
  import opened Events
  import opened Render
  import opened T = Tables
  import opened CurrentState
  import opened Timeline
  import opened Store

  const PAGE := 50

  // --- merge ------------------------------------------------------------------

  /** Keeps the first entry of each event id. */
  function DistinctById(l: seq<TimelineEvent>): seq<TimelineEvent>
  {
    if l == [] then []
    else
      var kept := DistinctById(l[..|l| - 1]);
      var last := l[|l| - 1];
      if exists i :: 0 <= i < |kept| && kept[i].eventId == last.eventId then kept else kept + [last]
  }

  function InsertByCursor(s: seq<TimelineEvent>, e: TimelineEvent): seq<TimelineEvent>
  {
    if s == [] || s[|s| - 1].cursor <= e.cursor then s + [e]
    else InsertByCursor(s[..|s| - 1], e) + [s[|s| - 1]]
  }

  /** A stable sort by cursor. */
  function SortByCursor(l: seq<TimelineEvent>): seq<TimelineEvent>
  {
    if l == [] then [] else InsertByCursor(SortByCursor(l[..|l| - 1]), l[|l| - 1])
  }

  function Merge(a: seq<TimelineEvent>, b: seq<TimelineEvent>): seq<TimelineEvent>
  {
    SortByCursor(DistinctById(a + b))
  }

  ghost predicate Chronological(l: seq<TimelineEvent>)
  {
    forall i, j | 0 <= i < j < |l| :: l[i].cursor < l[j].cursor
  }

  ghost predicate DistinctIds(l: seq<TimelineEvent>)
  {
    forall i, j | 0 <= i < j < |l| :: l[i].eventId != l[j].eventId
  }

  ghost predicate SameMembers(a: seq<TimelineEvent>, b: seq<TimelineEvent>)
  {
    forall e :: e in a <==> e in b
  }

  ghost predicate Within(l: seq<TimelineEvent>, z: seq<TimelineEvent>)
  {
    forall e | e in l :: e in z
  }

  lemma SameIdSameEvent(z: seq<TimelineEvent>, a: TimelineEvent, b: TimelineEvent)
    requires Chronological(z) && DistinctIds(z) && a in z && b in z
    requires a.eventId == b.eventId || a.cursor == b.cursor
    ensures a == b
  {
    var i :| 0 <= i < |z| && z[i] == a;
    var j :| 0 <= j < |z| && z[j] == b;
    assert !(i < j) && !(j < i);
  }

  lemma {:induction false} DistinctByIdKeeps(l: seq<TimelineEvent>, z: seq<TimelineEvent>)
    requires Chronological(z) && DistinctIds(z) && Within(l, z)
    ensures SameMembers(DistinctById(l), l)
    ensures DistinctIds(DistinctById(l))
  {
    if l != [] {
      var front, last := l[..|l| - 1], l[|l| - 1];
      assert l == front + [last];
      DistinctByIdKeeps(front, z);
      var kept := DistinctById(front);
      if i :| 0 <= i < |kept| && kept[i].eventId == last.eventId {
        assert kept[i] in front;
        SameIdSameEvent(z, kept[i], last);
      }
    }
  }

  lemma {:induction false} InsertKeeps(s: seq<TimelineEvent>, e: TimelineEvent)
    requires Chronological(s) && forall x | x in s :: x.cursor != e.cursor
    ensures Chronological(InsertByCursor(s, e))
    ensures SameMembers(InsertByCursor(s, e), s + [e])
  {
    if s != [] && s[|s| - 1].cursor > e.cursor {
      var front, last := s[..|s| - 1], s[|s| - 1];
      assert s == front + [last];
      InsertKeeps(front, e);
      var out := InsertByCursor(front, e);
      forall i | 0 <= i < |out| ensures out[i].cursor < last.cursor {
        assert out[i] in front + [e];
      }
    }
  }

  lemma {:induction false} SortKeeps(l: seq<TimelineEvent>, z: seq<TimelineEvent>)
    requires Chronological(z) && DistinctIds(z) && Within(l, z) && DistinctIds(l)
    ensures Chronological(SortByCursor(l))
    ensures SameMembers(SortByCursor(l), l)
  {
    if l != [] {
      var front, last := l[..|l| - 1], l[|l| - 1];
      assert l == front + [last];
      SortKeeps(front, z);
      forall x | x in SortByCursor(front) ensures x.cursor != last.cursor {
        var i :| 0 <= i < |front| && front[i] == x;
        assert l[i] == x && x.eventId != last.eventId;
        if x.cursor == last.cursor {
          SameIdSameEvent(z, x, last);
        }
      }
      InsertKeeps(SortByCursor(front), last);
    }
  }

  lemma {:induction false} ChronologicalUnique(a: seq<TimelineEvent>, b: seq<TimelineEvent>)
    requires Chronological(a) && Chronological(b) && SameMembers(a, b)
    ensures a == b
    decreases |a|
  {
    hide DistinctIds;
    assert |a| > 0 ==> a[0] in a;
    assert |b| > 0 ==> b[0] in b;
    if a != [] && b != [] {
      var x, y := a[|a| - 1], b[|b| - 1];
      assert x in b && y in a;
      var a', b' := a[..|a| - 1], b[..|b| - 1];
      assert a == a' + [x] && b == b' + [y];
      forall e ensures e in a' <==> e in b' {
        assert e in a <==> e in b;
      }
      ChronologicalUnique(a', b');
    }
  }

  /** Merging two parts of one timeline gives that timeline. */
  lemma MergeIs(a: seq<TimelineEvent>, b: seq<TimelineEvent>, z: seq<TimelineEvent>)
    requires Chronological(z) && DistinctIds(z) && SameMembers(a + b, z)
    ensures Merge(a, b) == z
  {
    DistinctByIdKeeps(a + b, z);
    SortKeeps(DistinctById(a + b), z);
    ChronologicalUnique(Merge(a, b), z);
  }

  /** Overlapping or adjacent slices of one timeline merge into their union, in
      either argument order. */
  lemma SlicesMerge(f: seq<TimelineEvent>, lo: nat, hi: nat, from: nat)
    requires Chronological(f) && DistinctIds(f)
    requires lo <= hi && from <= hi <= |f|
    ensures Merge(f[lo..hi], f[from..]) == f[if lo < from then lo else from..]
    ensures Merge(f[from..], f[lo..hi]) == f[if lo < from then lo else from..]
  {
    hide Merge, SameMembers;
    var z := f[if lo < from then lo else from..];
    SliceMembers(f, lo, hi, from);
    MergeIs(f[lo..hi], f[from..], z);
    MergeIs(f[from..], f[lo..hi], z);
  }

  lemma SliceMembers(f: seq<TimelineEvent>, lo: nat, hi: nat, from: nat)
    requires lo <= hi && from <= hi <= |f|
    ensures SameMembers(f[lo..hi] + f[from..], f[if lo < from then lo else from..])
    ensures SameMembers(f[from..] + f[lo..hi], f[if lo < from then lo else from..])
  {
    var z := f[if lo < from then lo else from..];
    forall e ensures e in f[lo..hi] || e in f[from..] <==> e in z {
      if e in z {
        var i :| 0 <= i < |z| && z[i] == e;
        var k := i + if lo < from then lo else from;
        assert f[k] == e;
        if from <= k {
          assert f[from..][k - from] == e;
        } else {
          assert f[lo..hi][k - lo] == e;
        }
      }
      if e in f[lo..hi] {
        var i :| 0 <= i < hi - lo && f[lo..hi][i] == e;
        assert z[lo + i - if lo < from then lo else from] == e;
      }
      if e in f[from..] {
        var i :| 0 <= i < |f| - from && f[from..][i] == e;
        assert z[from + i - if lo < from then lo else from] == e;
      }
    }
  }

  // --- The room's timeline as the user sees it ----------------------------------

  ghost function Shown(db: Db, json: string -> Option<Content>, ranks: seq<Rank>): seq<TimelineEvent>
    requires forall i | 0 <= i < |ranks| :: ranks[i].id in db.events
  {
    seq(|ranks|, i requires 0 <= i < |ranks| => Render.Render(json, ReadBack(db.events[ranks[i].id])))
  }

  lemma FullInLog(db: Db, room: string)
    ensures forall i | 0 <= i < |Full(db, room)| ::
              var q := Full(db, room)[i]; q.id in db.events && q.n == db.events[q.id].ev.depth
  {
    var t := Full(db, room);
    forall i | 0 <= i < |t| ensures t[i] in PageRanks(db, room, None) {
      assert t[i] in t;
    }
  }

  ghost function Whole(db: Db, json: string -> Option<Content>, room: string): seq<TimelineEvent>
  {
    FullInLog(db, room);
    Shown(db, json, Full(db, room))
  }

  /** With distinct depths the timeline is strictly ascending in depth alone. */
  ghost predicate StrictlyDeeper(t: seq<Rank>)
  {
    forall i, j | 0 <= i < j < |t| :: t[i].n < t[j].n && t[i].id != t[j].id
  }

  lemma DistinctDepthsAscend(db: Db, room: string)
    requires DistinctDepths(db, room)
    ensures StrictlyDeeper(Full(db, room))
  {
    var t := Full(db, room);
    FullInLog(db, room);
    forall i, j | 0 <= i < j < |t| ensures t[i].n < t[j].n && t[i].id != t[j].id {
      assert Below(t[i], t[j]) && t[i] in t && t[j] in t;
      if t[i].n == t[j].n || t[i].id == t[j].id {
        BelowIrreflexive(t[i]);
      }
    }
  }

  lemma WholeIsChronological(db: Db, json: string -> Option<Content>, room: string)
    requires RowsAgree(db) && DistinctDepths(db, room)
    ensures Chronological(Whole(db, json, room)) && DistinctIds(Whole(db, json, room))
  {
    DistinctDepthsAscend(db, room);
    FullInLog(db, room);
  }

  lemma CutAt(t: seq<Rank>, c: nat)
    requires Ascending(t) && StrictlyDeeper(t) && c < |t|
    ensures Cut(t, Some(t[c].n)) == c
  {
    CutSplits(t, Some(t[c].n));
  }

  /** A page read before the `c`-th event is the slice just above it. */
  lemma PageBefore(db: Db, room: string, c: nat, before: Option<int>)
    requires DistinctDepths(db, room) && c <= |Full(db, room)|
    requires before == if c == |Full(db, room)| then None else Some(Full(db, room)[c].n)
    ensures Page(db, room, PAGE, before) == Full(db, room)[if c <= PAGE then 0 else c - PAGE..c]
  {
    hide Page, Ordered, PageRanks, DistinctDepths, StrictlyDeeper, Below;
    PageIsSlice(db, room, PAGE, before);
    DistinctDepthsAscend(db, room);
    if c < |Full(db, room)| {
      CutAt(Full(db, room), c);
    }
  }

  /** The slice a page read before the `c`-th event of the timeline covers. */
  function PageStart(c: nat): nat
  {
    if c <= PAGE then 0 else c - PAGE
  }

  /** The view `events` shows the timeline `f` from its `k`-th event on. */
  ghost predicate Tail(events: seq<TimelineEvent>, f: seq<TimelineEvent>, k: nat)
  {
    k <= |f| && events == f[k..]
  }

  lemma WholeCursor(db: Db, json: string -> Option<Content>, room: string, c: nat)
    requires c < |Whole(db, json, room)|
    ensures c < |Full(db, room)| && Whole(db, json, room)[c].cursor == Full(db, room)[c].n
  {
    FullInLog(db, room);
  }

  lemma PageShows(db: Db, json: string -> Option<Content>, room: string, c: nat, before: Option<int>)
    requires RowsAgree(db) && DistinctDepths(db, room) && c <= |Whole(db, json, room)|
    requires before == if c == |Whole(db, json, room)| then None else Some(Whole(db, json, room)[c].cursor)
    ensures var page := Page(db, room, PAGE, before);
            && |page| == c - PageStart(c)
            && forall i | 0 <= i < |page| ::
                 && page[i].id in db.events
                 && ReadRow(db.events[page[i].id]) == Ok(ReadBack(db.events[page[i].id]))
                 && Whole(db, json, room)[PageStart(c) + i] == Render.Render(json, ReadBack(db.events[page[i].id]))
  {
    hide Page, Full, Ordered, PageRanks, DistinctDepths, Ascending, ReadRow, RowsAgree, Render.Render;
    FullInLog(db, room);
    if c < |Whole(db, json, room)| {
      WholeCursor(db, json, room, c);
    }
    PageBefore(db, room, c, before);
    var page := Page(db, room, PAGE, before);
    forall i | 0 <= i < |page| && page[i].id in db.events
      ensures ReadRow(db.events[page[i].id]) == Ok(ReadBack(db.events[page[i].id]))
    {
      RowReadsBack(db, page[i].id);
    }
  }

  /** The rows a store read gives back for that page, as the view shows them. */
  lemma RowsShow(db: Db, json: string -> Option<Content>, room: string, c: nat, before: Option<int>,
      r: Result<seq<Stored>>)
    requires RowsAgree(db) && DistinctDepths(db, room) && c <= |Whole(db, json, room)|
    requires before == if c == |Whole(db, json, room)| then None else Some(Whole(db, json, room)[c].cursor)
    requires var page := Page(db, room, PAGE, before);
             && (forall i | 0 <= i < |page| :: page[i].id in db.events)
             && (r.Ok? <==> forall i | 0 <= i < |page| :: ReadRow(db.events[page[i].id]).Ok?)
             && (r.Ok? ==> |r.value| == |page| && forall i | 0 <= i < |page| ::
                  ReadRow(db.events[page[i].id]) == Ok(r.value[i]))
    ensures r.Ok? && |r.value| == c - PageStart(c)
    ensures forall i | 0 <= i < |r.value| :: Render.Render(json, r.value[i]) == Whole(db, json, room)[PageStart(c) + i]
  {
    hide RowsAgree, DistinctDepths, Whole, Page, ReadRow, ReadBack, Render.Render;
    PageShows(db, json, room, c, before);
  }

  lemma SliceIs(f: seq<TimelineEvent>, lo: nat, hi: nat, page: seq<TimelineEvent>)
    requires lo <= hi <= |f| && |page| == hi - lo
    requires forall i | 0 <= i < |page| :: page[i] == f[lo + i]
    ensures page == f[lo..hi]
  {
  }

  class ChatViewModel {
    const store: LocalStore
    const room: string
    const json: string -> Option<Content>
    var loading: bool
    var events: seq<TimelineEvent>
    var atTop: bool
    var failed: bool

    /** `f` is the room's whole timeline as the user would see it. */
    ghost predicate Timeline(f: seq<TimelineEvent>)
      reads store
    {
      DistinctDepths(store.Contents(), room) && f == Whole(store.Contents(), json, room)
    }

    ghost predicate Readable()
      reads store
    {
      RowsAgree(store.Contents())
    }

    constructor (store: LocalStore, room: string, json: string -> Option<Content>)
      ensures this.store == store && this.room == room && this.json == json
      ensures events == [] && loading && !atTop && !failed
    {
      this.store, this.room, this.json := store, room, json;
      loading, events, atTop, failed := true, [], false, false;
    }

    method Read(before: Option<int>, ghost f: seq<TimelineEvent>, ghost c: nat)
        returns (page: Option<seq<TimelineEvent>>)
      requires Timeline(f) && c <= |f|
      requires before == if c == |f| then None else Some(f[c].cursor)
      ensures Readable() ==> page == Some(f[PageStart(c)..c])
    {
      hide RowsAgree, DistinctDepths, Whole, Page, ReadRow, Render.Render;
      var r := store.Timeline(room, PAGE, before);
      if r.Malformed? {
        page := None;
      } else {
        page := Some(seq(|r.value|, i requires 0 <= i < |r.value| => Render.Render(json, r.value[i])));
      }
      if Readable() {
        RowsShow(store.Contents(), json, room, c, before, r);
        SliceIs(f, PageStart(c), c, page.value);
      }
    }

    /** Re-reads the newest page and merges it into what is shown. */
    method Refresh(ghost f: seq<TimelineEvent>, ghost k: nat)
      requires Timeline(f) && Tail(events, f, k)
      modifies this
      ensures !loading && atTop == old(atTop)
      ensures Readable() ==> Tail(events, f, if k < PageStart(|f|) then k else PageStart(|f|)) && failed == old(failed)
    {
      hide RowsAgree, DistinctDepths, Whole, Merge, Chronological, DistinctIds;
      var newest := Read(None, f, |f|);
      loading := false;
      if newest.Some? {
        events := Merge(events, newest.value);
      } else {
        failed := true;
      }
      if Readable() {
        WholeIsChronological(store.Contents(), json, room);
        SlicesMerge(f, PageStart(|f|), |f|, k);
      }
    }

    /** The completion of a backwards read whose cursor was taken when the view
        started at `c`; other reads may have completed in between. */
    method FinishLoad(before: int, ghost f: seq<TimelineEvent>, ghost c: nat, ghost k: nat)
      requires Timeline(f) && Tail(events, f, k) && k <= c < |f| && before == f[c].cursor
      modifies this
      ensures loading == old(loading)
      ensures Readable() ==>
                && Tail(events, f, if k < PageStart(c) then k else PageStart(c))
                && atTop == (old(atTop) || c == 0) && failed == old(failed)
    {
      hide RowsAgree, DistinctDepths, Whole, Merge, Chronological, DistinctIds;
      var older := Read(Some(before), f, c);
      if older.None? {
        failed := true;
      } else if older.value == [] {
        atTop := true;
      } else {
        events := Merge(older.value, events);
      }
      if Readable() {
        WholeIsChronological(store.Contents(), json, room);
        SlicesMerge(f, PageStart(c), c, k);
      }
    }

    method LoadOlder(ghost f: seq<TimelineEvent>, ghost k: nat)
      requires Timeline(f) && Tail(events, f, k)
      modifies this
      ensures loading == old(loading)
      ensures Readable() ==>
                && failed == old(failed)
                && (if old(atTop || loading || events == []) then events == old(events) && atTop == old(atTop)
                    else Tail(events, f, PageStart(k)) && atTop == (k == 0))
    {
      if atTop || loading || events == [] {
        return;
      }
      assert events[0] == f[k];
      FinishLoad(events[0].cursor, f, k, k);
    }

    /** Opening a room and scrolling up until the view reports the top shows the
        room's whole timeline, oldest first, each event once. */
    method OpenAndScrollToTop(ghost f: seq<TimelineEvent>)
      requires Timeline(f) && Readable() && events == [] && !atTop
      modifies this
      ensures events == f && Chronological(f) && DistinctIds(f)
      ensures f != [] ==> atTop
    {
      WholeIsChronological(store.Contents(), json, room);
      ScrollToTop(f);
    }

    method ScrollToTop(ghost f: seq<TimelineEvent>)
      requires Timeline(f) && Readable() && events == [] && !atTop
      modifies this
      ensures events == f
      ensures f != [] ==> atTop
    {
      assert events == f[|f|..];
      Refresh(f, |f|);
      ghost var k: nat := PageStart(|f|);
      while !atTop && events != []
        invariant Tail(events, f, k) && !loading && Timeline(f) && Readable()
        invariant atTop ==> k == 0
        invariant f != [] ==> k < |f|
        invariant f == [] ==> k == 0
        decreases k, !atTop
      {
        LoadOlder(f, k);
        k := PageStart(k);
      }
      if f == [] {
        assert events == [];
      } else {
        assert k == 0 && f[0..] == f;
      }
    }
  }
}
