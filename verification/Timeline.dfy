/** Keyset pagination: what a client that pages backwards by depth gets to see. */
module Timeline {
  import opened Base
  import opened Order
  import opened Events
  import opened Tables

  /** The room's whole timeline, oldest first. */
  function Full(db: Db, room: string): seq<Rank>
  {
    Ordered(PageRanks(db, room, None))
  }

  /** How many ranks of an ascending list are strictly shallower than `before`. */
  function Cut(t: seq<Rank>, before: Option<int>): (c: nat)
    ensures c <= |t|
  {
    if t == [] || before.None? || t[|t| - 1].n < before.value then |t|
    else Cut(t[..|t| - 1], before)
  }

  lemma {:induction false} CutSplits(t: seq<Rank>, before: Option<int>)
    requires Ascending(t)
    ensures forall i | 0 <= i < |t| :: i < Cut(t, before) <==> (before.Some? ==> t[i].n < before.value)
  {
    if t != [] && before.Some? {
      var last := |t| - 1;
      if t[last].n < before.value {
        forall i | 0 <= i < |t| ensures t[i].n < before.value {
          assert i < last ==> Below(t[i], t[last]);
        }
        assert Cut(t, before) == |t|;
      } else {
        var front := t[..last];
        CutSplits(front, before);
        forall i | 0 <= i < |t| ensures i < Cut(t, before) <==> t[i].n < before.value {
          assert i < last ==> front[i] == t[i];
        }
        assert Cut(t, before) == Cut(front, before);
      }
    } else {
      assert Cut(t, before) == |t|;
    }
  }

  lemma EligibleRanks(db: Db, room: string, before: Option<int>, q: Rank)
    ensures q in PageRanks(db, room, before) <==>
            q in PageRanks(db, room, None) && (before.Some? ==> q.n < before.value)
  {
  }

  lemma ShallowRanks(db: Db, room: string, before: Option<int>, q: Rank)
    ensures q in Full(db, room)[..Cut(Full(db, room), before)] <==> q in PageRanks(db, room, before)
  {
    hide PageRanks, Ordered;
    var t := Full(db, room);
    var c := Cut(t, before);
    CutSplits(t, before);
    EligibleRanks(db, room, before, q);
    if q in t {
      var i :| 0 <= i < |t| && t[i] == q;
      assert i < c ==> t[..c][i] == q;
    }
  }

  lemma SliceOfFull(db: Db, room: string, before: Option<int>)
    ensures Ordered(PageRanks(db, room, before)) == Full(db, room)[..Cut(Full(db, room), before)]
  {
    hide PageRanks, Ordered, Cut, Below;
    forall q ensures q in Full(db, room)[..Cut(Full(db, room), before)] <==> q in Ordered(PageRanks(db, room, before)) {
      ShallowRanks(db, room, before, q);
    }
    AscendingUnique(Full(db, room)[..Cut(Full(db, room), before)], Ordered(PageRanks(db, room, before)));
  }

  /** Each page is a contiguous slice of the full timeline. */
  lemma PageIsSlice(db: Db, room: string, limit: nat, before: Option<int>)
    ensures var t := Full(db, room);
            var c := Cut(t, before);
            Page(db, room, limit, before) == if c <= limit then t[..c] else t[c - limit..c]
  {
    hide PageRanks, Ordered, Cut, Full;
    SliceOfFull(db, room, before);
    var t := Full(db, room);
    var c := Cut(t, before);
    if c > limit {
      assert t[..c][c - limit..] == t[c - limit..c];
    }
  }

  /** The pages a client collects, newest page first: it asks for the newest,
      then for what is before its oldest event, until a page comes back empty. */
  function Pages(db: Db, room: string, limit: nat, before: Option<int>): seq<seq<Rank>>
    decreases Cut(Full(db, room), before)
  {
    var p := Page(db, room, limit, before);
    if p == [] then []
    else
      PageIsSlice(db, room, limit, before);
      CutSplits(Full(db, room), Some(p[0].n));
      CutSplits(Full(db, room), before);
      [p] + Pages(db, room, limit, Some(p[0].n))
  }

  /** All pages put together, oldest first. */
  function Reassembled(pages: seq<seq<Rank>>): seq<Rank>
  {
    if pages == [] then [] else Reassembled(pages[1..]) + pages[0]
  }

  /** Tied with the oldest event of a page, but sorted before it: the next page
      asks for strictly smaller depths and skips it. */
  predicate Skipped(pages: seq<seq<Rank>>, q: Rank)
  {
    exists i :: 0 <= i < |pages| && pages[i] != [] && q.n == pages[i][0].n && Below(q, pages[i][0])
  }

  lemma {:induction false} PagesCollect(db: Db, room: string, limit: nat, before: Option<int>)
    requires limit > 0
    ensures var t := Full(db, room);
            var c := Cut(t, before);
            var pages := Pages(db, room, limit, before);
            var all := Reassembled(pages);
            && Ascending(all)
            && (forall q | q in all :: q in t[..c])
            && (forall i | 0 <= i < |pages| :: pages[i] != [] && pages[i][0] in t[..c])
            && (forall q | q in t[..c] :: q in all <==> !Skipped(pages, q))
    decreases Cut(Full(db, room), before)
  {
    hide Page, Ordered, Skipped, PageRanks, Below, Cut;
    var t := Full(db, room);
    var c := Cut(t, before);
    var p := Page(db, room, limit, before);
    PageIsSlice(db, room, limit, before);
    if p != [] {
      CutSplits(t, before);
      var start := c - |p|;
      assert p == t[start..c];
      var next := Some(t[start].n);
      var c' := Cut(t, next);
      CutSplits(t, next);
      var older := Pages(db, room, limit, next);
      PagesCollect(db, room, limit, next);
      PageStep(t, c, start, c', p, older);
    }
  }

  lemma PageStep(t: seq<Rank>, c: nat, start: nat, c': nat, p: seq<Rank>, older: seq<seq<Rank>>)
    requires Ascending(t) && start < c <= |t| && p == t[start..c]
    requires c' <= start && forall i | 0 <= i < |t| :: i < c' <==> t[i].n < t[start].n
    requires Ascending(Reassembled(older))
    requires forall q | q in Reassembled(older) :: q in t[..c']
    requires forall i | 0 <= i < |older| :: older[i] != [] && older[i][0] in t[..c']
    requires forall q | q in t[..c'] :: q in Reassembled(older) <==> !Skipped(older, q)
    ensures var pages := [p] + older;
            var all := Reassembled(pages);
            && Ascending(all)
            && (forall q | q in all :: q in t[..c])
            && (forall i | 0 <= i < |pages| :: pages[i] != [] && pages[i][0] in t[..c])
            && (forall q | q in t[..c] :: q in all <==> !Skipped(pages, q))
  {
    hide Skipped;
    var pages := [p] + older;
    var rest := Reassembled(older);
    assert Reassembled(pages) == rest + p by {
      assert pages[1..] == older;
    }
    forall q | q in t[..c'] ensures q in t[..c] && q.n < t[start].n {
      var i :| 0 <= i < c' && t[i] == q;
      assert t[..c][i] == q;
    }
    assert p[0] == t[start] && t[..c][start] == t[start];
    forall q | q in t[..c] ensures q in rest + p <==> !Skipped(pages, q) {
      var i :| 0 <= i < c && t[i] == q;
      Returned(t, c, start, c', p, older, i);
    }
  }

  /** One event of the timeline: returned by this page, by an older one, or tied
      out between them. */
  lemma Returned(t: seq<Rank>, c: nat, start: nat, c': nat, p: seq<Rank>, older: seq<seq<Rank>>, i: nat)
    requires Ascending(t) && start < c <= |t| && p == t[start..c] && i < c
    requires c' <= start && forall i | 0 <= i < |t| :: i < c' <==> t[i].n < t[start].n
    requires forall q | q in Reassembled(older) :: q in t[..c']
    requires forall i | 0 <= i < |older| :: older[i] != [] && older[i][0] in t[..c']
    requires forall q | q in t[..c'] :: q in Reassembled(older) <==> !Skipped(older, q)
    ensures t[i] in Reassembled(older) + p <==> !Skipped([p] + older, t[i])
  {
    hide Skipped, Reassembled;
    var q := t[i];
    SkippedSplits(p, older, q);
    OlderHeads(t, start, c', older, q);
    if i < c' {
      assert t[..c'][i] == q;
      NotInSlice(t, start, c, i);
    } else if i < start {
      assert Below(t[i], t[start]) && q.n == p[0].n;
      NotInSlice(t, start, c, i);
    } else {
      assert p[i - start] == q;
      if i > start {
        assert Below(t[start], q);
        BelowAsymmetric(t[start], q);
      } else {
        BelowIrreflexive(q);
      }
    }
  }

  lemma SkippedSplits(p: seq<Rank>, older: seq<seq<Rank>>, q: Rank)
    requires p != []
    ensures Skipped([p] + older, q) <==> (q.n == p[0].n && Below(q, p[0])) || Skipped(older, q)
  {
    var pages := [p] + older;
    if Skipped(older, q) {
      var i :| 0 <= i < |older| && older[i] != [] && q.n == older[i][0].n && Below(q, older[i][0]);
      assert pages[i + 1] == older[i];
    }
    if i :| 0 <= i < |pages| && pages[i] != [] && q.n == pages[i][0].n && Below(q, pages[i][0]) {
      assert i > 0 ==> older[i - 1] == pages[i];
    }
    assert pages[0] == p;
  }

  /** The older pages start strictly shallower than this one. */
  lemma OlderHeads(t: seq<Rank>, start: nat, c': nat, older: seq<seq<Rank>>, q: Rank)
    requires start < |t| && c' <= |t|
    requires forall i | 0 <= i < c' :: t[i].n < t[start].n
    requires forall i | 0 <= i < |older| :: older[i] != [] && older[i][0] in t[..c']
    ensures q.n >= t[start].n ==> !Skipped(older, q)
  {
  }

  lemma NotInSlice(t: seq<Rank>, start: nat, c: nat, i: nat)
    requires Ascending(t) && i < start <= c <= |t|
    ensures t[i] !in t[start..c]
  {
    if j :| start <= j < c && t[j] == t[i] {
      AscendingPositions(t, i, j);
    }
  }

  predicate DistinctDepths(db: Db, room: string)
  {
    forall a, b | a in PageRanks(db, room, None) && b in PageRanks(db, room, None) && a.n == b.n :: a == b
  }

  /** Paging backwards terminates, never repeats a row, keeps them sorted, and
      never returns exactly the room's commits and the rows a tie skips. */
  lemma PagingReturnsExactly(db: Db, room: string, limit: nat, id: string)
    requires limit > 0 && id in db.events && db.events[id].ev.roomId == room
    ensures var pages := Pages(db, room, limit, None);
            var q := Rank(db.events[id].ev.depth, id);
            && Ascending(Reassembled(pages))
            && (q in Reassembled(pages) <==> db.events[id].ev.ty != MlsCommit && !Skipped(pages, q))
  {
    var t := Full(db, room);
    var q := Rank(db.events[id].ev.depth, id);
    PagesCollect(db, room, limit, None);
    assert t[..Cut(t, None)] == t;
    assert q in PageRanks(db, room, None) <==> db.events[id].ev.ty != MlsCommit;
  }

  /** With distinct depths the pages are the full timeline. */
  lemma PagesConcatenate(db: Db, room: string, limit: nat)
    requires limit > 0 && DistinctDepths(db, room)
    ensures Reassembled(Pages(db, room, limit, None)) == Full(db, room)
  {
    hide Pages, Reassembled, Page, Ordered;
    var t := Full(db, room);
    var pages := Pages(db, room, limit, None);
    PagesCollect(db, room, limit, None);
    assert t[..Cut(t, None)] == t;
    forall q | q in t ensures !Skipped(pages, q) {
      if Skipped(pages, q) {
        var i :| 0 <= i < |pages| && pages[i] != [] && q.n == pages[i][0].n && Below(q, pages[i][0]);
        assert pages[i][0] in PageRanks(db, room, None);
        BelowIrreflexive(q);
      }
    }
    AscendingUnique(Reassembled(pages), t);
  }
}
