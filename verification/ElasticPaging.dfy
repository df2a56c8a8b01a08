/**
  Paging an Elastic index by timestamp, excluding the ids already seen at the boundary millisecond.

  The server sorts by timestamp only; among hits of one millisecond it may answer in any order, and in
  a different one on every query. The index is fixed while a window is read.
*/
module ElasticPaging {
  datatype Hit = Hit(id: string, ts: int)

  /** Ids identify hits. */
  ghost predicate Index(hits: set<Hit>) {
    forall a, b :: a in hits && b in hits && a.id == b.id ==> a == b
  }

  function Within(hits: set<Hit>, since: int, until: int): set<Hit> {
    set h | h in hits && since <= h.ts < until
  }

  function At(hits: set<Hit>, ts: int): set<Hit> {
    set h | h in hits && h.ts == ts
  }

  ghost predicate Sorted(page: seq<Hit>) {
    forall i, j :: 0 <= i < j < |page| ==> page[i].ts <= page[j].ts
  }

  ghost predicate NoRepeats(page: seq<Hit>) {
    forall i, j :: 0 <= i < j < |page| ==> page[i] != page[j]
  }

  function Elements(page: seq<Hit>): set<Hit> {
    set h | h in page
  }

  /** A page of `matching`: sorted, as long as it can be, and nothing left out is earlier than what is returned. */
  ghost predicate Answers(matching: set<Hit>, size: nat, page: seq<Hit>) {
    && Sorted(page) && NoRepeats(page) && Elements(page) <= matching
    && |page| <= size
    && (|page| < size ==> Elements(page) == matching)
    && forall h, p :: h in matching && h !in page && p in page ==> p.ts <= h.ts
  }

  /** Some server: the earliest hits, ties in any order. */
  method Search(matching: set<Hit>, size: nat) returns (page: seq<Hit>)
    ensures Answers(matching, size, page)
  {
    page := [];
    var left := matching;
    while left != {} && |page| < size
      invariant left <= matching && Elements(page) == matching - left && |page| <= size
      invariant Sorted(page) && NoRepeats(page)
      invariant forall h, p :: h in left && p in page ==> p.ts <= h.ts
      decreases |left|
    {
      var h := Earliest(left);
      assert h !in Elements(page);
      OneMore(page, h);
      LaterAppends(page, h);
      page := page + [h];
      left := left - {h};
    }
    assert left == {} ==> matching - left == matching;
    hide Sorted, NoRepeats;
    forall h | h in matching && h !in page ensures h in left {
      assert h !in Elements(page);
    }
  }

  lemma LaterAppends(page: seq<Hit>, h: Hit)
    requires Sorted(page) && NoRepeats(page) && h !in page && forall p :: p in page ==> p.ts <= h.ts
    ensures Sorted(page + [h]) && NoRepeats(page + [h])
  {
    assert forall i :: 0 <= i < |page| ==> page[i] in page;
  }

  lemma OneMore(page: seq<Hit>, h: Hit)
    ensures Elements(page + [h]) == Elements(page) + {h} && (h in page <==> h in Elements(page))
  {
  }

  method Earliest(hits: set<Hit>) returns (h: Hit)
    requires hits != {}
    ensures h in hits && forall x :: x in hits ==> h.ts <= x.ts
  {
    h :| h in hits;
    var left := hits - {h};
    while left != {}
      invariant left <= hits && h in hits
      invariant forall x :: x in hits && x !in left ==> h.ts <= x.ts
      decreases |left|
    {
      var x :| x in left;
      left := left - {x};
      if x.ts < h.ts {
        h := x;
      }
    }
  }

  // ---------------------------------------------------------------------------------------------
  // Reading a window
  // ---------------------------------------------------------------------------------------------

  function Ids(hits: set<Hit>): set<string> {
    set h | h in hits :: h.id
  }

  /** What the query matches: from the cursor on, without the ids of the boundary. */
  function Matching(hits: set<Hit>, cursor: int, until: int, boundary: set<string>): set<Hit> {
    set h | h in hits && cursor <= h.ts < until && h.id !in boundary
  }

  /** Everything before the cursor was yielded, nothing after it, and the boundary holds the ids yielded at it. */
  ghost predicate UpTo(hits: set<Hit>, since: int, until: int, cursor: int, boundary: set<string>, out: set<Hit>) {
    && since <= cursor && out <= Within(hits, since, until)
    && (forall h :: h in out ==> h.ts <= cursor)
    && (forall h :: h in Within(hits, since, until) && h.ts < cursor ==> h in out)
    && boundary == Ids(At(out, cursor))
  }

  lemma MatchingIsRest(hits: set<Hit>, since: int, until: int, cursor: int, boundary: set<string>, out: set<Hit>)
    requires Index(hits) && UpTo(hits, since, until, cursor, boundary, out)
    ensures Matching(hits, cursor, until, boundary) == Within(hits, since, until) - out
  {
    forall h | h in out ensures h.ts < cursor || h.id in boundary {
      assert h.ts == cursor ==> h in At(out, cursor);
    }
    forall h | h in Within(hits, since, until) && h.id in boundary ensures h in out {
      var x :| x in At(out, cursor) && x.id == h.id;
      assert x in hits && h in hits;
    }
  }

  lemma PageAdvances(hits: set<Hit>, since: int, until: int, cursor: int, boundary: set<string>, out: set<Hit>, page: seq<Hit>, size: nat)
    requires UpTo(hits, since, until, cursor, boundary, out) && page != []
    requires Answers(Within(hits, since, until) - out, size, page)
    ensures var last := page[|page| - 1].ts;
      var atLast := Ids(At(Elements(page), last));
      && cursor <= last
      && UpTo(hits, since, until, last, if last == cursor then boundary + atLast else atLast, out + Elements(page))
  {
    var last := page[|page| - 1];
    assert last in Elements(page);
    assert forall h :: h in page ==> h.ts <= last.ts;
    assert forall h :: h in page ==> h in Elements(page);
    var more := out + Elements(page);
    forall h | h in Within(hits, since, until) && h !in more ensures last.ts <= h.ts {
      assert h !in Elements(page);
    }
    if last.ts == cursor {
      assert At(more, cursor) == At(out, cursor) + At(Elements(page), cursor);
      assert Ids(At(more, cursor)) == Ids(At(out, cursor)) + Ids(At(Elements(page), cursor));
    } else {
      assert At(more, last.ts) == At(Elements(page), last.ts);
    }
  }

  lemma SortedJoin(out: seq<Hit>, page: seq<Hit>, cursor: int)
    requires Sorted(out) && Sorted(page) && NoRepeats(out) && NoRepeats(page) && Elements(out) !! Elements(page)
    requires (forall h :: h in out ==> h.ts <= cursor) && (forall h :: h in page ==> cursor <= h.ts)
    ensures Sorted(out + page) && NoRepeats(out + page) && Elements(out + page) == Elements(out) + Elements(page)
  {
    var all := out + page;
    assert forall i :: 0 <= i < |out| ==> out[i] in out && out[i] in Elements(out);
    assert forall i :: 0 <= i < |page| ==> page[i] in page && page[i] in Elements(page);
    forall i, j | 0 <= i < j < |all| ensures all[i].ts <= all[j].ts && all[i] != all[j] {
      if i < |out| <= j {
        assert all[i] in Elements(out) && all[j] in Elements(page);
      }
    }
  }

  /** Yields every hit of the window exactly once, in order of time, for any page size and any order of ties. */
  method FetchBatch(hits: set<Hit>, since: int, until: int, size: nat) returns (out: seq<Hit>)
    requires Index(hits) && size >= 1
    ensures Elements(out) == Within(hits, since, until) && NoRepeats(out) && Sorted(out)
  {
    hide Answers, UpTo;
    out := [];
    var cursor, boundary := since, {};
    assert UpTo(hits, since, until, cursor, boundary, Elements(out)) by { StartsEmpty(hits, since, until); }
    while true
      invariant UpTo(hits, since, until, cursor, boundary, Elements(out))
      invariant NoRepeats(out) && Sorted(out) && Elements(out) <= Within(hits, since, until)
      decreases Within(hits, since, until) - Elements(out)
    {
      MatchingIsRest(hits, since, until, cursor, boundary, Elements(out));
      var page := Search(Matching(hits, cursor, until, boundary), size);
      PageFacts(hits, since, until, cursor, boundary, Elements(out), page, size);
      if page == [] {
        return;
      }
      PageAdvances(hits, since, until, cursor, boundary, Elements(out), page, size);
      SortedJoin(out, page, cursor);
      out := out + page;
      var last := page[|page| - 1].ts;
      var atLast := set h | h in page && h.ts == last :: h.id;
      assert atLast == Ids(At(Elements(page), last));
      if last == cursor {
        boundary := boundary + atLast;
      } else {
        cursor, boundary := last, atLast;
      }
      if |page| < size {
        return;
      }
    }
  }

  lemma StartsEmpty(hits: set<Hit>, since: int, until: int)
    ensures UpTo(hits, since, until, since, {}, {}) && Elements([]) == {}
  {
  }

  lemma PageFacts(hits: set<Hit>, since: int, until: int, cursor: int, boundary: set<string>, out: set<Hit>, page: seq<Hit>, size: nat)
    requires UpTo(hits, since, until, cursor, boundary, out) && size >= 1
    requires Matching(hits, cursor, until, boundary) == Within(hits, since, until) - out
    requires Answers(Within(hits, since, until) - out, size, page)
    ensures Sorted(page) && NoRepeats(page) && Elements(page) <= Within(hits, since, until) && out !! Elements(page)
    ensures (forall h :: h in out ==> h.ts <= cursor) && (forall h :: h in page ==> cursor <= h.ts)
    ensures page == [] || |page| < size ==> out + Elements(page) == Within(hits, since, until)
    ensures page != [] ==> Elements(page) != {}
  {
    forall h | h in page ensures cursor <= h.ts {
      assert h in Elements(page);
      assert h in Matching(hits, cursor, until, boundary);
    }
    if page != [] { assert page[0] in Elements(page); }
  }

  // ---------------------------------------------------------------------------------------------
  // One page of the source connector
  // ---------------------------------------------------------------------------------------------

  datatype Page = Page(hits: seq<Hit>, next: int, complete: bool)

  function Max(a: int, b: int): int { if a < b then b else a }

  /** The page cut from a listing of the window. */
  ghost predicate CutFrom(out: seq<Hit>, since: int, limit: nat, page: Page)
    requires limit >= 1
  {
    if |out| < limit then page.hits == out && page.complete
    else
      && page.hits == out[..limit] && !page.complete
      && page.next == if out[limit - 1].ts > since then out[limit - 1].ts else since + 1
  }

  ghost predicate Listing(hits: set<Hit>, since: int, until: int, out: seq<Hit>) {
    Elements(out) == Within(hits, since, until) && NoRepeats(out) && Sorted(out)
  }

  /** A page some server may lead to: any order of ties is possible. */
  ghost predicate Possible(hits: set<Hit>, since: int, until: int, limit: nat, page: Page)
    requires limit >= 1
  {
    exists out :: Listing(hits, since, until, out) && CutFrom(out, since, limit, page)
  }

  /** Hits of the window that this page did not return and that the next one will not ask for. */
  function Lost(hits: set<Hit>, since: int, until: int, page: Page): set<Hit> {
    set h | h in Within(hits, since, until) && h !in page.hits && h.ts < page.next
  }

  lemma PrefixFacts(out: seq<Hit>, n: nat)
    requires n <= |out| && Sorted(out) && NoRepeats(out)
    ensures Sorted(out[..n]) && NoRepeats(out[..n]) && Elements(out[..n]) <= Elements(out)
    ensures forall h, p :: h in out && h !in out[..n] && p in out[..n] ==> p.ts <= h.ts
  {
    PrefixIsEarlier(out, n);
    assert out == out[..n] + out[n..];
    assert forall h :: h in out[..n] ==> h in out;
  }

  lemma PrefixIsEarlier(out: seq<Hit>, n: nat)
    requires n <= |out| && Sorted(out)
    ensures forall h, p :: h in out && h !in out[..n] && p in out[..n] ==> p.ts <= h.ts
  {
    assert out == out[..n] + out[n..];
    forall h, p | h in out[n..] && p in out[..n] ensures p.ts <= h.ts {
      var i :| 0 <= i < |out[n..]| && out[n..][i] == h;
      var j :| 0 <= j < n && out[..n][j] == p;
      assert out[n + i] == h && out[j] == p;
    }
  }

  /** A page that is cut short moves the cursor strictly forward, and loses hits if and only if its first millisecond is overfull. */
  lemma PossibleFacts(hits: set<Hit>, since: int, until: int, limit: nat, page: Page)
    requires limit >= 1 && Possible(hits, since, until, limit, page)
    ensures Elements(page.hits) <= Within(hits, since, until) && NoRepeats(page.hits) && Sorted(page.hits)
    ensures page.complete ==> Elements(page.hits) == Within(hits, since, until) && |page.hits| < limit
    ensures !page.complete ==> since < page.next && |page.hits| == limit && since < until
    ensures !page.complete ==> (Lost(hits, since, until, page) != {} <==> |At(Within(hits, since, until), since)| > limit)
  {
    var out :| Listing(hits, since, until, out) && CutFrom(out, since, limit, page);
    if !page.complete {
      PrefixFacts(out, limit);
      assert page.hits[limit - 1] in Elements(page.hits);
      LossCondition(hits, since, until, out, page);
    }
  }

  /**
    Fewer than `limit` hits, and then all of them; or exactly `limit`, and then the cursor moves strictly
    forward. A page that is cut short loses hits if and only if its first millisecond is overfull.
  */
  method FetchPage(hits: set<Hit>, since: int, until: int, limit: nat, lookback: int, now: int) returns (page: Page)
    requires Index(hits) && limit >= 1
    ensures Possible(hits, since, until, limit, page)
    ensures Elements(page.hits) <= Within(hits, since, until) && NoRepeats(page.hits) && Sorted(page.hits)
    ensures page.complete ==> Elements(page.hits) == Within(hits, since, until) && |page.hits| < limit
    ensures page.complete ==> page.next == if now - lookback > since then now - lookback else since
    ensures !page.complete ==> since < page.next && |page.hits| == limit && since < until
    ensures !page.complete ==> (Lost(hits, since, until, page) != {} <==> |At(Within(hits, since, until), since)| > limit)
  {
    var out := FetchBatch(hits, since, until, limit);
    assert Listing(hits, since, until, out);
    if |out| < limit {
      page := Page(out, Max(since, now - lookback), true);
    } else {
      var last := out[limit - 1].ts;
      page := Page(out[..limit], if last > since then last else since + 1, false);
    }
    assert CutFrom(out, since, limit, page);
    hide Listing, CutFrom, Index, Sorted, NoRepeats;
    PossibleFacts(hits, since, until, limit, page);
  }

  lemma LossCondition(hits: set<Hit>, since: int, until: int, out: seq<Hit>, page: Page)
    requires Elements(out) == Within(hits, since, until) && NoRepeats(page.hits) && Sorted(page.hits) && page.hits != []
    requires Elements(page.hits) <= Elements(out)
    requires forall h, p :: h in out && h !in page.hits && p in page.hits ==> p.ts <= h.ts
    requires page.next == (var last := page.hits[|page.hits| - 1].ts; if last > since then last else since + 1)
    ensures Lost(hits, since, until, page) != {} <==> |At(Within(hits, since, until), since)| > |page.hits|
  {
    var last := page.hits[|page.hits| - 1];
    assert last in Elements(page.hits);
    SizeOf(page.hits);
    forall h | h in Within(hits, since, until) && h !in page.hits ensures last.ts <= h.ts {
      assert h in Elements(out);
    }
    assert forall p :: p in page.hits ==> p.ts <= last.ts;
    hide NoRepeats, Sorted;
    if last.ts > since {
      CutLater(hits, since, until, page, last);
    } else {
      AllAtOnce(page.hits, last.ts, since, hits, until);
      CutAtOnce(hits, since, until, page);
    }
  }

  lemma AllAtOnce(page: seq<Hit>, last: int, since: int, hits: set<Hit>, until: int)
    requires Elements(page) <= Within(hits, since, until) && last <= since && forall p :: p in page ==> p.ts <= last
    ensures forall p :: p in Elements(page) ==> p.ts == since
  {
  }

  lemma CutLater(hits: set<Hit>, since: int, until: int, page: Page, last: Hit)
    requires last in Elements(page.hits) && last.ts > since && page.next == last.ts
    requires forall h :: h in Within(hits, since, until) && h !in page.hits ==> last.ts <= h.ts
    requires |Elements(page.hits)| == |page.hits|
    ensures Lost(hits, since, until, page) == {} && |At(Within(hits, since, until), since)| <= |page.hits|
  {
    var here := At(Within(hits, since, until), since);
    assert here <= Elements(page.hits);
    Fewer(here, Elements(page.hits));
  }

  lemma CutAtOnce(hits: set<Hit>, since: int, until: int, page: Page)
    requires Elements(page.hits) <= Within(hits, since, until) && page.next == since + 1
    requires forall p :: p in Elements(page.hits) ==> p.ts == since
    requires |Elements(page.hits)| == |page.hits|
    ensures Lost(hits, since, until, page) != {} <==> |At(Within(hits, since, until), since)| > |page.hits|
  {
    var here := At(Within(hits, since, until), since);
    var lost := Lost(hits, since, until, page);
    assert lost == here - Elements(page.hits);
    assert here == Elements(page.hits) + lost && Elements(page.hits) !! lost;
    assert |here| == |Elements(page.hits)| + |lost|;
  }

  lemma Fewer(a: set<Hit>, b: set<Hit>)
    requires a <= b
    ensures |a| <= |b|
  {
    assert b == a + (b - a);
  }

  lemma {:induction false} SizeOf(page: seq<Hit>)
    requires NoRepeats(page)
    ensures |Elements(page)| == |page|
  {
    if page != [] {
      var init, h := page[..|page| - 1], page[|page| - 1];
      SizeOf(init);
      assert page == init + [h];
      OneMore(init, h);
    } else {
      assert Elements(page) == {};
    }
  }

  // ---------------------------------------------------------------------------------------------
  // Draining a window
  // ---------------------------------------------------------------------------------------------

  /** No millisecond of the window holds more than one page of hits. */
  ghost predicate Sparse(hits: set<Hit>, since: int, until: int, limit: nat) {
    forall ts :: since <= ts < until ==> |At(hits, ts)| <= limit
  }

  lemma SparseAt(hits: set<Hit>, since: int, until: int, limit: nat)
    requires Sparse(hits, since, until, limit) && since < until
    ensures |At(Within(hits, since, until), since)| <= limit
  {
    assert At(Within(hits, since, until), since) == At(hits, since);
  }

  /** A run of pages until one completes the window. */
  ghost predicate Drain(hits: set<Hit>, since: int, until: int, limit: nat, pages: seq<Page>)
    requires limit >= 1
    decreases |pages|
  {
    && pages != [] && Possible(hits, since, until, limit, pages[0])
    && if pages[0].complete then |pages| == 1 else Drain(hits, pages[0].next, until, limit, pages[1..])
  }

  function Got(pages: seq<Page>): set<Hit> {
    if pages == [] then {} else Elements(pages[0].hits) + Got(pages[1..])
  }

  /** If no millisecond is overfull, nothing is lost, whatever the server does. */
  lemma {:induction false} SparseLosesNothing(hits: set<Hit>, since: int, until: int, limit: nat, pages: seq<Page>)
    requires limit >= 1 && Sparse(hits, since, until, limit) && Drain(hits, since, until, limit, pages)
    ensures Got(pages) == Within(hits, since, until)
    decreases |pages|
  {
    var page := pages[0];
    PossibleFacts(hits, since, until, limit, page);
    hide Possible, Sorted, NoRepeats;
    if page.complete {
      assert pages[1..] == [];
    } else {
      SparseAt(hits, since, until, limit);
      NothingLost(hits, since, until, page);
      SparseLosesNothing(hits, page.next, until, limit, pages[1..]);
      assert forall h :: h in Within(hits, since, until) ==> h in Elements(page.hits) || h in Within(hits, page.next, until);
    }
  }

  // ---------------------------------------------------------------------------------------------
  // An order of ties that loses a hit
  // ---------------------------------------------------------------------------------------------

  /** Put a hit behind everything that is not later. */
  lemma {:induction false} InsertLate(out: seq<Hit>, h: Hit) returns (more: seq<Hit>, k: nat)
    requires Sorted(out) && NoRepeats(out) && h !in out
    ensures Sorted(more) && NoRepeats(more) && Elements(more) == Elements(out) + {h}
    ensures k < |more| && more[k] == h && forall i :: k < i < |more| ==> more[i].ts > h.ts
  {
    if out == [] || out[|out| - 1].ts <= h.ts {
      more, k := out + [h], |out|;
      OneMore(out, h);
      LaterAppends(out, h);
    } else {
      var init, last := out[..|out| - 1], out[|out| - 1];
      assert out == init + [last];
      LastIsLast(out);
      var some, j := InsertLate(init, h);
      more, k := some + [last], j;
      OneMore(init, last);
      OneMore(some, last);
      hide Sorted, NoRepeats;
      assert last !in Elements(some);
      assert forall x :: x in some ==> x in Elements(some);
      LaterAppends(some, last);
    }
  }

  lemma LastIsLast(out: seq<Hit>)
    requires out != [] && Sorted(out) && NoRepeats(out)
    ensures var (init, last) := (out[..|out| - 1], out[|out| - 1]);
      Sorted(init) && NoRepeats(init) && last !in init && forall x :: x in init ==> x.ts <= last.ts && x in out
  {
  }

  lemma {:induction false} SomeListing(s: set<Hit>) returns (out: seq<Hit>)
    ensures Sorted(out) && NoRepeats(out) && Elements(out) == s
    decreases s
  {
    if s == {} {
      out := [];
    } else {
      var h :| h in s;
      var rest := SomeListing(s - {h});
      assert h !in Elements(rest);
      var k;
      out, k := InsertLate(rest, h);
    }
  }

  /** A listing in which `victim` comes last among the hits of its millisecond. */
  lemma ListingWithLast(s: set<Hit>, victim: Hit) returns (out: seq<Hit>, k: nat)
    requires victim in s
    ensures Sorted(out) && NoRepeats(out) && Elements(out) == s && k < |out| && out[k] == victim
    ensures |At(s, victim.ts)| <= k + 1
  {
    var rest := SomeListing(s - {victim});
    assert victim !in Elements(rest);
    out, k := InsertLate(rest, victim);
    TiesBefore(s, victim, out, k);
  }

  lemma TiesBefore(s: set<Hit>, victim: Hit, out: seq<Hit>, k: nat)
    requires Elements(out) == s && NoRepeats(out) && k < |out| && out[k] == victim && forall i :: k < i < |out| ==> out[i].ts > victim.ts
    ensures |At(s, victim.ts)| <= k + 1
  {
    var front := out[..k + 1];
    forall h | h in At(s, victim.ts) ensures h in Elements(front) {
      assert h in Elements(out) && h in out;
      var i :| 0 <= i < |out| && out[i] == h;
      assert i <= k && front[i] == h;
    }
    SizeOf(front);
    Fewer(At(s, victim.ts), Elements(front));
  }

  /** There always is a run of pages to the end of the window. */
  lemma {:induction false} SomeDrain(hits: set<Hit>, since: int, until: int, limit: nat) returns (pages: seq<Page>)
    requires limit >= 1
    ensures Drain(hits, since, until, limit, pages)
    ensures forall h :: h in Got(pages) ==> since <= h.ts
    decreases until - since
  {
    var out := SomeListing(Within(hits, since, until));
    pages := Onwards(hits, since, until, limit, out);
  }

  lemma {:induction false} Onwards(hits: set<Hit>, since: int, until: int, limit: nat, out: seq<Hit>) returns (pages: seq<Page>)
    requires limit >= 1 && Listing(hits, since, until, out)
    ensures Drain(hits, since, until, limit, pages)
    ensures forall h :: h in Got(pages) ==> since <= h.ts
    decreases until - since, 0
  {
    var page := FirstPage(hits, since, until, limit, out);
    if page.complete {
      pages := [page];
      assert pages[1..] == [];
    } else {
      var rest := SomeDrain(hits, page.next, until, limit);
      pages := [page] + rest;
      assert pages[1..] == rest;
    }
  }

  lemma FirstPage(hits: set<Hit>, since: int, until: int, limit: nat, out: seq<Hit>) returns (page: Page)
    requires limit >= 1 && Listing(hits, since, until, out)
    ensures Possible(hits, since, until, limit, page) && CutFrom(out, since, limit, page)
    ensures Elements(page.hits) <= Within(hits, since, until) && (!page.complete ==> since < page.next && since < until)
  {
    page := if |out| < limit then Page(out, since, true)
            else Page(out[..limit], if out[limit - 1].ts > since then out[limit - 1].ts else since + 1, false);
    PossibleFacts(hits, since, until, limit, page);
  }

  /** If some millisecond is overfull, some order of ties loses any given hit of it. */
  lemma {:induction false} OverfullLosesSome(hits: set<Hit>, since: int, until: int, limit: nat, victim: Hit) returns (pages: seq<Page>)
    requires limit >= 1 && victim in Within(hits, since, until) && |At(hits, victim.ts)| > limit
    ensures Drain(hits, since, until, limit, pages) && victim !in Got(pages)
    decreases until - since
  {
    var all := Within(hits, since, until);
    assert At(all, victim.ts) == At(hits, victim.ts);
    var out, k := ListingWithLast(all, victim);
    var page := FirstPage(hits, since, until, limit, out);
    assert !page.complete && victim !in Elements(page.hits) by {
      forall i | 0 <= i < limit ensures out[i] != victim {
        assert i < k;
      }
    }
    hide Listing, Possible, CutFrom, Sorted, NoRepeats;
    var rest: seq<Page>;
    if page.next <= victim.ts {
      rest := OverfullLosesSome(hits, page.next, until, limit, victim);
    } else {
      rest := SomeDrain(hits, page.next, until, limit);
    }
    pages := [page] + rest;
    assert pages[1..] == rest;
  }

  /** Paging loses nothing, whatever the order of ties, if and only if no millisecond holds more than one page of hits. */
  lemma LosslessIffSparse(hits: set<Hit>, since: int, until: int, limit: nat)
    requires limit >= 1
    ensures (forall pages :: Drain(hits, since, until, limit, pages) ==> Got(pages) == Within(hits, since, until))
      <==> Sparse(hits, since, until, limit)
  {
    if Sparse(hits, since, until, limit) {
      forall pages | Drain(hits, since, until, limit, pages) ensures Got(pages) == Within(hits, since, until) {
        SparseLosesNothing(hits, since, until, limit, pages);
      }
    } else {
      var ts :| since <= ts < until && |At(hits, ts)| > limit;
      var victim :| victim in At(hits, ts);
      var pages := OverfullLosesSome(hits, since, until, limit, victim);
    }
  }

  /** Three hits at one instant, pages of two: some run of pages loses the third. */
  lemma OverfullCanLose(a: Hit, b: Hit, d: Hit, t: int) returns (pages: seq<Page>)
    requires a.ts == b.ts == d.ts == t && a != b && b != d && a != d
    ensures Drain({a, b, d}, t, t + 1, 2, pages) && d !in Got(pages)
  {
    assert At({a, b, d}, t) == {a, b, d};
    pages := OverfullLosesSome({a, b, d}, t, t + 1, 2, d);
  }

  // ---------------------------------------------------------------------------------------------
  // The loop
  // ---------------------------------------------------------------------------------------------

  /** The pages so far lead from `since` to the cursor. */
  ghost predicate LeadsOn(hits: set<Hit>, since: int, until: int, limit: nat, pages: seq<Page>, cursor: int)
    requires limit >= 1
  {
    forall rest :: Drain(hits, cursor, until, limit, rest) ==> Drain(hits, since, until, limit, pages + rest)
  }

  lemma LeadsFurther(hits: set<Hit>, since: int, until: int, limit: nat, pages: seq<Page>, cursor: int, page: Page)
    requires limit >= 1 && LeadsOn(hits, since, until, limit, pages, cursor) && Possible(hits, cursor, until, limit, page)
    ensures !page.complete ==> LeadsOn(hits, since, until, limit, pages + [page], page.next)
    ensures page.complete ==> Drain(hits, since, until, limit, pages + [page])
  {
    if page.complete {
      assert [page][0] == page && Drain(hits, cursor, until, limit, [page]);
    } else {
      forall rest | Drain(hits, page.next, until, limit, rest) ensures Drain(hits, since, until, limit, pages + [page] + rest) {
        var more := [page] + rest;
        assert more[0] == page && more[1..] == rest;
        assert Drain(hits, cursor, until, limit, more);
        assert pages + [page] + rest == pages + more;
      }
    }
  }

  /** Page after page until the window completes: it terminates, and if no millisecond is overfull nothing is lost. */
  method DrainWindow(hits: set<Hit>, since: int, until: int, limit: nat) returns (pages: seq<Page>)
    requires Index(hits) && limit >= 1
    ensures Drain(hits, since, until, limit, pages)
    ensures Sparse(hits, since, until, limit) ==> Got(pages) == Within(hits, since, until)
  {
    hide Index, Sorted, NoRepeats, Possible, Drain, Sparse, LeadsOn;
    pages := [];
    var cursor := since;
    NothingRead(hits, since, until, limit);
    var page := FetchPage(hits, cursor, until, limit, 0, cursor);
    while !page.complete
      invariant LeadsOn(hits, since, until, limit, pages, cursor) && Possible(hits, cursor, until, limit, page)
      invariant !page.complete ==> cursor < page.next && cursor < until
      decreases until - cursor
    {
      LeadsFurther(hits, since, until, limit, pages, cursor, page);
      pages := pages + [page];
      cursor := page.next;
      page := FetchPage(hits, cursor, until, limit, 0, cursor);
    }
    LeadsFurther(hits, since, until, limit, pages, cursor, page);
    pages := pages + [page];
    if Sparse(hits, since, until, limit) {
      SparseLosesNothing(hits, since, until, limit, pages);
    }
  }

  lemma NothingRead(hits: set<Hit>, since: int, until: int, limit: nat)
    requires limit >= 1
    ensures LeadsOn(hits, since, until, limit, [], since)
  {
    assert forall rest: seq<Page> :: [] + rest == rest;
  }

  lemma NothingLost(hits: set<Hit>, since: int, until: int, page: Page)
    requires Lost(hits, since, until, page) == {}
    ensures forall h :: h in Within(hits, since, until) && h.ts < page.next ==> h in page.hits
  {
    forall h | h in Within(hits, since, until) && h.ts < page.next ensures h in page.hits {
      assert h !in Lost(hits, since, until, page);
    }
  }
}
