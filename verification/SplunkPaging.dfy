/**
  Paging a Splunk search job: a snapshot with a fixed number of rows, read by offset. Jobs may vanish
  between any two pages; the window is then replayed on a new job.
*/
module SplunkPaging {
  datatype Option<T> = None | Some(value: T)

  type Sid = nat
  /** A row, and whether it carries an identity. */
  datatype Row = Row(content: int, identified: bool)

  datatype Window = Window(start: int, end: int)
  datatype Cursor = Cursor(window: Window, continuing: bool, job: Option<(Sid, nat)>, watermark: Option<int>)

  /** Why a call ended without a committed page; `Died` is a crash between the fetch and the commit. */
  datatype Failure = PartialResponse | UnparseableRow | Died

  datatype Page = Page(rows: seq<Row>, rejected: seq<Row>, complete: bool, running: bool)
  datatype Reply = Ok(page: Page) | Failed(failure: Failure)

  /**
    What happens outside during one call: what a new job would hold and whether it is lost at once,
    whether the job has finished, how many rows come back, whether the process dies before the commit.
  */
  datatype Weather = Weather(found: seq<Row>, lost: bool, done: bool, batch: nat, dies: bool)

  function Min(a: nat, b: nat): nat { if a < b then a else b }

  function Good(rows: seq<Row>): seq<Row> {
    if rows == [] then []
    else Good(rows[..|rows| - 1]) + if rows[|rows| - 1].identified then [rows[|rows| - 1]] else []
  }

  function Bad(rows: seq<Row>): seq<Row> {
    if rows == [] then []
    else Bad(rows[..|rows| - 1]) + if rows[|rows| - 1].identified then [] else [rows[|rows| - 1]]
  }

  lemma {:induction false} GoodJoins(a: seq<Row>, b: seq<Row>)
    ensures Good(a + b) == Good(a) + Good(b)
  {
    if b == [] {
      assert a + b == a;
    } else {
      GoodJoins(a, b[..|b| - 1]);
      assert (a + b)[..|a + b| - 1] == a + b[..|b| - 1];
    }
  }

  /** Nothing is dropped: every row is either good or rejected. */
  lemma {:induction false} NothingDropped(rows: seq<Row>)
    ensures multiset(rows) == multiset(Good(rows)) + multiset(Bad(rows))
  {
    if rows != [] {
      var init, last := rows[..|rows| - 1], rows[|rows| - 1];
      NothingDropped(init);
      assert rows == init + [last];
      assert multiset(rows) == multiset(init) + multiset{last};
      assert Good(rows) == Good(init) + if last.identified then [last] else [];
      assert Bad(rows) == Bad(init) + if last.identified then [] else [last];
      hide Good, Bad;
    }
  }

  lemma {:induction false} AllGood(rows: seq<Row>)
    requires forall r :: r in rows ==> r.identified
    ensures Good(rows) == rows
  {
    if rows != [] {
      AllGood(rows[..|rows| - 1]);
      assert rows == rows[..|rows| - 1] + [rows[|rows| - 1]];
    }
  }

  lemma {:induction false} NoneBad(rows: seq<Row>)
    ensures Bad(rows) == [] <==> forall r :: r in rows ==> r.identified
  {
    if rows != [] {
      NoneBad(rows[..|rows| - 1]);
      assert rows == rows[..|rows| - 1] + [rows[|rows| - 1]];
    }
  }

  lemma {:induction false} BadJoins(a: seq<Row>, b: seq<Row>)
    ensures Bad(a + b) == Bad(a) + Bad(b)
  {
    if b == [] {
      assert a + b == a;
    } else {
      BadJoins(a, b[..|b| - 1]);
      assert (a + b)[..|a + b| - 1] == a + b[..|b| - 1];
    }
  }

  lemma NothingRead(rows: seq<Row>)
    ensures Good(rows[..0]) == [] && Bad(rows[..0]) == []
  {
  }

  class Connector {
    const limit: nat
    /** Jobs the server still holds; a job's rows never change. */
    var jobs: map<Sid, seq<Row>>
    var nextSid: Sid
    var cursor: Cursor
    /** What the job of the cursor holds, whether or not it still exists. */
    ghost var snapshot: seq<Row>
    /** Rows committed from that job, and rows of it set aside. */
    ghost var taken: seq<Row>
    ghost var aside: seq<Row>

    /** The offset of the cursor counts rows of its own job, and exactly those were taken. */
    ghost predicate Valid()
      reads this
    {
      && limit >= 1
      && (forall s :: s in jobs ==> s < nextSid)
      && (cursor.job.Some? ==>
           && cursor.continuing && cursor.job.value.0 < nextSid
           && (cursor.job.value.0 in jobs ==> jobs[cursor.job.value.0] == snapshot)
           && cursor.job.value.1 <= |snapshot|
           && taken == Good(snapshot[..cursor.job.value.1])
           && aside == Bad(snapshot[..cursor.job.value.1]))
    }

    constructor (bound: nat, window: Window)
      requires bound >= 1
      ensures Valid() && limit == bound && cursor == Cursor(window, true, None, None)
    {
      limit := bound;
      jobs, nextSid := map[], 0;
      cursor := Cursor(window, true, None, None);
      snapshot, taken, aside := [], [], [];
    }

    /** The server forgets a job. */
    method Vanish(s: Sid)
      requires Valid()
      modifies this`jobs
      ensures Valid() && jobs == old(jobs) - {s}
    {
      jobs := jobs - {s};
    }

    /** Rows of one result page, split into identified and rejected ones. */
    method Split(raw: seq<Row>, strict: bool) returns (ok: bool, good: seq<Row>, rejected: seq<Row>)
      ensures ok <==> !strict || forall r :: r in raw ==> r.identified
      ensures ok ==> good == Good(raw) && rejected == Bad(raw)
    {
      good, rejected := [], [];
      for k := 0 to |raw|
        invariant good == Good(raw[..k]) && rejected == Bad(raw[..k])
        invariant strict ==> forall r :: r in raw[..k] ==> r.identified
      {
        assert raw[..k + 1][..k] == raw[..k] && raw[..k + 1] == raw[..k] + [raw[k]];
        if raw[k].identified {
          good := good + [raw[k]];
        } else {
          if strict {
            assert raw[k] in raw;
            return false, [], [];
          }
          rejected := rejected + [raw[k]];
        }
      }
      assert raw[..|raw|] == raw;
      ok := true;
    }

    /** The job and offset to read: the cursor's, or a new job from offset zero when that one is gone. */
    method OpenJob(w: Weather) returns (ok: bool, sid: Sid, offset: nat)
      requires Valid()
      modifies this`jobs, this`nextSid
      ensures Valid() && (ok ==> sid in jobs)
      ensures cursor.job.Some? && cursor.job.value.0 in old(jobs) ==>
        ok && sid == cursor.job.value.0 && offset == cursor.job.value.1 && jobs == old(jobs)
      ensures !(cursor.job.Some? && cursor.job.value.0 in old(jobs)) ==>
        && ok == !w.lost && sid == old(nextSid) && offset == 0
        && jobs == if ok then old(jobs)[sid := w.found] else old(jobs)
    {
      if cursor.job.Some? && cursor.job.value.0 in jobs {
        return true, cursor.job.value.0, cursor.job.value.1;
      }
      sid, offset := nextSid, 0;
      nextSid := nextSid + 1;
      ok := !w.lost;
      if ok {
        jobs := jobs[sid := w.found];
      }
    }

    /** The rows of one page of a finished job, from `offset` up to `end`. */
    method Results(sid: Sid, offset: nat, w: Weather, strict: bool) returns (failure: Option<Failure>, good: seq<Row>, rejected: seq<Row>, end: nat)
      requires sid in jobs && offset <= |jobs[sid]| && limit >= 1
      ensures offset <= end <= |jobs[sid]| && (failure.None? ==> !w.dies && (end == offset ==> end == |jobs[sid]|))
      ensures end <= offset + limit && end <= offset + w.batch && (end == |jobs[sid]| || end == offset + limit || end == offset + w.batch)
      ensures failure == Some(UnparseableRow) <==> strict && exists i :: offset <= i < end && !jobs[sid][i].identified
      ensures failure == Some(PartialResponse) ==> offset < |jobs[sid]| && w.batch == 0
      ensures failure == Some(Died) ==> w.dies
      ensures !w.dies && w.batch >= 1 && (!strict || forall r :: r in jobs[sid] ==> r.identified) ==> failure.None?
      ensures failure.None? ==> Good(jobs[sid][..end]) == Good(jobs[sid][..offset]) + good && Bad(jobs[sid][..end]) == Bad(jobs[sid][..offset]) + rejected
      ensures failure.None? && strict ==> rejected == []
    {
      var total := |jobs[sid]|;
      end := Min(offset + Min(limit, w.batch), total);
      var raw := jobs[sid][offset..end];
      failure := None;
      assert forall i :: offset <= i < end ==> raw[i - offset] == jobs[sid][i];
      assert forall r :: r in raw ==> r in jobs[sid];
      var fine;
      fine, good, rejected := Split(raw, strict);
      if !fine {
        failure := Some(UnparseableRow);
      } else if raw == [] && offset < total {
        failure := Some(PartialResponse);
      } else if w.dies {
        failure := Some(Died);
      }
      assert jobs[sid][..end] == jobs[sid][..offset] + raw;
      GoodJoins(jobs[sid][..offset], raw);
      BadJoins(jobs[sid][..offset], raw);
      NoneBad(raw);
    }

    /**
      One page of the frozen window. A vanished job is replaced by a new one, read from offset zero;
      an offset is only ever used on the job it was counted on. The window is complete only when all
      rows of one job were returned.
    */
    method FetchPage(w: Weather, strict: bool) returns (reply: Reply)
      requires Valid() && cursor.continuing
      modifies this
      ensures Valid()
      ensures reply.Ok? ==> (reply.page.running <==> !w.done) && (w.done ==> !w.dies)
      ensures !w.dies && (Resumed(old(cursor), old(jobs)) || !w.lost) && !w.done ==> reply.Ok?
      ensures !w.dies && (Resumed(old(cursor), old(jobs)) || !w.lost) && w.batch >= 1 && !strict ==> reply.Ok?
      ensures !w.dies && (Resumed(old(cursor), old(jobs)) || !w.lost) && w.batch >= 1 && (forall r :: r in (if Resumed(old(cursor), old(jobs)) then old(snapshot) else w.found) ==> r.identified) ==> reply.Ok?
      ensures reply.Failed? ==> cursor == old(cursor) && taken == old(taken) && aside == old(aside) && snapshot == old(snapshot)
      ensures reply.Ok? ==> cursor.window == old(cursor).window && cursor.continuing == !reply.page.complete
      ensures reply.Ok? && Resumed(old(cursor), old(jobs)) ==>
        snapshot == old(snapshot) && taken == old(taken) + reply.page.rows && aside == old(aside) + reply.page.rejected
      ensures reply.Ok? && !Resumed(old(cursor), old(jobs)) ==>
        snapshot == w.found && taken == reply.page.rows && aside == reply.page.rejected
      ensures reply.Ok? && strict ==> reply.page.rejected == []
      ensures reply.Ok? && reply.page.complete ==> jobs == if Resumed(old(cursor), old(jobs)) then old(jobs) - {old(cursor).job.value.0} else old(jobs)
      ensures reply.Ok? && reply.page.complete ==>
        taken == Good(snapshot) && aside == Bad(snapshot) && cursor.watermark == Some(cursor.window.end) && cursor.job.None?
      ensures reply.Ok? && !reply.page.complete ==> cursor.job.Some? && cursor.watermark == old(cursor).watermark
      ensures reply.Ok? && !reply.page.complete && !reply.page.running ==>
        cursor.job.value.1 > if Resumed(old(cursor), old(jobs)) then old(cursor).job.value.1 else 0
    {
      hide Good, Bad;
      var ok, sid, offset := OpenJob(w);
      if !ok {
        return Failed(PartialResponse);
      }
      ghost var resumed := Resumed(old(cursor), old(jobs));
      ghost var rows := jobs[sid];
      ghost var before, asideBefore := if resumed then taken else [], if resumed then aside else [];
      NothingRead(rows);
      assert before == Good(rows[..offset]) && asideBefore == Bad(rows[..offset]);
      if !w.done {
        if w.dies {
          return Failed(Died);
        }
        cursor := cursor.(job := Some((sid, offset)));
        snapshot, taken, aside := rows, before, asideBefore;
        return Ok(Page([], [], false, true));
      }
      var failure, good, rejected, end := Results(sid, offset, w, strict);
      if failure.Some? {
        return Failed(failure.value);
      }
      snapshot, taken, aside := rows, before + good, asideBefore + rejected;
      if end < |jobs[sid]| {
        cursor := cursor.(job := Some((sid, end)));
        return Ok(Page(good, rejected, false, false));
      }
      assert rows[..end] == rows;
      jobs := jobs - {sid};
      cursor := Cursor(cursor.window, false, None, Some(cursor.window.end));
      reply := Ok(Page(good, rejected, true, false));
    }
  }

  /** The job of the cursor still exists. */
  predicate Resumed(c: Cursor, jobs: map<Sid, seq<Row>>) {
    c.job.Some? && c.job.value.0 in jobs
  }

  datatype Event = Vanishes(sid: Sid) | Fetch(weather: Weather, strict: bool)

  /**
    However often jobs vanish, calls fail and the process dies, a window that completes has returned
    every row of one single job, each exactly once; in strict mode as they are and in order.
  */
  method ReadWindow(c: Connector, events: seq<Event>) returns (complete: bool)
    requires c.Valid() && c.cursor.continuing && c.cursor.job.None?
    modifies c
    ensures c.Valid() && c.cursor.window == old(c.cursor).window
    ensures complete <==> !c.cursor.continuing
    ensures complete ==> multiset(c.snapshot) == multiset(c.taken) + multiset(c.aside) && c.cursor.watermark == Some(c.cursor.window.end)
    ensures complete && (forall e :: e in events && e.Fetch? ==> e.strict) ==> c.taken == c.snapshot
  {
    var k := 0;
    ghost var strict := forall e :: e in events && e.Fetch? ==> e.strict;
    while k < |events| && c.cursor.continuing
      invariant 0 <= k <= |events| && c.Valid() && c.cursor.window == old(c.cursor).window
      invariant strict && c.cursor.job.Some? ==> c.aside == []
      invariant !c.cursor.continuing ==> c.taken == Good(c.snapshot) && c.aside == Bad(c.snapshot) && (strict ==> c.aside == [])
      invariant !c.cursor.continuing ==> c.cursor.watermark == Some(c.cursor.window.end)
    {
      assert events[k] in events;
      match events[k] {
        case Vanishes(sid) => c.Vanish(sid);
        case Fetch(w, s) => var _ := c.FetchPage(w, s);
      }
      k := k + 1;
    }
    complete := !c.cursor.continuing;
    if complete {
      NothingDropped(c.snapshot);
      NoneBad(c.snapshot);
      if strict {
        AllGood(c.snapshot);
      }
    }
  }
}
