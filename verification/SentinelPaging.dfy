/**
  Paging Sentinel by a composite (time, id) key inside frozen windows, and the cursors that join one
  window to the next.
*/
module SentinelPaging {
  datatype Option<T> = None | Some(value: T)

  // ---------------------------------------------------------------------------------------------
  // Times and keys
  // ---------------------------------------------------------------------------------------------

  type Digit = d: nat | d < 10

  /** A timestamp as the provider writes it: whole seconds and up to seven fractional digits. */
  datatype Time = Time(second: int, fraction: seq<Digit>)

  predicate WellFormed(t: Time) {
    |t.fraction| <= 7
  }

  function Power(n: nat): (p: nat)
    ensures p > 0
  {
    if n == 0 then 1 else 10 * Power(n - 1)
  }

  /** The digits read as a number, after padding with zeros on the right to `width`. */
  function Padded(digits: seq<Digit>, width: nat): nat
    requires |digits| <= width
  {
    if width == 0 then 0
    else if |digits| == width then 10 * Padded(digits[..width - 1], width - 1) + digits[width - 1]
    else 10 * Padded(digits, width - 1)
  }

  /** 100 ns ticks: the order-correct form of a timestamp. */
  function Ticks(t: Time): int
    requires WellFormed(t)
  {
    t.second * 10000000 + Padded(t.fraction, 7)
  }

  /** The digits read as a fraction of a second. */
  function Fraction(digits: seq<Digit>): real {
    if digits == [] then 0.0
    else Fraction(digits[..|digits| - 1]) + digits[|digits| - 1] as real / Power(|digits|) as real
  }

  /** The fraction shifted left by `width` digits. */
  function Shifted(digits: seq<Digit>, width: nat): real {
    Fraction(digits) * Power(width) as real
  }

  lemma ShiftedOnce(digits: seq<Digit>, width: nat)
    requires width > 0
    ensures Shifted(digits, width) == 10.0 * Shifted(digits, width - 1)
  {
    Tenfold(Fraction(digits), Power(width - 1) as real, Power(width) as real);
  }

  lemma ShiftedDigit(init: seq<Digit>, d: Digit)
    ensures Shifted(init + [d], |init| + 1) == Shifted(init, |init| + 1) + d as real
  {
    var digits := init + [d];
    assert digits[..|init|] == init;
    Quotient(Fraction(init), d as real, Power(|digits|) as real);
  }

  lemma Tenfold(f: real, p: real, q: real)
    requires q == 10.0 * p
    ensures f * q == 10.0 * (f * p)
  {
  }

  lemma Quotient(f: real, d: real, q: real)
    requires q > 0.0
    ensures (f + d / q) * q == f * q + d
  {
    assert (d / q) * q == d;
  }

  lemma {:induction false} PaddedIsFraction(digits: seq<Digit>, width: nat)
    requires |digits| <= width
    ensures Padded(digits, width) as real == Shifted(digits, width)
  {
    if width > 0 {
      if |digits| == width {
        var init, d := digits[..width - 1], digits[width - 1];
        assert digits == init + [d];
        PaddedIsFraction(init, width - 1);
        ShiftedOnce(init, width);
        ShiftedDigit(init, d);
        hide Shifted;
      } else {
        PaddedIsFraction(digits, width - 1);
        ShiftedOnce(digits, width);
        hide Shifted;
      }
    }
  }

  lemma Scaled(t: Time)
    requires WellFormed(t)
    ensures Ticks(t) as real == (t.second as real + Fraction(t.fraction)) * 10000000.0
  {
    PaddedIsFraction(t.fraction, 7);
    assert Power(7) == 10000000 by {
      assert Power(4) == 10000;
    }
    assert Shifted(t.fraction, 7) == Fraction(t.fraction) * 10000000.0;
    hide Padded, Fraction;
  }

  /** Comparing ticks compares the instants, however many digits each side was written with. */
  lemma TicksOrderInstants(s: Time, t: Time)
    requires WellFormed(s) && WellFormed(t)
    ensures Ticks(s) <= Ticks(t) <==> s.second as real + Fraction(s.fraction) <= t.second as real + Fraction(t.fraction)
  {
    var a, b := s.second as real + Fraction(s.fraction), t.second as real + Fraction(t.fraction);
    Scaled(s);
    Scaled(t);
  }

  /** One version of an alert; `id` stands for its id string, of which only the order matters. */
  datatype Row = Row(time: Time, id: int)

  datatype Key = Key(ticks: int, id: int)

  function KeyOf(r: Row): Key
    requires WellFormed(r.time)
  {
    Key(Ticks(r.time), r.id)
  }

  predicate Less(a: Key, b: Key) {
    a.ticks < b.ticks || (a.ticks == b.ticks && a.id < b.id)
  }

  // ---------------------------------------------------------------------------------------------
  // The query
  // ---------------------------------------------------------------------------------------------

  /** The table: no alert has two versions of one instant. */
  ghost predicate Table(rows: set<Row>) {
    && (forall r :: r in rows ==> WellFormed(r.time))
    && forall a, b :: a in rows && b in rows && KeyOf(a) == KeyOf(b) ==> a == b
  }

  datatype Window = Window(start: int, end: int)

  predicate Inside(r: Row, w: Window)
    requires WellFormed(r.time)
  {
    w.start <= Ticks(r.time) < w.end
  }

  /** The newest version of every alert that has one in the window. */
  ghost function View(rows: set<Row>, w: Window): set<Row>
    requires Table(rows)
  {
    set r | r in rows && w.start <= Ticks(r.time) < w.end
      && forall x :: x in rows && w.start <= Ticks(x.time) < w.end && x.id == r.id ==> Ticks(x.time) <= Ticks(r.time)
  }

  ghost function After(rows: set<Row>, seek: Option<Key>): set<Row>
    requires forall r :: r in rows ==> WellFormed(r.time)
  {
    set r | r in rows && (seek.Some? ==> Less(seek.value, KeyOf(r)))
  }

  /** Strictly increasing keys, all beyond `seek`. */
  predicate Advancing(page: seq<Row>, seek: Option<Key>)
    requires forall r :: r in page ==> WellFormed(r.time)
  {
    && (forall i, j :: 0 <= i < j < |page| ==> Less(KeyOf(page[i]), KeyOf(page[j])))
    && (seek.Some? ==> forall i :: 0 <= i < |page| ==> Less(seek.value, KeyOf(page[i])))
  }

  /** What the server owes: the first `limit` rows of the ordered answer. */
  ghost predicate Answers(matching: set<Row>, seek: Option<Key>, limit: nat, page: seq<Row>) {
    && (forall r :: r in page ==> r in matching && WellFormed(r.time))
    && (forall r :: r in matching ==> WellFormed(r.time))
    && Advancing(page, seek) && |page| <= limit
    && (|page| < limit ==> forall r :: r in matching ==> r in page)
    && forall r, p :: r in matching && r !in page && p in page ==> Less(KeyOf(p), KeyOf(r))
  }

  /** Some server that answers in the order of the query. */
  method Query(matching: set<Row>, seek: Option<Key>, limit: nat) returns (page: seq<Row>)
    requires (forall r :: r in matching ==> WellFormed(r.time) && (seek.Some? ==> Less(seek.value, KeyOf(r))))
    requires forall a, b :: a in matching && b in matching && KeyOf(a) == KeyOf(b) ==> a == b
    ensures Answers(matching, seek, limit, page)
  {
    page := [];
    var rest := matching;
    while rest != {} && |page| < limit
      invariant rest <= matching && |page| <= limit
      invariant forall r :: r in matching <==> r in rest || r in page
      invariant Advancing(page, seek)
      invariant forall r, p :: r in rest && p in page ==> Less(KeyOf(p), KeyOf(r))
      decreases |rest|
    {
      var r := First(rest);
      rest := rest - {r};
      page := page + [r];
    }
  }

  method First(rows: set<Row>) returns (r: Row)
    requires rows != {} && forall x :: x in rows ==> WellFormed(x.time)
    requires forall a, b :: a in rows && b in rows && KeyOf(a) == KeyOf(b) ==> a == b
    ensures r in rows && forall x :: x in rows && x != r ==> Less(KeyOf(r), KeyOf(x))
  {
    r :| r in rows;
    var left := rows - {r};
    while left != {}
      invariant left <= rows && r in rows
      invariant forall x :: x in rows && x !in left && x != r ==> Less(KeyOf(r), KeyOf(x))
      decreases |left|
    {
      var x :| x in left;
      left := left - {x};
      if Less(KeyOf(x), KeyOf(r)) {
        r := x;
      }
    }
  }

  /** Fail closed unless the page is strictly ordered and strictly beyond the seek key. */
  method RowsChecked(page: seq<Row>, seek: Option<Key>) returns (ok: bool)
    ensures ok <==> (forall r :: r in page ==> |r.time.fraction| <= 7) && Advancing(page, seek)
    ensures ok ==> forall i, j :: 0 <= i < j < |page| ==> Ticks(page[i].time) <= Ticks(page[j].time) && page[i] != page[j]
  {
    var previous := seek;
    for k := 0 to |page|
      invariant forall i :: 0 <= i < k ==> WellFormed(page[i].time)
      invariant forall i, j :: 0 <= i < j < k ==> Less(KeyOf(page[i]), KeyOf(page[j]))
      invariant seek.Some? ==> forall i :: 0 <= i < k ==> Less(seek.value, KeyOf(page[i]))
      invariant previous == if k == 0 then seek else Some(KeyOf(page[k - 1]))
    {
      if !WellFormed(page[k].time) {
        assert page[k] in page;
        return false;
      }
      if previous.Some? && !Less(previous.value, KeyOf(page[k])) {
        return false;
      }
      previous := Some(KeyOf(page[k]));
    }
    ok := true;
  }

  // ---------------------------------------------------------------------------------------------
  // Cursors and windows
  // ---------------------------------------------------------------------------------------------

  datatype Cursor =
    | NoCursor
    | Current(fp: int, window: Window, continuing: bool, last: Option<Key>, watermark: Option<int>)
    | Backfill(window: Window, continuing: bool, last: Option<Key>)
    | Legacy(end: int, continuing: bool, pageStart: Option<int>)

  datatype Scan = Scan(window: Window, continuing: bool) | ConfigChanged

  function ResolveWindow(c: Cursor, now: int, lookback: int, fp: int): Scan {
    match c
    case NoCursor => Scan(Window(now - lookback, now), false)
    case Backfill(w, continuing, _) => Scan(w, continuing)
    case Current(f, w, continuing, _, _) =>
      if f != fp then ConfigChanged
      else if continuing then Scan(w, true)
      else Scan(Window(w.end - lookback, now), false)
    case Legacy(end, continuing, pageStart) =>
      if continuing && pageStart.Some? then Scan(Window(pageStart.value - lookback, end), false)
      else Scan(Window(end - lookback, now), false)
  }

  /** Up to where the cursor says everything was read: at first, nothing before now. */
  function ReadUntil(c: Cursor, now: int): int {
    match c
    case NoCursor => now
    case Current(_, w, _, _, _) => w.end
    case Backfill(w, _, _) => w.end
    case Legacy(end, continuing, pageStart) => if continuing && pageStart.Some? then pageStart.value else end
  }

  /**
    A frozen window is read again as it is. Any other starts exactly the lookback before the point up to
    which everything was read, and ends now; a page left open by an old cursor ends where it did. Only a
    foreign fingerprint stops.
  */
  lemma WindowsOverlap(c: Cursor, now: int, lookback: nat, fp: int)
    ensures var s := ResolveWindow(c, now, lookback, fp);
      && (s.ConfigChanged? <==> c.Current? && c.fp != fp)
      && (s.Scan? ==>
        && (c.Backfill? || (c.Current? && c.continuing) ==> s.window == c.window && s.continuing == c.continuing)
        && (!(c.Backfill? || (c.Current? && c.continuing)) ==>
          && !s.continuing && s.window.start == ReadUntil(c, now) - lookback
          && s.window.end == if c.Legacy? && c.continuing && c.pageStart.Some? then c.end else now))
  {
  }

  // ---------------------------------------------------------------------------------------------
  // Draining one window
  // ---------------------------------------------------------------------------------------------

  /** Everything in the view up to the seek key is in `got`, and nothing else of it. */
  ghost predicate ReadUpTo(view: set<Row>, seek: Option<Key>, got: set<Row>)
    requires forall r :: r in view ==> WellFormed(r.time)
  {
    forall r :: r in view ==> (r in got <==> seek.Some? && !Less(seek.value, KeyOf(r)))
  }

  lemma ViewIsUnique(rows: set<Row>, w: Window)
    requires Table(rows)
    ensures View(rows, w) <= rows && forall r :: r in View(rows, w) ==> WellFormed(r.time)
    ensures forall a, b :: a in View(rows, w) && b in View(rows, w) && KeyOf(a) == KeyOf(b) ==> a == b
    ensures forall a, b :: a in View(rows, w) && b in View(rows, w) && a.id == b.id ==> a == b
  {
  }

  lemma PageReads(view: set<Row>, seek: Option<Key>, limit: nat, page: seq<Row>, got: set<Row>)
    requires (forall r :: r in view ==> WellFormed(r.time)) && ReadUpTo(view, seek, got)
    requires Answers(After(view, seek), seek, limit, page) && page != []
    ensures ReadUpTo(view, Some(KeyOf(page[|page| - 1])), got + (set r | r in page))
  {
    var last := page[|page| - 1];
    assert last in page;
    forall r | r in page ensures !Less(KeyOf(last), KeyOf(r)) {
      var i :| 0 <= i < |page| && page[i] == r;
      assert i < |page| - 1 ==> Less(KeyOf(page[i]), KeyOf(last));
    }
  }

  /** What has been read of a window so far, and the key to go on from. */
  ghost predicate Progress(view: set<Row>, seek: Option<Key>, out: seq<Row>) {
    && (forall r :: r in view ==> WellFormed(r.time)) && (forall r :: r in out ==> r in view)
    && ReadUpTo(view, seek, Elements(out)) && Advancing(out, None)
    && seek == if out == [] then None else Some(KeyOf(out[|out| - 1]))
  }

  function Elements(rows: seq<Row>): set<Row> {
    set r | r in rows
  }

  lemma ProgressMore(view: set<Row>, seek: Option<Key>, limit: nat, page: seq<Row>, out: seq<Row>)
    requires Progress(view, seek, out) && Answers(After(view, seek), seek, limit, page) && page != []
    ensures Progress(view, Some(KeyOf(page[|page| - 1])), out + page)
    ensures Elements(out) < Elements(out + page) <= view
  {
    AnswersFacts(After(view, seek), seek, limit, page);
    PageReads(view, seek, limit, page, Elements(out));
    Appended(view, out, page);
    assert Elements(out + page) == Elements(out) + (set r | r in page);
    assert page[0] in page;
    hide Answers, Advancing, ReadUpTo;
    NotYet(view, seek, out, page[0]);
  }

  lemma NotYet(view: set<Row>, seek: Option<Key>, out: seq<Row>, r: Row)
    requires Progress(view, seek, out) && r in After(view, seek)
    ensures r !in Elements(out)
  {
  }

  lemma ProgressDone(view: set<Row>, seek: Option<Key>, limit: nat, page: seq<Row>, out: seq<Row>)
    requires Progress(view, seek, out) && Answers(After(view, seek), seek, limit, page) && |page| < limit
    ensures Elements(out + page) == view && (forall r :: r in out + page ==> WellFormed(r.time)) && Advancing(out + page, None)
  {
    AnswersFacts(After(view, seek), seek, limit, page);
    Appended(view, out, page);
    hide Answers, Advancing;
    forall r | r in view ensures r in out + page {
      assert r in Elements(out) || r in After(view, seek);
    }
  }

  /** Page after page until the window completes: every row of the view once, in strict order of keys. */
  method DrainWindow(rows: set<Row>, w: Window, limit: nat) returns (out: seq<Row>)
    requires Table(rows) && limit >= 1
    ensures Elements(out) == View(rows, w)
    ensures (forall r :: r in out ==> WellFormed(r.time)) && Advancing(out, None)
    ensures forall i, j :: 0 <= i < j < |out| ==>
      Ticks(out[i].time) < Ticks(out[j].time) || (Ticks(out[i].time) == Ticks(out[j].time) && out[i].id < out[j].id)
  {
    ViewIsUnique(rows, w);
    ghost var view := View(rows, w);
    hide View, Table, Answers, Progress, After, Advancing;
    out := [];
    var seek := None;
    NoProgress(view);
    var page := QueryView(rows, w, seek, limit);
    while |page| >= limit
      invariant Progress(view, seek, out) && Answers(After(view, seek), seek, limit, page)
      decreases view - Elements(out)
    {
      ProgressMore(view, seek, limit, page, out);
      PageIsFormed(After(view, seek), seek, limit, page);
      seek := Some(KeyOf(page[|page| - 1]));
      out := out + page;
      page := QueryView(rows, w, seek, limit);
    }
    ProgressDone(view, seek, limit, page, out);
    out := out + page;
  }

  lemma NoProgress(view: set<Row>)
    requires forall r :: r in view ==> WellFormed(r.time)
    ensures Progress(view, None, [])
  {
  }

  lemma PageIsFormed(matching: set<Row>, seek: Option<Key>, limit: nat, page: seq<Row>)
    requires Answers(matching, seek, limit, page)
    ensures forall i :: 0 <= i < |page| ==> WellFormed(page[i].time)
  {
    assert forall i :: 0 <= i < |page| ==> page[i] in page;
  }

  method QueryView(rows: set<Row>, w: Window, seek: Option<Key>, limit: nat) returns (page: seq<Row>)
    requires Table(rows)
    ensures Answers(After(View(rows, w), seek), seek, limit, page)
  {
    ViewIsUnique(rows, w);
    var view := set r | r in rows && Inside(r, w) && forall x :: x in rows && Inside(x, w) && x.id == r.id ==> Ticks(x.time) <= Ticks(r.time);
    var matching := set r | r in view && (seek.Some? ==> Less(seek.value, KeyOf(r)));
    page := Query(matching, seek, limit);
  }

  lemma AnswersFacts(matching: set<Row>, seek: Option<Key>, limit: nat, page: seq<Row>)
    requires Answers(matching, seek, limit, page)
    ensures (forall r :: r in page ==> r in matching && WellFormed(r.time)) && Advancing(page, seek) && |page| <= limit
    ensures |page| < limit ==> forall r :: r in matching ==> r in page
  {
  }

  lemma Appended(view: set<Row>, out: seq<Row>, page: seq<Row>)
    requires forall r :: r in out + page ==> WellFormed(r.time)
    requires Advancing(out, None) && Advancing(page, if out == [] then None else Some(KeyOf(out[|out| - 1])))
    ensures Advancing(out + page, None)
  {
    var all := out + page;
    forall i, j | 0 <= i < j < |all| ensures Less(KeyOf(all[i]), KeyOf(all[j])) {
      if i < |out| <= j {
        assert Less(KeyOf(out[|out| - 1]), KeyOf(page[j - |out|]));
        assert i < |out| - 1 ==> Less(KeyOf(out[i]), KeyOf(out[|out| - 1]));
      }
    }
  }

  // ---------------------------------------------------------------------------------------------
  // A source over many windows
  // ---------------------------------------------------------------------------------------------

  ghost predicate Covered(drained: seq<Window>, t: int) {
    exists i :: 0 <= i < |drained| && drained[i].start <= t < drained[i].end
  }

  /** The drained windows leave no gap between the two times. */
  ghost predicate GapFree(drained: seq<Window>, from: int, until: int) {
    forall t :: from <= t < until ==> Covered(drained, t)
  }

  lemma OneMoreWindow(drained: seq<Window>, from: int, until: int, w: Window)
    requires GapFree(drained, from, until) && w.start <= until
    ensures GapFree(drained + [w], from, w.end)
  {
    var more := drained + [w];
    forall t | from <= t < w.end ensures Covered(more, t) {
      if t < until {
        assert Covered(drained, t);
        var i :| 0 <= i < |drained| && drained[i].start <= t < drained[i].end;
        assert more[i] == drained[i];
      } else {
        assert more[|drained|] == w;
      }
    }
  }

  ghost predicate AllRead(rows: set<Row>, drained: seq<Window>, delivered: set<Row>)
    requires Table(rows)
  {
    forall i :: 0 <= i < |drained| ==> View(rows, drained[i]) <= delivered
  }

  /** One live stream: the committed cursor, and what was committed with it. */
  class Worker {
    var cursor: Cursor
    /** Every row committed so far. */
    ghost var delivered: set<Row>
    /** The windows that were drained, and where the first one started. */
    ghost var drained: seq<Window>
    ghost var origin: int

    ghost predicate Valid(rows: set<Row>, fp: int)
      reads this
      requires Table(rows)
    {
      && AllRead(rows, drained, delivered)
      && match cursor
         case NoCursor => drained == []
         case Current(f, w, continuing, last, watermark) =>
           && f == fp
           && (watermark.None? ==> continuing && w.start == origin && drained == [])
           && (watermark.Some? ==> GapFree(drained, origin, watermark.value))
           && (continuing ==> last.Some? && ReadSoFar(View(rows, w), last.value, delivered) && (watermark.Some? ==> w.start <= watermark.value))
           && (!continuing ==> watermark == Some(w.end))
         case _ => false
    }

    constructor (rows: set<Row>, fp: int)
      requires Table(rows)
      ensures Valid(rows, fp) && cursor == NoCursor && delivered == {}
    {
      cursor := NoCursor;
      delivered, drained, origin := {}, [], 0;
    }

    /**
      One poll: the next page of the current window is fetched, checked and committed together with
      its cursor. A crash before the commit leaves everything as it was.
    */
    method Poll(rows: set<Row>, fp: int, now: int, lookback: nat, limit: nat, crash: bool) returns (complete: bool)
      requires Table(rows) && limit >= 1 && Valid(rows, fp)
      modifies this
      ensures Valid(rows, fp) && old(delivered) <= delivered <= old(delivered) + rows
      ensures crash ==> cursor == old(cursor) && delivered == old(delivered) && drained == old(drained)
      ensures !crash && complete ==> cursor.Current? && !cursor.continuing && drained == old(drained) + [cursor.window]
      ensures !crash && !complete ==> cursor.Current? && cursor.continuing && drained == old(drained)
      ensures !crash && old(cursor).Current? && old(cursor).continuing ==> cursor.window == old(cursor).window
      ensures !crash && old(cursor).Current? && !old(cursor).continuing ==> cursor.window == Window(old(cursor).window.end - lookback, now)
      ensures !crash && old(cursor).NoCursor? ==> cursor.window == Window(now - lookback, now) && origin == now - lookback
      ensures !crash ==> cursor.watermark == if complete then Some(cursor.window.end) else if old(cursor).Current? then old(cursor).watermark else None
      ensures !crash ==> delivered <= old(delivered) + View(rows, cursor.window)
      ensures !crash && complete ==> View(rows, cursor.window) <= delivered
      ensures crash || old(cursor).Current? ==> origin == old(origin)
    {
      var scan := ResolveWindow(cursor, now, lookback, fp);
      var w := scan.window;
      var seek := if cursor.Current? && cursor.continuing then cursor.last else None;
      var prior := if cursor.Current? then cursor.watermark else None;
      ViewIsUnique(rows, w);
      ghost var view := View(rows, w);
      hide Table, Answers, After, Advancing, View, AllRead, ReadSoFar, GapFree;
      var page := QueryView(rows, w, seek, limit);
      PageFacts(view, seek, limit, page);
      var ok := RowsChecked(page, seek);
      assert ok;
      complete := |page| < limit;
      if crash {
        return;
      }
      if cursor.NoCursor? {
        origin := w.start;
      }
      ghost var more := delivered + Elements(page);
      MoreRead(rows, drained, delivered, more);
      if complete {
        WindowIsRead(view, seek, limit, page, delivered);
        OneMoreRead(rows, drained, more, w);
        WindowJoins(drained, origin, prior, w);
        drained := drained + [w];
        cursor := Current(fp, w, false, None, Some(w.end));
      } else {
        ReadFurther(view, seek, limit, page, delivered);
        cursor := Current(fp, w, true, Some(KeyOf(page[|page| - 1])), prior);
      }
      delivered := more;
    }

    /** Nothing between the start of the first window and the watermark is lost: of every alert with a version there, one at least as new was committed. */
    lemma NothingIsLost(rows: set<Row>, fp: int, r: Row) returns (newest: Row)
      requires Table(rows) && Valid(rows, fp) && r in rows
      requires cursor.Current? && cursor.watermark.Some? && origin <= Ticks(r.time) < cursor.watermark.value
      ensures WellFormed(newest.time) && newest in delivered && newest.id == r.id && Ticks(newest.time) >= Ticks(r.time)
    {
      assert Covered(drained, Ticks(r.time));
      var i :| 0 <= i < |drained| && drained[i].start <= Ticks(r.time) < drained[i].end;
      newest := NewestVersion(rows, rows, drained[i], r);
      assert newest in View(rows, drained[i]);
    }
  }

  /** The first poll that was not cut off by a crash. */
  predicate FirstCommitted(polls: seq<(int, bool)>, k: int) {
    0 <= k < |polls| && !polls[k].1 && forall j :: 0 <= j < k ==> polls[j].1
  }

  /** Any run of polls, each at some time and perhaps cut off by a crash, covers one gap-free interval up to the watermark. */
  method PollAll(rows: set<Row>, fp: int, polls: seq<(int, bool)>, lookback: nat, limit: nat) returns (w: Worker)
    requires Table(rows) && limit >= 1
    ensures w.Valid(rows, fp) && w.delivered <= rows && AllRead(rows, w.drained, w.delivered)
    ensures w.cursor.Current? && w.cursor.watermark.Some? ==> GapFree(w.drained, w.origin, w.cursor.watermark.value)
    ensures w.cursor.Current? ==> exists k :: FirstCommitted(polls, k) && w.origin == polls[k].0 - lookback
    ensures w.cursor.NoCursor? ==> forall k :: 0 <= k < |polls| ==> polls[k].1
  {
    hide Table, AllRead, GapFree;
    w := new Worker(rows, fp);
    for k := 0 to |polls|
      invariant fresh(w) && w.Valid(rows, fp) && w.delivered <= rows
      invariant w.cursor.Current? ==> exists j :: j < k && FirstCommitted(polls, j) && w.origin == polls[j].0 - lookback
      invariant w.cursor.NoCursor? ==> forall j :: 0 <= j < k ==> polls[j].1
    {
      assert w.cursor.NoCursor? && !polls[k].1 ==> FirstCommitted(polls, k);
      var _ := w.Poll(rows, fp, polls[k].0, lookback, limit, polls[k].1);
    }
  }

  ghost predicate ReadSoFar(view: set<Row>, last: Key, delivered: set<Row>)
    requires forall r :: r in view ==> WellFormed(r.time)
  {
    forall r :: r in view && !Less(last, KeyOf(r)) ==> r in delivered
  }

  lemma PageFacts(view: set<Row>, seek: Option<Key>, limit: nat, page: seq<Row>)
    requires (forall r :: r in view ==> WellFormed(r.time)) && Answers(After(view, seek), seek, limit, page)
    ensures (forall r :: r in page ==> WellFormed(r.time) && r in view) && Advancing(page, seek) && |page| <= limit
    ensures forall i :: 0 <= i < |page| ==> WellFormed(page[i].time)
    ensures Elements(page) <= view
  {
    assert forall i :: 0 <= i < |page| ==> page[i] in page;
  }

  lemma MoreRead(rows: set<Row>, drained: seq<Window>, delivered: set<Row>, more: set<Row>)
    requires Table(rows) && AllRead(rows, drained, delivered) && delivered <= more
    ensures AllRead(rows, drained, more)
  {
    hide View;
  }

  lemma OneMoreRead(rows: set<Row>, drained: seq<Window>, delivered: set<Row>, w: Window)
    requires Table(rows) && AllRead(rows, drained, delivered) && View(rows, w) <= delivered
    ensures AllRead(rows, drained + [w], delivered)
  {
    hide View;
  }

  lemma WindowJoins(drained: seq<Window>, origin: int, prior: Option<int>, w: Window)
    requires if prior.Some? then GapFree(drained, origin, prior.value) && w.start <= prior.value else w.start == origin && drained == []
    ensures GapFree(drained + [w], origin, w.end)
  {
    OneMoreWindow(drained, origin, if prior.Some? then prior.value else w.start, w);
  }

  lemma WindowIsRead(view: set<Row>, seek: Option<Key>, limit: nat, page: seq<Row>, delivered: set<Row>)
    requires (forall r :: r in view ==> WellFormed(r.time)) && Answers(After(view, seek), seek, limit, page) && |page| < limit
    requires seek.Some? ==> ReadSoFar(view, seek.value, delivered)
    ensures view <= delivered + Elements(page)
  {
    forall r | r in view ensures r in delivered + Elements(page) {
      assert r in After(view, seek) ==> r in page;
    }
  }

  lemma ReadFurther(view: set<Row>, seek: Option<Key>, limit: nat, page: seq<Row>, delivered: set<Row>)
    requires (forall r :: r in view ==> WellFormed(r.time)) && Answers(After(view, seek), seek, limit, page) && page != []
    requires seek.Some? ==> ReadSoFar(view, seek.value, delivered)
    ensures WellFormed(page[|page| - 1].time) && ReadSoFar(view, KeyOf(page[|page| - 1]), delivered + Elements(page))
  {
    var last := page[|page| - 1];
    assert last in page;
    forall r | r in view && !Less(KeyOf(last), KeyOf(r)) ensures r in delivered + Elements(page) {
      assert r in After(view, seek) ==> r in page;
    }
  }

  /** The newest version in the window of the alert of `r`, among some of the rows. */
  lemma NewestVersion(rows: set<Row>, among: set<Row>, w: Window, r: Row) returns (newest: Row)
    requires Table(rows) && among <= rows && r in rows && Inside(r, w)
    ensures newest in rows && newest.id == r.id && Inside(newest, w) && Ticks(newest.time) >= Ticks(r.time)
    ensures forall x :: x in among && Inside(x, w) && x.id == r.id ==> Ticks(x.time) <= Ticks(newest.time)
    decreases among
  {
    if among == {} {
      newest := r;
    } else {
      var x :| x in among;
      newest := NewestVersion(rows, among - {x}, w, r);
      if Inside(x, w) && x.id == r.id && Ticks(newest.time) < Ticks(x.time) {
        newest := x;
      }
    }
  }
}
