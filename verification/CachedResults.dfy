/**
  CachedResult: a scrollable cache over a forward source.

  `View` is what a client can tell apart: the rows that have been fetched with those
  that the source still has, how many have been fetched, and where the cache stands.
  Every method is a function of the view.  The theorems say that the cache agrees with
  direct indexing of these rows, whatever was called before.
*/
module CachedResults {
  import opened RecordSets

  const ROWSET_SIZE := 100

  // ----- specification ---------------------------------------------------------------------------

  /** `cursor` is the number of the row the cache stands on, from 1 up; 0 when it has not been positioned. */
  datatype View<V> = View(all: seq<seq<V>>, fetched: nat, attached: bool, current: nat, cursor: nat)

  /** Aborted stands for a failed assertion. */
  datatype Answer = Yes | No | Aborted

  /** What holds of every open result. */
  predicate ViewOk<V>(v: View<V>) {
    && v.cursor <= v.fetched <= |v.all|
    && (v.cursor > 0 ==> v.current == 0 || v.current == v.cursor)
  }

  function Min(m: nat, n: nat): nat {
    if m < n then m else n
  }

  /** Fetch until there are k rows, or no more. */
  function FetchTo<V>(v: View<V>, k: nat): View<V>
    requires ViewOk(v)
  {
    if v.attached && k > v.fetched then v.(fetched := Min(k, |v.all|)) else v
  }

  /** Fetching row by row comes to the same, and what setpos then does. */
  lemma Fetched<V>(v: View<V>, w: View<V>, row: nat)
    requires ViewOk(v) && ViewOk(w) && w == v.(fetched := w.fetched)
    requires v.fetched <= w.fetched && (w.fetched == v.fetched || (v.attached && w.fetched <= row))
    requires v.attached ==> row <= w.fetched || w.fetched == |v.all|
    ensures w == FetchTo(v, row)
    ensures SetPosView(v, row) ==
            if row > w.fetched then (No, w)
            else if row == 0 then (if w.cursor > 0 then (Yes, w.(current := 0)) else (Aborted, w))
            else (Yes, w.(current := row, cursor := row))
  {
  }

  function SetPosView<V>(v: View<V>, row: nat): (Answer, View<V>)
    requires ViewOk(v)
  {
    var w := FetchTo(v, row);
    if row > w.fetched then (No, w)
    else if row == 0 then (if w.cursor > 0 then (Yes, w.(current := 0)) else (Aborted, w))
    else (Yes, w.(current := row, cursor := row))
  }

  function PrevView<V>(v: View<V>): (Answer, View<V>)
    requires ViewOk(v)
  {
    if v.current <= 1 then (No, v)
    else if v.current - 1 > v.fetched then (Aborted, v)
    else (Yes, v.(current := v.current - 1, cursor := v.current - 1))
  }

  function LastView<V>(v: View<V>): (Answer, View<V>)
    requires ViewOk(v)
  {
    var w := FetchTo(v, |v.all|);
    if w.fetched > 0 then (Yes, w.(current := w.fetched, cursor := w.fetched)) else (No, w)
  }

  function ColumnView<V>(v: View<V>, num: nat): Result<V>
    requires ViewOk(v)
  {
    if v.cursor > 0 && 1 <= num <= |v.all[v.cursor - 1]| then Ok(v.all[v.cursor - 1][num - 1]) else Exception
  }

  // ----- runs ------------------------------------------------------------------------------------------

  /** An open result can be attached to a source again: `rows` are those from the source's position on. */
  datatype Call<V> =
    SetPos(row: nat) | Next | Prev | Last | FetchMore | FetchAll | Detach | Attach(rows: seq<seq<V>>)

  function Do<V>(v: View<V>, call: Call<V>): (Answer, View<V>)
    requires ViewOk(v)
  {
    match call
    case SetPos(row) => SetPosView(v, row)
    case Next => SetPosView(v, v.current + 1)
    case Prev => PrevView(v)
    case Last => LastView(v)
    case FetchMore => (Yes, FetchTo(v, v.fetched + ROWSET_SIZE))
    case FetchAll => if v.attached then (Yes, FetchTo(v, |v.all|)) else (No, v)
    case Detach => (Yes, v.(attached := false))
    case Attach(rows) => (Yes, v.(all := v.all[..v.fetched] + rows, attached := true))
  }

  /** The rows in the cache. */
  function Cache<V>(v: View<V>): seq<seq<V>>
    requires ViewOk(v)
  {
    v.all[..v.fetched]
  }

  lemma DoKeeps<V>(v: View<V>, call: Call<V>)
    requires ViewOk(v)
    ensures var w := Do(v, call).1;
            && ViewOk(w) && Cache(v) <= Cache(w) && (!call.Attach? ==> w.all == v.all)
            && (!call.Detach? && !call.Attach? ==> w.attached == v.attached)
            && (w.attached ==> v.attached || call.Attach?)
            && (v.current <= v.fetched ==> w.current <= w.fetched)
  {
    hide Cache;
    DoGrows(v, call);
    var w := Do(v, call).1;
    if call.Attach? {
      assert Cache(w) == Cache(v) by { SameCache(v, w); }
    } else {
      MoreOfTheSame(v, w);
    }
  }

  lemma DoGrows<V>(v: View<V>, call: Call<V>)
    requires ViewOk(v)
    ensures var w := Do(v, call).1;
            && ViewOk(w) && v.fetched <= w.fetched && (!call.Attach? ==> w.all == v.all)
  {
  }

  lemma MoreOfTheSame<V>(v: View<V>, w: View<V>)
    requires ViewOk(v) && ViewOk(w) && w.all == v.all && v.fetched <= w.fetched
    ensures Cache(v) <= Cache(w)
  {
  }

  lemma SameCache<V>(v: View<V>, w: View<V>)
    requires ViewOk(v) && ViewOk(w) && w.fetched == v.fetched && w.all[..v.fetched] == v.all[..v.fetched]
    ensures Cache(w) == Cache(v)
  {
  }

  function After<V>(v: View<V>, calls: seq<Call<V>>): (w: View<V>)
    requires ViewOk(v)
    ensures ViewOk(w)
  {
    if |calls| == 0 then v
    else
      DoKeeps(After(v, calls[..|calls| - 1]), calls[|calls| - 1]);
      Do(After(v, calls[..|calls| - 1]), calls[|calls| - 1]).1
  }

  /** The source is not replaced. */
  predicate OneSource<V>(calls: seq<Call<V>>) {
    forall i :: 0 <= i < |calls| ==> !calls[i].Attach?
  }

  /**
    In every run the cache only grows, while its source is not replaced the rows stay
    those of the source, and if the current row is one of the fetched ones, it stays so.
  */
  lemma {:induction false} RunKeeps<V>(v: View<V>, calls: seq<Call<V>>)
    requires ViewOk(v)
    ensures var w := After(v, calls);
            && Cache(v) <= Cache(w) && (OneSource(calls) ==> w.all == v.all)
            && (v.current <= v.fetched ==> w.current <= w.fetched)
            && (v.attached && Detach !in calls ==> w.attached)
  {
    if |calls| > 0 {
      var n := |calls| - 1;
      RunKeeps(v, calls[..n]);
      DoKeeps(After(v, calls[..n]), calls[n]);
    }
  }

  /**
    Agreement with direct indexing: after any calls, setpos to a row number from 1 up
    succeeds if and only if that row is in the cache or the source still has it (for a
    detached cache: is in the cache), and then every column is that row's value.  A row
    that was in the cache before the calls is the same row, and while the source is not
    replaced every row is.
  */
  lemma SetPosAgrees<V>(v: View<V>, calls: seq<Call<V>>, row: nat, num: nat)
    requires ViewOk(v) && row >= 1
    ensures var w := After(v, calls);
            var (answer, u) := SetPosView(w, row);
            && (answer == Yes <==> if w.attached then row <= |w.all| else row <= w.fetched)
            && (answer == Yes ==>
                  && ViewOk(u) && row <= |w.all|
                  && (1 <= num <= |w.all[row - 1]| ==> ColumnView(u, num) == Ok(w.all[row - 1][num - 1])))
            && (row <= v.fetched ==> row <= |w.all| && w.all[row - 1] == v.all[row - 1])
            && (OneSource(calls) ==> w.all == v.all)
  {
    hide After, Cache;
    RunKeeps(v, calls);
    SameRow(v, After(v, calls), row);
  }

  lemma SameRow<V>(v: View<V>, w: View<V>, row: nat)
    requires ViewOk(v) && ViewOk(w) && Cache(v) <= Cache(w) && row >= 1
    ensures row <= v.fetched ==> row <= |w.all| && w.all[row - 1] == v.all[row - 1]
  {
    if row <= v.fetched { assert Cache(w)[row - 1] == Cache(v)[row - 1]; }
  }

  /**
    Attaching another source to an open result: whatever is called then, the cache stays
    a part of the first source, from its beginning, if and only if the rows of the new
    source go on where the cache ends.
  */
  lemma AttachKeepsSourceIff<V>(v: View<V>, rows: seq<seq<V>>)
    requires ViewOk(v)
    ensures ViewOk(Do(v, Attach(rows)).1)
    ensures (forall calls :: OneSource(calls) ==> Cache(After(Do(v, Attach(rows)).1, calls)) <= v.all) <==>
            rows <= v.all[v.fetched..]
  {
    var w := Do(v, Attach(rows)).1;
    DoKeeps(v, Attach(rows));
    if rows <= v.all[v.fetched..] {
      forall calls | OneSource(calls) ensures Cache(After(w, calls)) <= v.all { RunKeeps(w, calls); }
    } else {
      var calls := [Call<V>.FetchAll];
      assert After(w, calls[..0]) == w;
      assert Cache(After(w, calls)) == w.all;
      AppendedPrefix(v.all, v.fetched, rows);
    }
  }

  /** What a client can reach: the rows that are cached, and while there is a source, those that it still has. */
  function Reachable<V>(w: View<V>): seq<seq<V>>
    requires ViewOk(w)
  {
    if w.attached then w.all else Cache(w)
  }

  /**
    After any calls, last succeeds if and only if there is a row to reach; then every
    column is that of the last one, and next refuses.  Otherwise nothing changes.
  */
  lemma LastAgrees<V>(v: View<V>, calls: seq<Call<V>>, num: nat)
    requires ViewOk(v)
    ensures var w := After(v, calls);
            var (answer, u) := Do(w, Last);
            var rows := Reachable(w);
            && (answer == Yes <==> rows != []) && (answer == No <==> rows == []) && (answer == No ==> u == w)
            && (answer == Yes ==>
                  && ViewOk(u) && Do(u, Next).0 == No && u.all == w.all
                  && ColumnView(u, num) ==
                       if 1 <= num <= |rows[|rows| - 1]| then Ok(rows[|rows| - 1][num - 1]) else Exception)
  {
    hide After, Do, Reachable, ColumnView;
    LastOf(After(v, calls));
    LastColumn(After(v, calls), num);
  }

  lemma LastOf<V>(w: View<V>)
    requires ViewOk(w)
    ensures var (answer, u) := Do(w, Last);
            var rows := Reachable(w);
            && (answer == Yes <==> rows != []) && (answer == No <==> rows == []) && (answer == No ==> u == w)
            && (answer == Yes ==> ViewOk(u) && Do(u, Next).0 == No && u.all == w.all)
  {
  }

  lemma LastColumn<V>(w: View<V>, num: nat)
    requires ViewOk(w)
    ensures var (answer, u) := Do(w, Last);
            var rows := Reachable(w);
            answer == Yes && rows != [] ==>
              && ViewOk(u)
              && ColumnView(u, num) ==
                   if 1 <= num <= |rows[|rows| - 1]| then Ok(rows[|rows| - 1][num - 1]) else Exception
  {
  }

  /**
    Setpos fetches no more rows than it needs.  It moves to the row asked for; a refused
    one leaves the position, with all rows fetched; row 0 leaves the row, but makes next
    go to the first one.
  */
  lemma SetPosFetches<V>(v: View<V>, row: nat)
    requires ViewOk(v)
    ensures var (answer, u) := Do(v, SetPos(row));
            && ViewOk(u) && u.all == v.all && u.attached == v.attached
            && (row <= v.fetched || !v.attached ==> u.fetched == v.fetched)
            && (row > v.fetched && v.attached ==> u.fetched == if row <= |v.all| then row else |v.all|)
            && (answer == Yes && row > 0 ==> u.current == u.cursor == row)
            && (answer == No ==> u.current == v.current && u.cursor == v.cursor && Cache(u) == Reachable(v))
            && (answer == Yes && row == 0 ==>
                  u.cursor == v.cursor && (v.all != [] ==> Do(u, Next).0 == Yes && Do(u, Next).1.cursor == 1))
  {
  }

  /** Prev refuses on the first row and before it; from another row it goes one row back, and next returns to it. */
  lemma PrevAgrees<V>(v: View<V>, num: nat)
    requires ViewOk(v)
    ensures v.current <= 1 ==> Do(v, Prev) == (No, v)
    ensures 2 <= v.current <= v.fetched + 1 ==>
              var (answer, u) := Do(v, Prev);
              && answer == Yes && ViewOk(u) && u.all == v.all && u.fetched == v.fetched
              && ColumnView(u, num) ==
                   (if 1 <= num <= |v.all[v.current - 2]| then Ok(v.all[v.current - 2][num - 1]) else Exception)
              && (v.current <= v.fetched ==> Do(u, Next).0 == Yes && Do(u, Next).1.cursor == v.current)
  {
  }

  /** Fetching keeps the position: a hundred more rows, or all of them, as far as there are any. */
  lemma FetchAgrees<V>(v: View<V>)
    requires ViewOk(v)
    ensures var u := Do(v, Call<V>.FetchMore).1;
            && ViewOk(u) && u == v.(fetched := u.fetched)
            && (v.attached ==> u.fetched == if v.fetched + 100 <= |v.all| then v.fetched + 100 else |v.all|)
            && (!v.attached ==> u.fetched == v.fetched)
    ensures var (answer, u) := Do(v, Call<V>.FetchAll);
            && ViewOk(u) && u == v.(fetched := u.fetched) && Cache(u) == Reachable(v)
            && (answer == Yes <==> v.attached) && (answer == No <==> !v.attached)
  {
  }

  /** Detach gives up the source and keeps the rest: until another source is attached nothing more is fetched. */
  lemma DetachedStays<V>(v: View<V>, calls: seq<Call<V>>)
    requires ViewOk(v) && OneSource(calls)
    ensures var u := Do(v, Call<V>.Detach).1;
            && ViewOk(u) && !u.attached && Cache(u) == Cache(v) && u.current == v.current && u.cursor == v.cursor
            && !After(u, calls).attached && Cache(After(u, calls)) == Cache(v)
  {
    hide After;
    DetachedRun(Do(v, Call<V>.Detach).1, calls);
  }

  lemma {:induction false} DetachedRun<V>(u: View<V>, calls: seq<Call<V>>)
    requires ViewOk(u) && !u.attached && OneSource(calls)
    ensures var w := After(u, calls); !w.attached && w.all == u.all && w.fetched == u.fetched
  {
    hide Do;
    if |calls| > 0 {
      var n := |calls| - 1;
      DetachedRun(u, calls[..n]);
      assert !calls[n].Attach?;
      DetachedOnce(After(u, calls[..n]), calls[n]);
    }
  }

  lemma DetachedOnce<V>(v: View<V>, call: Call<V>)
    requires ViewOk(v) && !v.attached && !call.Attach?
    ensures var w := Do(v, call).1; !w.attached && w.all == v.all && w.fetched == v.fetched
  {
  }

  /** No run on a fresh result fails an assertion, unless it asks for row 0 before there is a position. */
  lemma RunNeverAborts<V>(v: View<V>, calls: seq<Call<V>>, call: Call<V>)
    requires ViewOk(v) && v.current <= v.fetched
    ensures Do(After(v, calls), call).0 == Aborted <==> call == SetPos(0) && After(v, calls).cursor == 0
  {
    RunKeeps(v, calls);
  }

  /** Stepping back undoes stepping on. */
  lemma PrevUndoesNext<V>(v: View<V>)
    requires ViewOk(v) && v.cursor > 0 && v.current > 0
    ensures Do(v, Next).0 == Yes ==>
      Do(Do(v, Next).1, Prev) == (Yes, Do(v, Next).1.(current := v.current, cursor := v.cursor))
  {
  }

  // ----- results that are opened again --------------------------------------------------------------

  ghost predicate PrevAborts<V>(v: View<V>, calls: seq<Call<V>>)
    requires ViewOk(v)
  {
    Do(After(v, calls), Prev).0 == Aborted
  }

  /**
    The number of the current row survives close, while the rows are gone.  Some run can
    make prev fail its assertion if and only if the number is more than one beyond the
    fetched rows.
  */
  lemma PrevCanAbortIff<V>(v: View<V>)
    requires ViewOk(v)
    ensures (exists calls: seq<Call<V>> :: PrevAborts(v, calls)) <==> v.current > v.fetched + 1
  {
    if v.current > v.fetched + 1 {
      assert PrevAborts(v, []);
    } else {
      forall calls: seq<Call<V>> ensures !PrevAborts(v, calls) { NearbyStays(v, calls); }
    }
  }

  lemma {:induction false} NearbyStays<V>(v: View<V>, calls: seq<Call<V>>)
    requires ViewOk(v) && v.current <= v.fetched + 1
    ensures After(v, calls).current <= After(v, calls).fetched + 1
  {
    if |calls| > 0 {
      NearbyStays(v, calls[..|calls| - 1]);
      NearbyStaysOnce(After(v, calls[..|calls| - 1]), calls[|calls| - 1]);
    }
  }

  lemma NearbyStaysOnce<V>(v: View<V>, call: Call<V>)
    requires ViewOk(v) && v.current <= v.fetched + 1
    ensures Do(v, call).1.current <= Do(v, call).1.fetched + 1
  {
  }

  /** Stepping on k times. */
  function Steps<V>(k: nat): seq<Call<V>> {
    seq(k, _ => Next)
  }

  lemma {:induction false} StepsGo<V>(v: View<V>, k: nat)
    requires ViewOk(v) && v.attached && k > 0 && v.current + k <= |v.all|
    ensures var w := After(v, Steps(k));
            w.attached && w.all == v.all && w.current == v.current + k && w.cursor == v.current + k
  {
    assert Steps<V>(k)[..k - 1] == Steps(k - 1);
    if k > 1 { StepsGo(v, k - 1); }
  }

  /**
    A scan of an opened result with Next meets row after row from the first one on, if
    and only if the number of the current row is 0.  On a result that was positioned
    before it was closed, that many rows are skipped.
  */
  lemma ScanSeesAllIff<V>(v: View<V>)
    requires ViewOk(v) && v.attached && v.cursor == 0 && |v.all| > 0
    ensures (forall k :: 1 <= k <= |v.all| ==> After(v, Steps(k)).cursor == k) <==> v.current == 0
  {
    if v.current == 0 {
      forall k | 1 <= k <= |v.all| ensures After(v, Steps(k)).cursor == k { StepsGo(v, k); }
    } else {
      assert Steps<V>(1)[..0] == [];
      assert After(v, Steps(1)) == Do(v, Next).1;
      assert After(v, Steps(1)).cursor != 1;
    }
  }

  lemma AppendedPrefix<T>(s: seq<T>, k: nat, t: seq<T>)
    requires k <= |s|
    ensures s[..k] + t <= s ==> t <= s[k..]
  {
    assert (s[..k] + t)[k..] == t;
  }

  // ----- the class --------------------------------------------------------------------------------------

  class CachedResult<V> {
    var m_source: RecordSet?<V>
    const m_rscache: RecordSet<V>
    var m_current_row: nat
    ghost var all: seq<seq<V>>   // the rows that have been copied, and those that the source still has

    ghost function Parts(): set<object>
      reads this
    {
      {this, m_rscache} + if m_source != null then {m_source} else {}
    }

    /** The source is positioned on the first row that has not been copied. */
    ghost predicate SourceOk()
      reads this, m_rscache, m_source
    {
      m_source != null ==>
        && m_source != m_rscache && m_source.Valid() && m_source.m_cursorstate in {7, 15}
        && m_source.m_count == m_rscache.m_count > 0
        && m_source.m_cursor <= |m_source.m_records| && |m_rscache.m_records| <= |all|
        && m_source.m_records[m_source.m_cursor..] == all[|m_rscache.m_records|..]
        && (m_source.m_cursorstate == 15 <==> m_source.m_cursor == |m_source.m_records|)
    }

    /** An open result. */
    ghost predicate Valid()
      reads this, m_rscache, m_source
    {
      && m_rscache.Valid() && m_rscache.m_cursorstate in {3, 7}
      && m_rscache.m_records <= all && SourceOk()
      && (m_rscache.m_cursorstate == 7 ==> m_current_row == 0 || m_current_row == m_rscache.m_cursor + 1)
    }

    ghost function Contents(): View<V>
      requires Valid()
      reads this, m_rscache, m_source
    {
      View(all, |m_rscache.m_records|, m_source != null, m_current_row,
           if m_rscache.m_cursorstate == 7 then m_rscache.m_cursor + 1 else 0)
    }

    constructor ()
      ensures m_source == null && m_current_row == 0 && fresh(m_rscache)
      ensures m_rscache.Valid() && m_rscache.m_cursorstate == 0 && m_rscache.m_records == [] && m_rscache.m_count == 0
    {
      m_source, m_current_row, all := null, 0, [];
      m_rscache := new RecordSet();
    }

    /** An open result can go on from the source: it is positioned, and has the columns of the cache. */
    ghost predicate Attachable(source: RecordSet<V>)
      reads this, m_rscache, source
    {
      && source != m_rscache && source.Valid() && source.m_cursorstate in {7, 15}
      && source.m_count == m_rscache.m_count > 0 && source.m_cursor <= |source.m_records|
      && (source.m_cursorstate == 15 <==> source.m_cursor == |source.m_records|)
    }

    /** Set the source.  The rows in the cache stay, and an open result goes on if and only if it can. */
    method Attach(source: RecordSet<V>)
      modifies this`m_source, this`all
      ensures m_source == source
      ensures old(Valid()) ==> (Valid() <==> Attachable(source))
      ensures old(Valid()) && Valid() ==>
                && ViewOk(old(Contents())) && source.m_cursor <= |source.m_records|
                && Contents() == Do(old(Contents()), Call.Attach(source.m_records[source.m_cursor..])).1
    {
      ghost var copied := m_rscache.m_records;
      if Valid() && Attachable(source) {
        IsViewOk();
        assert copied == all[..|copied|];
        all := copied + source.m_records[source.m_cursor..];
      }
      m_source := source;
    }

    /**
      Open a closed result on its source; an open one stays as it is.  Without a source
      there is an exception (No), and a source without columns fails an assertion.
    */
    method Open() returns (answer: Answer)
      requires m_rscache.Valid()
      requires m_rscache.m_cursorstate != 0 ==> Valid()
      requires m_rscache.m_cursorstate == 0 ==> m_rscache.m_records == []
      requires m_rscache.m_cursorstate == 0 && m_source != null ==>
        && m_source != m_rscache && m_source.Valid()
        && (m_source.m_cursorstate == 15 ==> m_source.m_cursor == |m_source.m_records|)
      modifies Parts()
      ensures m_source == old(m_source) && m_current_row == old(m_current_row)
      ensures old(m_rscache.m_cursorstate) != 0 ==> answer == Yes && Valid() && Contents() == old(Contents())
      ensures old(m_rscache.m_cursorstate) == 0 ==>
        && (answer == No <==> m_source == null)
        && (answer == Aborted <==> m_source != null && old(m_source.m_count) == 0)
        && (answer == Yes ==>
              && Valid() && Contents().fetched == 0 && Contents().cursor == 0
              && m_source.m_records == old(m_source.m_records)
              && var p := if old(m_source.IsPositioned()) then old(m_source.m_cursor) else 0;
                 p <= |m_source.m_records| && all == m_source.m_records[p..])
    {
      m_rscache.Flags();
      if m_rscache.IsOpen() { return Yes; }
      if m_source == null { return No; }
      m_rscache.Open();
      m_source.Flags();
      if !m_source.IsPositioned() { m_source.First(); }
      if m_source.m_count == 0 { return Aborted; }
      m_rscache.SetColumnCount(m_source.m_count);
      all := m_source.m_records[m_source.m_cursor..];
      return Yes;
    }

    method Close()
      requires m_rscache.Valid()
      modifies this, m_rscache
      ensures m_source == null && m_current_row == old(m_current_row)
      ensures m_rscache.Valid() && m_rscache.m_cursorstate == 0 && m_rscache.m_records == []
    {
      m_source := null;
      m_rscache.Reset();
    }

    /** copyRecord: append the source's current row to the cache. */
    method CopyRecord()
      requires Valid() && m_source != null && m_source.m_cursorstate == 7
      modifies m_rscache`m_records, m_rscache`m_count
      ensures m_rscache.Valid() && m_rscache.m_count == old(m_rscache.m_count)
      ensures m_rscache.m_records == old(m_rscache.m_records) + [m_source.m_records[m_source.m_cursor]]
    {
      var rec: seq<V> := [];
      for i := 1 to m_source.m_count + 1
        invariant m_rscache.m_records == old(m_rscache.m_records) && m_rscache.m_count == old(m_rscache.m_count)
        invariant |rec| == i - 1 && forall k :: 0 <= k < i - 1 ==> rec[k] == m_source.m_records[m_source.m_cursor][k]
      {
        var c := m_source.Column(i);
        rec := rec + [c.value];
      }
      assert rec == m_source.m_records[m_source.m_cursor];
      var r := m_rscache.Insert(rec);
    }

    /** Copy one row and step the source. */
    method Fetch()
      requires Valid() && m_source != null && m_source.m_cursorstate == 7
      modifies m_rscache`m_records, m_rscache`m_count, m_source`m_cursor, m_source`m_cursorstate
      ensures Valid() && Contents() == old(Contents()).(fetched := old(Contents()).fetched + 1)
      ensures m_source.m_cursorstate == 15 <==> Contents().fetched == |all|
    {
      m_source.Flags();
      ghost var k := |m_rscache.m_records|;
      assert m_source.m_records[m_source.m_cursor] == all[k];
      CopyRecord();
      assert m_rscache.m_records == all[..k + 1];
      var more := m_source.Next();
    }

    /** At the end of the source there is nothing left to fetch, and only there. */
    lemma EofMeansAll()
      requires Valid() && m_source != null
      ensures m_source.AtEof() <==> Contents().fetched == |all|
      ensures m_source.m_cursorstate == 7 <==> !m_source.AtEof()
      ensures ViewOk(Contents())
    {
      m_source.Flags();
    }

    lemma IsViewOk()
      requires Valid()
      ensures ViewOk(Contents())
    {
    }

    method SetPos(row: nat) returns (answer: Answer)
      requires Valid()
      modifies Parts()
      ensures Valid() && ViewOk(old(Contents())) && m_source == old(m_source)
      ensures (answer, Contents()) == SetPosView(old(Contents()), row)
    {
      IsViewOk();
      ghost var v := Contents();
      hide FetchTo, SetPosView;
      if m_source != null {
        EofMeansAll();
        while row > |m_rscache.m_records| && !m_source.AtEof()
          invariant Valid() && m_source == old(m_source) && m_source != null
          invariant Contents() == v.(fetched := Contents().fetched) && ViewOk(Contents())
          invariant v.fetched <= Contents().fetched && (Contents().fetched == v.fetched || Contents().fetched <= row)
          invariant m_source.AtEof() <==> Contents().fetched == |all|
          invariant m_source.m_cursorstate == 7 <==> !m_source.AtEof()
          decreases |all| - |m_rscache.m_records|
        {
          Fetch();
          EofMeansAll();
        }
      }
      IsViewOk();
      Fetched(v, Contents(), row);
      if row > |m_rscache.m_records| { return No; }
      var moved := m_rscache.SetPos(row);
      m_rscache.Flags();
      if !m_rscache.IsPositioned() { return Aborted; }
      m_current_row := row;
      return Yes;
    }

    method First() returns (answer: Answer)
      requires Valid()
      modifies Parts()
      ensures Valid() && ViewOk(old(Contents())) && m_source == old(m_source)
      ensures (answer, Contents()) == SetPosView(old(Contents()), 1)
    {
      answer := SetPos(1);
    }

    method Next() returns (answer: Answer)
      requires Valid()
      modifies Parts()
      ensures Valid() && ViewOk(old(Contents())) && m_source == old(m_source)
      ensures (answer, Contents()) == Do(old(Contents()), Call.Next)
    {
      answer := SetPos(m_current_row + 1);
    }

    method Prev() returns (answer: Answer)
      requires Valid()
      modifies this`m_current_row, m_rscache`m_cursor, m_rscache`m_cursorstate
      ensures Valid() && ViewOk(old(Contents()))
      ensures (answer, Contents()) == Do(old(Contents()), Call.Prev)
    {
      IsViewOk();
      if m_current_row > 1 {
        var moved := m_rscache.SetPos(m_current_row - 1);
        m_rscache.Flags();
        if !m_rscache.IsPositioned() { return Aborted; }
        m_current_row := m_current_row - 1;
        return Yes;
      }
      return No;
    }

    /** The loop of last and fetchAll. */
    method FetchRest()
      requires Valid() && m_source != null
      modifies m_rscache, m_source
      ensures Valid() && ViewOk(old(Contents())) && Contents() == FetchTo(old(Contents()), |all|)
    {
      EofMeansAll();
      ghost var v := Contents();
      while !m_source.AtEof()
        invariant Valid() && ViewOk(Contents()) && Contents() == v.(fetched := Contents().fetched)
        invariant v.fetched <= Contents().fetched
        invariant m_source.AtEof() <==> Contents().fetched == |all|
        invariant m_source.m_cursorstate == 7 <==> !m_source.AtEof()
        decreases |all| - |m_rscache.m_records|
      {
        Fetch();
        EofMeansAll();
      }
    }

    method Last() returns (answer: Answer)
      requires Valid()
      modifies Parts()
      ensures Valid() && ViewOk(old(Contents())) && m_source == old(m_source)
      ensures (answer, Contents()) == Do(old(Contents()), Call.Last)
    {
      IsViewOk();
      if m_source != null { FetchRest(); }
      if |m_rscache.m_records| > 0 {
        m_current_row := |m_rscache.m_records|;
        var moved := m_rscache.SetPos(m_current_row);
        return Yes;
      }
      return No;
    }

    /** Fetch up to ROWSET_SIZE more rows; the number fetched. */
    method FetchMore() returns (c: nat)
      requires Valid()
      modifies Parts()
      ensures Valid() && ViewOk(old(Contents())) && m_source == old(m_source)
      ensures Contents() == Do(old(Contents()), Call.FetchMore).1
      ensures c == Contents().fetched - old(Contents()).fetched
    {
      IsViewOk();
      ghost var v := Contents();
      c := 0;
      if m_source != null { EofMeansAll(); }
      while c < ROWSET_SIZE && m_source != null && !m_source.AtEof()
        invariant Valid() && m_source == old(m_source) && ViewOk(Contents()) && c <= ROWSET_SIZE
        invariant Contents() == v.(fetched := v.fetched + c) && (m_source == null ==> c == 0)
        invariant m_source != null ==> (m_source.AtEof() <==> Contents().fetched == |all|)
        invariant m_source != null ==> (m_source.m_cursorstate == 7 <==> !m_source.AtEof())
        decreases ROWSET_SIZE - c
      {
        Fetch();
        EofMeansAll();
        c := c + 1;
      }
    }

    /** An exception (No) when there is no source. */
    method FetchAll() returns (answer: Answer)
      requires Valid()
      modifies Parts()
      ensures Valid() && ViewOk(old(Contents())) && m_source == old(m_source)
      ensures (answer, Contents()) == Do(old(Contents()), Call.FetchAll)
    {
      IsViewOk();
      if m_source == null { return No; }
      FetchRest();
      return Yes;
    }

    method MoreAvail() returns (r: bool)
      requires Valid()
      ensures r <==> Contents().attached && Contents().fetched < |all|
    {
      if m_source != null { EofMeansAll(); }
      r := m_source != null && !m_source.AtEof();
    }

    method DetachSource()
      requires Valid()
      modifies this`m_source
      ensures Valid() && ViewOk(old(Contents()))
      ensures Contents() == Do(old(Contents()), Call.Detach).1
    {
      m_source := null;
    }

    method Column(num: nat) returns (r: Result<V>)
      requires Valid()
      ensures ViewOk(Contents())
      ensures r == ColumnView(Contents(), num)
    {
      IsViewOk();
      r := m_rscache.Column(num);
    }
  }

  // ----- closing and opening again --------------------------------------------------------------------

  /** A source as a statement hands it out: open, with columns, not positioned. */
  ghost predicate FreshSource<V>(s: RecordSet<V>)
    reads s
  {
    s.Valid() && s.m_cursorstate == 3 && s.m_count > 0
  }

  /** Open a closed result on a source. */
  method OpenOn<V>(res: CachedResult<V>, source: RecordSet<V>)
    requires res.m_rscache.Valid() && res.m_rscache.m_cursorstate == 0 && res.m_rscache.m_records == []
    requires source != res.m_rscache && FreshSource(source)
    modifies res, res.m_rscache, source
    ensures res.Valid() && res.m_source == source && source.m_records == old(source.m_records)
    ensures res.m_current_row == old(res.m_current_row)
    ensures res.Contents() == View(source.m_records, 0, true, res.m_current_row, 0)
  {
    hide Do, ViewOk;
    res.Attach(source);
    source.Flags();
    var answer := res.Open();
  }

  /** Open a result, go to row 2, and close it. */
  method ClosedAtTwo<V>(source: RecordSet<V>) returns (res: CachedResult<V>)
    requires FreshSource(source) && |source.m_records| >= 2
    modifies source
    ensures fresh(res) && fresh(res.m_rscache) && res.m_current_row == 2
    ensures res.m_rscache.Valid() && res.m_rscache.m_cursorstate == 0 && res.m_rscache.m_records == []
  {
    hide SetPosView;
    res := new CachedResult();
    OpenOn(res, source);
    SecondRow(source.m_records);
    var answer := res.SetPos(2);
    res.Close();
  }

  lemma SecondRow<V>(all: seq<seq<V>>)
    requires |all| >= 2
    ensures var v := View(all, 0, true, 0, 0); ViewOk(v) && SetPosView(v, 2) == (Yes, View(all, 2, true, 2, 2))
  {
  }

  /** Open it again on another source. */
  method Reopen<V>(source: RecordSet<V>, again: RecordSet<V>) returns (res: CachedResult<V>)
    requires source != again && FreshSource(source) && FreshSource(again) && |source.m_records| >= 2
    modifies source, again
    ensures res.Valid() && fresh(res) && fresh(res.m_rscache) && res.m_source == again
    ensures res.Contents() == View(again.m_records, 0, true, 2, 0) && again.m_records == old(again.m_records)
  {
    res := ClosedAtTwo(source);
    OpenOn(res, again);
  }

  lemma ReopenedView<V>(all: seq<seq<V>>)
    ensures var v := View(all, 0, true, 2, 0);
            && ViewOk(v) && Do(v, Prev).0 == Aborted
            && (|all| >= 3 ==> Do(v, Next) == (Yes, View(all, 3, true, 3, 3)))
  {
  }

  /** Prev on such a result fails its assertion. */
  method PrevAfterReopen<V>(source: RecordSet<V>, again: RecordSet<V>) returns (answer: Answer)
    requires source != again && FreshSource(source) && FreshSource(again) && |source.m_records| >= 2
    modifies source, again
    ensures answer == Aborted
  {
    var res := Reopen(source, again);
    ReopenedView(again.m_records);
    answer := res.Prev();
  }

  /** Next on such a result goes to the third row of the source. */
  method NextAfterReopen<V>(source: RecordSet<V>, again: RecordSet<V>) returns (res: CachedResult<V>, answer: Answer)
    requires source != again && FreshSource(source) && FreshSource(again)
    requires |source.m_records| >= 2 && |again.m_records| >= 3
    modifies source, again
    ensures res.Valid() && answer == Yes && res.Contents() == View(old(again.m_records), 3, true, 3, 3)
  {
    res := Reopen(source, again);
    assert res.Parts() == {res, res.m_rscache, again};
    hide *;
    ReopenedView(again.m_records);
    answer := res.Next();
  }
}
