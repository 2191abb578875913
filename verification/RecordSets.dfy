/**
  RecordSet: rows in memory with a cursor.  The iterator is modelled as an index.
*/
module RecordSets {

  datatype Result<+T> = Ok(value: T) | Exception

  const CURSOR_CLOSED: bv8 := 0
  const CURSOR_OPEN: bv8 := 0x02
  const CURSOR_POSITIONED: bv8 := 0x04
  const CURSOR_EOF: bv8 := 0x08
  const CURSOR_BAD: bv8 := 0x10

  /** DAL_SET_CURSORSTATE: a state includes all lower ones. */
  function SetCursorState(cs: bv8, state: bv8): bv8 {
    if state == CURSOR_BAD then cs | state else state | (state - 1)
  }

  lemma CursorStates(cs: bv8)
    ensures SetCursorState(cs, CURSOR_OPEN) == 3
    ensures SetCursorState(cs, CURSOR_POSITIONED) == 7
    ensures SetCursorState(cs, CURSOR_EOF) == 15
  {
  }

  class RecordSet<V> {
    var m_records: seq<seq<V>>
    var m_count: nat
    var m_cursorstate: bv8
    var m_cursor: nat

    predicate IsOpen() reads this { m_cursorstate & CURSOR_OPEN != 0 }

    predicate IsPositioned() reads this { m_cursorstate & CURSOR_POSITIONED != 0 }

    predicate AtEof() reads this { m_cursorstate & CURSOR_EOF != 0 }

    predicate IsBad() reads this { m_cursorstate & CURSOR_BAD != 0 }

    ghost predicate Valid()
      reads this
    {
      && m_cursorstate in {0, 3, 7, 15}
      && (m_cursorstate == 7 ==> m_cursor < |m_records|)
      && (m_cursorstate == 15 ==> m_cursor <= |m_records|)
      && (forall i :: 0 <= i < |m_records| ==> |m_records[i]| == m_count)
    }

    /** The flags of the four states. */
    lemma Flags()
      requires Valid()
      ensures !IsBad()
      ensures IsOpen() <==> m_cursorstate != 0
      ensures IsPositioned() <==> m_cursorstate in {7, 15}
      ensures AtEof() <==> m_cursorstate == 15
    {
    }

    constructor ()
      ensures Valid() && m_records == [] && m_count == 0 && m_cursorstate == 0
    {
      m_records, m_count, m_cursorstate, m_cursor := [], 0, CURSOR_CLOSED, 0;
    }

    method Open()
      requires Valid()
      modifies this`m_cursorstate
      ensures Valid() && m_cursorstate == 3
    {
      CursorStates(m_cursorstate);
      m_cursorstate := SetCursorState(m_cursorstate, CURSOR_OPEN);
    }

    method First()
      requires Valid()
      modifies this`m_cursorstate, this`m_cursor
      ensures Valid() && m_cursor == 0 && m_cursorstate == (if m_records == [] then 15 else 7)
    {
      CursorStates(m_cursorstate);
      m_cursorstate := SetCursorState(m_cursorstate, CURSOR_POSITIONED);
      m_cursor := 0;
      if m_cursor == |m_records| { m_cursorstate := SetCursorState(m_cursorstate, CURSOR_EOF); }
    }

    /** Next, on a positioned cursor. */
    method Next() returns (r: bool)
      requires Valid() && IsPositioned()
      modifies this`m_cursorstate, this`m_cursor
      ensures Valid() && IsPositioned() && (r <==> m_cursorstate == 7)
      ensures old(m_cursorstate) == 15 ==> m_cursorstate == 15 && m_cursor == old(m_cursor)
      ensures old(m_cursorstate) == 7 ==>
        m_cursor == old(m_cursor) + 1 && (m_cursorstate == 15 <==> m_cursor == |m_records|)
    {
      Flags();
      CursorStates(m_cursorstate);
      if !AtEof() {
        m_cursor := m_cursor + 1;
        if m_cursor == |m_records| { m_cursorstate := SetCursorState(m_cursorstate, CURSOR_EOF); }
        Flags();
        return !AtEof();
      } else {
        return false;
      }
    }

    method SetPos(row: nat) returns (r: bool)
      requires Valid()
      modifies this`m_cursorstate, this`m_cursor
      ensures Valid() && (r <==> 1 <= row <= |m_records|)
      ensures r ==> m_cursor == row - 1 && m_cursorstate == 7
      ensures !r ==> m_cursor == old(m_cursor) && m_cursorstate == old(m_cursorstate)
    {
      if row > |m_records| || row < 1 { return false; }
      m_cursor := row - 1;
      CursorStates(m_cursorstate);
      m_cursorstate := SetCursorState(m_cursorstate, CURSOR_POSITIONED);
      return true;
    }

    /** The value in a column of the current row; columns are numbered from 1, and a number beyond them is refused. */
    method Column(num: nat) returns (r: Result<V>)
      requires Valid()
      ensures r.Ok? <==> m_cursorstate == 7 && 1 <= num <= m_count
      ensures r.Ok? ==> r.value == m_records[m_cursor][num - 1]
    {
      Flags();
      if !IsPositioned() { return Exception; }
      if AtEof() { return Exception; }
      if num < 1 { return Exception; }
      if num - 1 >= |m_records[m_cursor]| { return Exception; }
      return Ok(m_records[m_cursor][num - 1]);
    }

    /** Insert a row: the first row of an empty set without columns determines their number. */
    method Insert(rec: seq<V>) returns (r: Result<()>)
      requires Valid()
      modifies this`m_records, this`m_count
      ensures Valid()
      ensures r.Ok? <==>
        old(m_cursorstate) != 0 && ((old(m_records) == [] && old(m_count) == 0) || old(m_count) == |rec|)
      ensures r.Ok? ==> m_records == old(m_records) + [rec] && m_count == |rec|
      ensures !r.Ok? ==> m_records == old(m_records) && m_count == old(m_count)
    {
      Flags();
      if !IsOpen() { return Exception; }
      if m_records != [] || m_count > 0 {
        if m_count != |rec| { return Exception; }
        m_records := m_records + [rec];
      } else {
        m_count := |rec|;
        m_records := m_records + [rec];
      }
      return Ok(());
    }

    /** Reset: no rows, no columns, closed. */
    method Reset()
      requires Valid()
      modifies this
      ensures Valid() && m_records == [] && m_count == 0 && m_cursorstate == 0
    {
      m_records := [];
      m_cursorstate := CURSOR_CLOSED;
      m_count := 0;
    }

    method SetColumnCount(num: nat)
      requires Valid() && m_records == []
      modifies this`m_count
      ensures Valid() && m_count == num
    {
      m_count := num;
    }
  }
}
