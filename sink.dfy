/** The relational sink as the scripts drive it: a sequence of insert, commit
    and rollback calls on one connection. Whether an insert is accepted is a
    parameter (`Database`); what the table then holds is given by replaying the
    calls against a transaction that commits or rolls back its pending rows. */
module Sink {
  import opened Python

  /** One row of an INSERT, its values in the statement's column order. */
  type Tuple = seq<Value>

  /** Which inserts the database accepts. */
  datatype Database = Database(
    bulk: seq<Tuple> -> bool,   // one statement inserting many rows (execute_values, executemany)
    single: Tuple -> bool)      // a single-row INSERT (cursor.execute)

  /** A call on the connection; an insert records whether it succeeded. */
  datatype Call = Insert(rows: seq<Tuple>, ok: bool) | Commit | Rollback

  /** The committed table rows (those added by this run) and the rows pending in
      the open transaction. */
  datatype State = State(table: seq<Tuple>, pending: seq<Tuple>)

  /** The effect of one call. A failed statement adds nothing; PostgreSQL also
      discards whatever it had done before raising. */
  function Apply(st: State, c: Call): State {
    match c
    case Insert(rows, ok) => if ok then State(st.table, st.pending + rows) else st
    case Commit => State(st.table + st.pending, [])
    case Rollback => State(st.table, [])
  }

  /** The state after a sequence of calls, in order. */
  function Replay(st: State, calls: seq<Call>): State
    decreases |calls|
  {
    if calls == [] then st else Apply(Replay(st, calls[..|calls| - 1]), calls[|calls| - 1])
  }

  /** The rows a sequence of calls leaves committed, starting from no rows. */
  function Committed(calls: seq<Call>): seq<Tuple> {
    Replay(State([], []), calls).table
  }

  /** Replaying two call sequences one after the other is replaying their concatenation. */
  lemma {:induction false} ReplayConcat(st: State, a: seq<Call>, b: seq<Call>)
    ensures Replay(st, a + b) == Replay(Replay(st, a), b)
    decreases |b|
  {
    if b == [] {
      assert a + b == a;
    } else {
      assert (a + b)[..|a + b| - 1] == a + b[..|b| - 1];
      ReplayConcat(st, a, b[..|b| - 1]);
    }
  }

  /** One more call applies it to the state replayed so far. */
  lemma ReplaySnoc(st: State, a: seq<Call>, c: Call)
    ensures Replay(st, a + [c]) == Apply(Replay(st, a), c)
  {
    assert (a + [c])[..|a + [c]| - 1] == a;
  }

  /** Rolling back after a failed insert leaves the committed rows as they were and
      nothing pending. */
  lemma FailedInsertThenRollback(st: State, rows: seq<Tuple>)
    ensures Replay(st, [Insert(rows, false), Rollback]) == State(st.table, [])
  {
    ReplaySnoc(st, [], Insert(rows, false));
    ReplaySnoc(st, [Insert(rows, false)], Rollback);
  }

  /** A successful insert followed by a commit appends the inserted rows to the table. */
  lemma InsertThenCommit(st: State, rows: seq<Tuple>)
    requires st.pending == []
    ensures Replay(st, [Insert(rows, true), Commit]) == State(st.table + rows, [])
  {
    ReplaySnoc(st, [], Insert(rows, true));
    ReplaySnoc(st, [Insert(rows, true)], Commit);
  }

  /** A failed insert followed by a rollback, or a successful one followed by a
      commit: the outcome of one two-call step of the row-by-row retry. */
  lemma InsertThenSettle(st: State, row: Tuple, ok: bool)
    requires st.pending == []
    ensures Replay(st, [Insert([row], ok), if ok then Commit else Rollback]) ==
            State(if ok then st.table + [row] else st.table, [])
  {
    if ok { InsertThenCommit(st, [row]); } else { FailedInsertThenRollback(st, [row]); }
  }
}
