/** src/ETL_client_part_collection_data_processing_scripts.py: the client part
    collection frame has its columns coerced in place (date_added to timestamps,
    the other eight to text), and is then inserted in batches of 20,000 rows,
    one executemany and one commit per batch. */
module PartLoader {
  import opened Python
  import opened Sink
  import opened Batching

  const BatchSize: nat := 20000

  /** The frame's columns, in the order of the file and of the insert statement. */
  const Columns: seq<string> :=
    ["client_id", "country", "region_id", "currency", "data_quality", "date_added",
     "part_id", "unit", "sonar_results"]

  /** The position of date_added among the columns. */
  const DateAdded: nat := 5

  /** The columns converted with astype(str), in the order the script converts them. */
  const TextColumns: seq<nat> := [0, 1, 2, 3, 4, 6, 7, 8]

  /** pd.to_datetime(..., errors='coerce') for one cell: a timestamp, or NaT. */
  function AsTimestamp(v: Value, rt: Runtime): (w: Value)
    ensures w == VNaT <==> rt.toDatetime(v).None?
    ensures w != VNaT ==> w == VTime(rt.toDatetime(v).value)
  {
    match rt.toDatetime(v)
    case Some(t) => VTime(t)
    case None => VNaT
  }

  /** Line 45 for a whole column. */
  function TimestampColumn(col: seq<Value>, rt: Runtime): (c: seq<Value>)
    ensures |c| == |col| && forall r :: 0 <= r < |col| ==> c[r] == AsTimestamp(col[r], rt)
  {
    seq(|col|, r requires 0 <= r < |col| => AsTimestamp(col[r], rt))
  }

  /** Series.astype(str) for a whole column: every cell becomes its str(). */
  function TextColumn(col: seq<Value>, rt: Runtime): (c: seq<Value>)
    ensures |c| == |col| && forall r :: 0 <= r < |col| ==> c[r] == VStr(rt.toStr(col[r]))
  {
    seq(|col|, r requires 0 <= r < |col| => VStr(rt.toStr(col[r])))
  }

  /** The columns after lines 45-47. */
  function Coerce(cols: seq<seq<Value>>, rt: Runtime): (c: seq<seq<Value>>)
    ensures |c| == |cols|
    ensures forall k :: 0 <= k < |cols| ==> |c[k]| == |cols[k]|
  {
    seq(|cols|, k requires 0 <= k < |cols| =>
      if k == DateAdded then TimestampColumn(cols[k], rt) else TextColumn(cols[k], rt))
  }

  /** Row r of a frame given by its columns, in column order: what itertuples
      yields for it. */
  function RowOf(cols: seq<seq<Value>>, r: nat): (t: Tuple)
    requires forall k :: 0 <= k < |cols| ==> r < |cols[k]|
    ensures |t| == |cols| && forall k :: 0 <= k < |cols| ==> t[k] == cols[k][r]
  {
    seq(|cols|, k requires 0 <= k < |cols| => cols[k][r])
  }

  /** Line 71 for one row: every null cell becomes None. */
  function DenullTuple(t: Tuple): (u: Tuple)
    ensures |u| == |t| && forall k :: 0 <= k < |t| ==> u[k] == NullToNone(t[k])
  {
    seq(|t|, k requires 0 <= k < |t| => NullToNone(t[k]))
  }

  /** Lines 71-74 for a run of rows. */
  function DenullTuples(rows: seq<Tuple>): (ts: seq<Tuple>)
    ensures |ts| == |rows| && forall j :: 0 <= j < |rows| ==> ts[j] == DenullTuple(rows[j])
  {
    seq(|rows|, j requires 0 <= j < |rows| => DenullTuple(rows[j]))
  }

  lemma DenullTuplesConcat(a: seq<Tuple>, b: seq<Tuple>)
    ensures DenullTuples(a + b) == DenullTuples(a) + DenullTuples(b)
  {
    var l, r := DenullTuples(a + b), DenullTuples(a) + DenullTuples(b);
    forall j | 0 <= j < |l| ensures l[j] == r[j] {
      if j < |a| { assert (a + b)[j] == a[j]; } else { assert (a + b)[j] == b[j - |a|]; }
    }
  }

  /** After the coercion, the tuple inserted for a row holds, in the insert
      statement's column order, the text of each text column and the timestamp
      of date_added; date_added is the only cell that can be null, and it is
      null exactly when its value did not parse as a date. */
  lemma CoercedTuple(cols: seq<seq<Value>>, r: nat, rt: Runtime)
    requires |cols| == |Columns|
    requires forall k :: 0 <= k < |cols| ==> r < |cols[k]|
    ensures var t := DenullTuple(RowOf(Coerce(cols, rt), r));
            |t| == |Columns| &&
            (forall k :: 0 <= k < |t| && k != DateAdded ==> t[k] == VStr(rt.toStr(cols[k][r]))) &&
            (t[DateAdded] == VNone <==> rt.toDatetime(cols[DateAdded][r]).None?) &&
            (t[DateAdded] != VNone ==> t[DateAdded] == VTime(rt.toDatetime(cols[DateAdded][r]).value))
  {
    var c := Coerce(cols, rt);
    var t := DenullTuple(RowOf(c, r));
    forall k | 0 <= k < |t| && k != DateAdded ensures t[k] == VStr(rt.toStr(cols[k][r])) {
      assert c[k] == TextColumn(cols[k], rt);
    }
    assert c[DateAdded] == TimestampColumn(cols[DateAdded], rt);
  }

  /** Whether column k is converted once the first n text columns are: date_added
      is converted first, then the text columns in column order. */
  predicate Done(k: nat, n: nat) {
    k == DateAdded || (k < DateAdded && k < n) || (k > DateAdded && k <= n)
  }

  /** The columns once date_added and the first n text columns are converted. */
  function CoercedUpTo(cols: seq<seq<Value>>, n: nat, rt: Runtime): (c: seq<seq<Value>>)
    ensures |c| == |cols|
  {
    seq(|cols|, k requires 0 <= k < |cols| => if Done(k, n) then Coerce(cols, rt)[k] else cols[k])
  }

  lemma CoercedFirst(cols: seq<seq<Value>>, rt: Runtime)
    requires |cols| == |Columns|
    ensures cols[DateAdded := TimestampColumn(cols[DateAdded], rt)] == CoercedUpTo(cols, 0, rt)
  {
  }

  lemma CoerceStep(cols: seq<seq<Value>>, n: nat, rt: Runtime)
    requires |cols| == |Columns| && n < |TextColumns|
    ensures var cur := CoercedUpTo(cols, n, rt);
            var c := TextColumns[n];
            cur[c := TextColumn(cur[c], rt)] == CoercedUpTo(cols, n + 1, rt)
  {
    var c := TextColumns[n];
    assert c == if n < DateAdded then n else n + 1;
  }

  lemma CoercedAll(cols: seq<seq<Value>>, rt: Runtime)
    requires |cols| == |Columns|
    ensures CoercedUpTo(cols, |TextColumns|, rt) == Coerce(cols, rt)
  {
  }

  /** The client part collection frame, stored by column as pandas does; its
      columns are overwritten in place. */
  class PartFrame {
    var cols: seq<seq<Value>>
    var height: nat

    /** Nine columns, all of the frame's height. */
    predicate Valid()
      reads this
    {
      |cols| == |Columns| && forall k :: 0 <= k < |cols| ==> |cols[k]| == height
    }

    constructor (columns: seq<seq<Value>>, rows: nat)
      requires |columns| == |Columns| && forall k :: 0 <= k < |columns| ==> |columns[k]| == rows
      ensures Valid() && cols == columns && height == rows
    {
      cols := columns;
      height := rows;
    }

    /** Lines 45-47: date_added is converted to timestamps, then each text column
        in turn to strings; the frame keeps its shape. */
    method CoerceTypes(rt: Runtime)
      modifies this
      requires Valid()
      ensures Valid() && height == old(height)
      ensures cols == Coerce(old(cols), rt)
    {
      ghost var before := cols;
      cols := cols[DateAdded := TimestampColumn(cols[DateAdded], rt)];
      CoercedFirst(before, rt);
      for n := 0 to |TextColumns|
        invariant cols == CoercedUpTo(before, n, rt) && height == old(height)
      {
        var c := TextColumns[n];
        CoerceStep(before, n, rt);
        cols := cols[c := TextColumn(cols[c], rt)];
      }
      CoercedAll(before, rt);
    }

    /** The frame's rows, in order. */
    function Rows(): (rs: seq<Tuple>)
      reads this
      requires Valid()
      ensures |rs| == height && forall r :: 0 <= r < height ==> rs[r] == RowOf(cols, r)
    {
      var h, cs := height, cols;
      seq(h, r requires 0 <= r < h => RowOf(cs, r))
    }

    /** data_tuples of batch i (lines 66-74). */
    function BatchTuples(i: nat): (ts: seq<Tuple>)
      reads this
      requires Valid() && i < NumBatches(height, BatchSize)
      ensures |ts| == End(i, height, BatchSize) - Start(i, BatchSize)
    {
      DenullTuples(Batch(Rows(), i, BatchSize))
    }

    /** The calls of the first k batches when each of them succeeds: one
        executemany of the batch's tuples, then a commit. */
    function CallsUpTo(k: nat): seq<Call>
      reads this
      requires Valid() && k <= NumBatches(height, BatchSize)
    {
      if k == 0 then [] else CallsUpTo(k - 1) + [Insert(BatchTuples(k - 1), true), Commit]
    }

    /** The first k batches, each inserted and committed, leave in the table the
        tuples of every row before the end of batch k - 1, each once, in order. */
    lemma {:induction false} CallsUpToCommit(k: nat)
      requires Valid() && k <= NumBatches(height, BatchSize)
      ensures Replay(State([], []), CallsUpTo(k)) ==
              State(DenullTuples(Rows()[..EndUpTo(height, k, BatchSize)]), [])
    {
      if k > 0 {
        CallsUpToCommit(k - 1);
        var rs := Rows();
        var mid := EndUpTo(height, k - 1, BatchSize);
        PrefixSplit(rs, k, BatchSize);
        DenullTuplesConcat(rs[..mid], Batch(rs, k - 1, BatchSize));
        ReplayConcat(State([], []), CallsUpTo(k - 1), [Insert(BatchTuples(k - 1), true), Commit]);
        InsertThenCommit(State(DenullTuples(rs[..mid]), []), BatchTuples(k - 1));
      }
    }

    /** Lines 50-80: the batch loop. An executemany that raises ends the script
        before its commit (`halted` names that batch); otherwise every batch is
        inserted, committed and reported with its row count. */
    method Load(db: Database) returns (reported: seq<nat>, calls: seq<Call>, halted: Option<nat>)
      requires Valid()
      ensures var n := NumBatches(height, BatchSize);
              |reported| <= n && (halted.None? ==> |reported| == n) &&
              (halted.Some? ==> halted.value == |reported| < n)
      ensures forall i :: 0 <= i < |reported| ==>
                db.bulk(BatchTuples(i)) &&
                reported[i] == End(i, height, BatchSize) - Start(i, BatchSize) == |BatchTuples(i)|
      ensures halted.None? ==> calls == CallsUpTo(|reported|)
      ensures halted.Some? ==>
                !db.bulk(BatchTuples(halted.value)) &&
                calls == CallsUpTo(halted.value) + [Insert(BatchTuples(halted.value), false)]
    {
      var totalRows := height;
      var numBatches := NumBatches(totalRows, BatchSize);
      reported := [];
      calls := [];
      halted := None;
      for i := 0 to numBatches
        invariant |reported| == i
        invariant forall k :: 0 <= k < i ==>
                    db.bulk(BatchTuples(k)) &&
                    reported[k] == End(k, height, BatchSize) - Start(k, BatchSize) == |BatchTuples(k)|
        invariant calls == CallsUpTo(i)
      {
        var startIdx := i * BatchSize;
        var endIdx := if startIdx + BatchSize < totalRows then startIdx + BatchSize else totalRows;
        BatchBounds(i, totalRows, BatchSize);
        assert Rows()[startIdx..endIdx] == Batch(Rows(), i, BatchSize);
        var dataTuples := DenullTuples(Rows()[startIdx..endIdx]);
        if !db.bulk(dataTuples) {
          calls := calls + [Insert(dataTuples, false)];
          halted := Some(i);
          return;
        }
        calls := calls + [Insert(dataTuples, true), Commit];
        reported := reported + [endIdx - startIdx];
      }
    }

    /** What a run of Load leaves committed: the tuples of the reported batches,
        in order, each once; when no batch failed, every row of the frame; and
        the reported counts add up to the number of rows committed. */
    lemma LoadCommits(db: Database, reported: seq<nat>, calls: seq<Call>, halted: Option<nat>)
      requires Valid()
      requires |reported| <= NumBatches(height, BatchSize)
      requires forall i :: 0 <= i < |reported| ==>
                 reported[i] == End(i, height, BatchSize) - Start(i, BatchSize)
      requires halted.None? ==> |reported| == NumBatches(height, BatchSize) && calls == CallsUpTo(|reported|)
      requires halted.Some? ==>
                 halted.value == |reported| < NumBatches(height, BatchSize) &&
                 calls == CallsUpTo(halted.value) + [Insert(BatchTuples(halted.value), false)]
      ensures Committed(calls) == DenullTuples(Rows()[..EndUpTo(height, |reported|, BatchSize)])
      ensures Sum(reported) == |Committed(calls)|
      ensures halted.None? ==> Committed(calls) == DenullTuples(Rows()) && Sum(reported) == height
    {
      var k := |reported|;
      CallsUpToCommit(k);
      if halted.Some? {
        ReplaySnoc(State([], []), CallsUpTo(k), Insert(BatchTuples(k), false));
      } else {
        assert Rows()[..height] == Rows();
      }
      ReportedPrefixSum(height, BatchSize, reported);
    }
  }

  /** The whole script from the frame on: coerce the columns, then load. */
  method Ingest(frame: PartFrame, rt: Runtime, db: Database)
    returns (reported: seq<nat>, calls: seq<Call>, halted: Option<nat>)
    modifies frame
    requires frame.Valid()
    ensures frame.Valid() && frame.height == old(frame.height) && frame.cols == Coerce(old(frame.cols), rt)
    ensures |reported| <= NumBatches(frame.height, BatchSize)
    ensures halted.None? ==> |reported| == NumBatches(frame.height, BatchSize)
    ensures halted.Some? ==>
              halted.value == |reported| < NumBatches(frame.height, BatchSize) &&
              !db.bulk(frame.BatchTuples(halted.value))
    ensures forall i :: 0 <= i < |reported| ==>
              db.bulk(frame.BatchTuples(i)) && reported[i] == End(i, frame.height, BatchSize) - Start(i, BatchSize)
    ensures Committed(calls) == DenullTuples(frame.Rows()[..EndUpTo(frame.height, |reported|, BatchSize)])
    ensures Sum(reported) == |Committed(calls)|
    ensures halted.None? ==> Committed(calls) == DenullTuples(frame.Rows()) && Sum(reported) == frame.height
  {
    frame.CoerceTypes(rt);
    reported, calls, halted := frame.Load(db);
    frame.LoadCommits(db, reported, calls, halted);
  }
}
