/** The load half of src/sonar_results.py: the observations become a frame, the
    frame is cut into batches of 10,000 rows, and each batch is bulk-inserted
    and committed or, when the bulk insert fails, rolled back and retried one
    row at a time. */
module SonarLoader {
  import opened Python
  import opened Sink
  import opened Batching
  import opened SonarNormaliser

  const BatchSize: nat := 10000

  /** One row of sonar_df, its cells named after the table's columns. */
  datatype FrameRow = FrameRow(
    resultId: Value, partId: Value, amount: Value, currency: Value, dateSonar: Value,
    delivery: Value, price: Value,
    status: Value, supplierCountry: Value, supplierId: Value, supplierName: Value)

  // ----- from observations to frame rows -----

  function DeliveryCell(d: Option<int>): Value {
    match d
    case Some(n) => VInt(n)
    case None => VNone
  }

  function PriceCell(p: Option<real>): Value {
    match p
    case Some(x) => VFloat(Finite(x))
    case None => VNone
  }

  /** pd.DataFrame(sonar_rows) for one row, with date_sonar replaced by
      pd.to_datetime(..., errors='coerce'). */
  function ToFrameRow(o: Observation, rt: Runtime): (r: FrameRow)
    ensures r.partId == VStr(o.partId) && r.resultId == o.resultId
    ensures r.dateSonar == VNaT <==> rt.toDatetime(o.dateSonar).None?
    ensures rt.toDatetime(o.dateSonar).Some? ==> r.dateSonar == VTime(rt.toDatetime(o.dateSonar).value)
    ensures r.delivery == DeliveryCell(o.delivery) && r.price == PriceCell(o.price)
    ensures r.amount == o.amount && r.currency == o.currency && r.status == o.status
    ensures r.supplierCountry == o.supplierCountry && r.supplierId == o.supplierId &&
            r.supplierName == o.supplierName
  {
    var date := match rt.toDatetime(o.dateSonar) case Some(t) => VTime(t) case None => VNaT;
    FrameRow(o.resultId, VStr(o.partId), o.amount, o.currency, date,
             DeliveryCell(o.delivery), PriceCell(o.price),
             o.status, o.supplierCountry, o.supplierId, o.supplierName)
  }

  /** The frame built from all observations, in order. */
  function Frame(obs: seq<Observation>, rt: Runtime): (f: seq<FrameRow>)
    ensures |f| == |obs|
    ensures forall k :: 0 <= k < |obs| ==> f[k] == ToFrameRow(obs[k], rt)
  {
    seq(|obs|, k requires 0 <= k < |obs| => ToFrameRow(obs[k], rt))
  }

  /** Line 194, for one row: every null cell (None, NaT, NaN) becomes None. */
  function Denull(r: FrameRow): FrameRow {
    FrameRow(NullToNone(r.resultId), NullToNone(r.partId), NullToNone(r.amount),
             NullToNone(r.currency), NullToNone(r.dateSonar), NullToNone(r.delivery),
             NullToNone(r.price), NullToNone(r.status), NullToNone(r.supplierCountry),
             NullToNone(r.supplierId), NullToNone(r.supplierName))
  }

  // ----- the two tuple preparations -----

  /** The insert statement's column order, with the given delivery and price. */
  function Cells(r: FrameRow, delivery: Value, price: Value): (t: Tuple)
    ensures |t| == 11 && t[1] == r.partId && t[5] == delivery && t[6] == price
  {
    [r.resultId, r.partId, r.amount, r.currency, r.dateSonar, delivery, price,
     r.status, r.supplierCountry, r.supplierId, r.supplierName]
  }

  /** Every cell of a tuple sits at its column's position in the insert statement
      (result_id, part_id, amount, currency, date_sonar, delivery, price, status,
      supplier_country, supplier_id, supplier_name). */
  lemma CellsColumnOrder(r: FrameRow, delivery: Value, price: Value)
    ensures var t := Cells(r, delivery, price);
            t[0] == r.resultId && t[1] == r.partId && t[2] == r.amount && t[3] == r.currency &&
            t[4] == r.dateSonar && t[5] == delivery && t[6] == price && t[7] == r.status &&
            t[8] == r.supplierCountry && t[9] == r.supplierId && t[10] == r.supplierName
  {
  }

  /** isinstance(x, (int, float, type(None))); a bool is an int. */
  predicate IsNumberOrNone(v: Value) {
    v.VNone? || v.VBool? || v.VInt? || v.VFloat?
  }

  /** Lines 202-207: a delivery that is not a number or None goes through int(),
      and becomes None if that raises. */
  function PrepareDelivery(v: Value, rt: Runtime): (w: Value)
    ensures IsNumberOrNone(v) ==> w == v
    ensures !IsNumberOrNone(v) && rt.toInt(v).Converted? ==> w == VInt(rt.toInt(v).value)
    ensures !IsNumberOrNone(v) && !rt.toInt(v).Converted? ==> w == VNone
  {
    if IsNumberOrNone(v) then v
    else match rt.toInt(v)
      case Converted(d) => VInt(d)
      case _ => VNone
  }

  /** Lines 209-214: the same for price, through float(). */
  function PreparePrice(v: Value, rt: Runtime): (w: Value)
    ensures IsNumberOrNone(v) ==> w == v
    ensures !IsNumberOrNone(v) && rt.toFloat(v).Converted? ==> w == VFloat(rt.toFloat(v).value)
    ensures !IsNumberOrNone(v) && !rt.toFloat(v).Converted? ==> w == VNone
  {
    if IsNumberOrNone(v) then v
    else match rt.toFloat(v)
      case Converted(f) => VFloat(f)
      case _ => VNone
  }

  /** Lines 216-228: the tuple for the bulk insert. */
  function PrepareTuple(r: FrameRow, rt: Runtime): Tuple {
    Cells(r, PrepareDelivery(r.delivery, rt), PreparePrice(r.price, rt))
  }

  /** Lines 258-262: int(float(delivery)), None if either call raises. */
  function RetryDelivery(v: Value, rt: Runtime): (w: Value)
    ensures v.VNone? ==> w == VNone
    ensures !v.VNone? && rt.toFloat(v).Converted? && IntOfFloat(rt.toFloat(v).value).Converted? ==>
              w == VInt(IntOfFloat(rt.toFloat(v).value).value)
    ensures !v.VNone? && !(rt.toFloat(v).Converted? && IntOfFloat(rt.toFloat(v).value).Converted?) ==>
              w == VNone
  {
    if v.VNone? then VNone
    else match rt.toFloat(v)
      case Converted(f) => (match IntOfFloat(f) case Converted(d) => VInt(d) case _ => VNone)
      case _ => VNone
  }

  /** Lines 264-268: float(price), None if it raises. */
  function RetryPrice(v: Value, rt: Runtime): (w: Value)
    ensures v.VNone? ==> w == VNone
    ensures !v.VNone? && rt.toFloat(v).Converted? ==> w == VFloat(rt.toFloat(v).value)
    ensures !v.VNone? && !rt.toFloat(v).Converted? ==> w == VNone
  {
    if v.VNone? then VNone
    else match rt.toFloat(v)
      case Converted(f) => VFloat(f)
      case _ => VNone
  }

  /** Lines 270-285: the tuple for one single-row insert. */
  function RetryTuple(r: FrameRow, rt: Runtime): Tuple {
    Cells(r, RetryDelivery(r.delivery, rt), RetryPrice(r.price, rt))
  }

  /** The bulk tuples of a batch, one per row, in order. */
  function PrepareAll(batch: seq<FrameRow>, rt: Runtime): (ts: seq<Tuple>)
    ensures |ts| == |batch|
    ensures forall j :: 0 <= j < |batch| ==> ts[j] == PrepareTuple(batch[j], rt)
  {
    seq(|batch|, j requires 0 <= j < |batch| => PrepareTuple(batch[j], rt))
  }

  // ----- one batch: the specification -----

  /** The retry tuples of the rows whose single insert succeeds, in row order. */
  function Salvaged(batch: seq<FrameRow>, rt: Runtime, db: Database): (ts: seq<Tuple>)
    decreases |batch|
    ensures |ts| <= |batch|
  {
    if batch == [] then []
    else
      var t := RetryTuple(batch[|batch| - 1], rt);
      Salvaged(batch[..|batch| - 1], rt, db) + (if db.single(t) then [t] else [])
  }

  /** The absolute positions (start + j) of the rows whose single insert fails. */
  function FailedAt(batch: seq<FrameRow>, start: nat, rt: Runtime, db: Database): seq<nat>
    decreases |batch|
  {
    if batch == [] then []
    else
      var j := |batch| - 1;
      FailedAt(batch[..j], start, rt, db) + (if db.single(RetryTuple(batch[j], rt)) then [] else [start + j])
  }

  /** The calls of the row-by-row retry: per row an insert, then a commit if it
      succeeded or a rollback if it failed. */
  function RetryCalls(batch: seq<FrameRow>, rt: Runtime, db: Database): seq<Call>
    decreases |batch|
  {
    if batch == [] then []
    else
      var t := RetryTuple(batch[|batch| - 1], rt);
      var ok := db.single(t);
      RetryCalls(batch[..|batch| - 1], rt, db) + [Insert([t], ok), if ok then Commit else Rollback]
  }

  /** What the loader reports for one batch. */
  datatype BatchReport =
    | BulkInserted(rows: nat)                                // "Batch i/n inserted (k rows)"
    | RowByRow(successfulInserts: nat, failedAt: seq<nat>)   // the fallback's count and failed rows

  /** All calls one batch makes on the connection. */
  function BatchCalls(batch: seq<FrameRow>, rt: Runtime, db: Database): seq<Call> {
    var tuples := PrepareAll(batch, rt);
    if db.bulk(tuples) then [Insert(tuples, true), Commit]
    else [Insert(tuples, false), Rollback] + RetryCalls(batch, rt, db)
  }

  /** The report for one batch. */
  function BatchOutcome(batch: seq<FrameRow>, start: nat, rt: Runtime, db: Database): BatchReport {
    if db.bulk(PrepareAll(batch, rt)) then BulkInserted(|batch|)
    else RowByRow(|Salvaged(batch, rt, db)|, FailedAt(batch, start, rt, db))
  }

  /** The tuples one batch leaves committed: all of them on the bulk path, the
      salvaged ones on the fallback path. */
  function BatchCommitted(batch: seq<FrameRow>, rt: Runtime, db: Database): seq<Tuple> {
    if db.bulk(PrepareAll(batch, rt)) then PrepareAll(batch, rt) else Salvaged(batch, rt, db)
  }

  // ----- one batch: the loader -----

  /** Lines 198-230: the bulk tuples, built one row at a time. */
  method PrepareTuples(batch: seq<FrameRow>, rt: Runtime) returns (dataTuples: seq<Tuple>)
    ensures dataTuples == PrepareAll(batch, rt)
  {
    dataTuples := [];
    for j := 0 to |batch|
      invariant dataTuples == PrepareAll(batch[..j], rt)
    {
      PrepareAllSnoc(batch, j, rt);
      dataTuples := dataTuples + [PrepareTuple(batch[j], rt)];
    }
    assert batch[..|batch|] == batch;
  }

  lemma PrepareAllSnoc(batch: seq<FrameRow>, j: nat, rt: Runtime)
    requires j < |batch|
    ensures PrepareAll(batch[..j + 1], rt) == PrepareAll(batch[..j], rt) + [PrepareTuple(batch[j], rt)]
  {
    var a, b := PrepareAll(batch[..j + 1], rt), PrepareAll(batch[..j], rt) + [PrepareTuple(batch[j], rt)];
    assert |a| == |b|;
    forall k | 0 <= k < |a| ensures a[k] == b[k] {
      assert batch[..j + 1][k] == batch[k];
      if k < j { assert batch[..j][k] == batch[k]; }
    }
  }

  /** Lines 240-289: the fallback, one single-row insert per row, each committed
      when it succeeds and rolled back when it fails. */
  method RetryRows(batch: seq<FrameRow>, startIdx: nat, rt: Runtime, db: Database)
    returns (successfulInserts: nat, failed: seq<nat>, calls: seq<Call>)
    ensures calls == RetryCalls(batch, rt, db)
    ensures successfulInserts == |Salvaged(batch, rt, db)|
    ensures failed == FailedAt(batch, startIdx, rt, db)
  {
    successfulInserts := 0;
    failed := [];
    calls := [];
    for j := 0 to |batch|
      invariant calls == RetryCalls(batch[..j], rt, db)
      invariant successfulInserts == |Salvaged(batch[..j], rt, db)|
      invariant failed == FailedAt(batch[..j], startIdx, rt, db)
    {
      assert batch[..j + 1][..j] == batch[..j];
      assert batch[..j + 1][j] == batch[j];
      var t := RetryTuple(batch[j], rt);
      var ok := db.single(t);
      calls := calls + [Insert([t], ok)];
      if ok {
        calls := calls + [Commit];
        successfulInserts := successfulInserts + 1;
      } else {
        calls := calls + [Rollback];
        failed := failed + [startIdx + j];
      }
    }
    assert batch[..|batch|] == batch;
  }

  /** Lines 196-293 for one batch (the rows of batch_df, starting at start_idx). */
  method LoadBatch(batch: seq<FrameRow>, startIdx: nat, rt: Runtime, db: Database)
    returns (report: BatchReport, calls: seq<Call>)
    ensures calls == BatchCalls(batch, rt, db)
    ensures report == BatchOutcome(batch, startIdx, rt, db)
  {
    var dataTuples := PrepareTuples(batch, rt);
    if db.bulk(dataTuples) {
      calls := [Insert(dataTuples, true), Commit];
      report := BulkInserted(|dataTuples|);
    } else {
      var successfulInserts, failed, retryCalls := RetryRows(batch, startIdx, rt, db);
      calls := [Insert(dataTuples, false), Rollback] + retryCalls;
      report := RowByRow(successfulInserts, failed);
    }
  }

  // ----- one batch: properties -----

  /** The retry issues, for row j, its insert at position 2j and the commit or
      rollback that settles it at 2j + 1, rows in their original order. */
  lemma {:induction false} RetryCallsInOrder(batch: seq<FrameRow>, rt: Runtime, db: Database)
    ensures |RetryCalls(batch, rt, db)| == 2 * |batch|
    ensures forall j :: 0 <= j < |batch| ==>
              var t := RetryTuple(batch[j], rt);
              RetryCalls(batch, rt, db)[2 * j] == Insert([t], db.single(t)) &&
              RetryCalls(batch, rt, db)[2 * j + 1] == if db.single(t) then Commit else Rollback
    decreases |batch|
  {
    if batch != [] {
      var init := batch[..|batch| - 1];
      RetryCallsInOrder(init, rt, db);
      assert forall j :: 0 <= j < |init| ==> init[j] == batch[j];
    }
  }

  /** The fallback reports row start + j as failed exactly when its single insert
      fails; the reported positions lie inside the batch, in increasing order;
      salvaged and failed rows together are the whole batch. */
  lemma FailedAtExact(batch: seq<FrameRow>, start: nat, rt: Runtime, db: Database)
    ensures forall j :: 0 <= j < |batch| ==>
              (start + j in FailedAt(batch, start, rt, db) <==> !db.single(RetryTuple(batch[j], rt)))
    ensures forall x :: x in FailedAt(batch, start, rt, db) ==> start <= x < start + |batch|
    ensures forall a, b :: 0 <= a < b < |FailedAt(batch, start, rt, db)| ==>
              FailedAt(batch, start, rt, db)[a] < FailedAt(batch, start, rt, db)[b]
    ensures |Salvaged(batch, rt, db)| + |FailedAt(batch, start, rt, db)| == |batch|
  {
    FailedAtRange(batch, start, rt, db);
    FailedAtMembers(batch, start, rt, db);
    FailedAtCount(batch, start, rt, db);
  }

  lemma {:induction false} FailedAtRange(batch: seq<FrameRow>, start: nat, rt: Runtime, db: Database)
    ensures forall x :: x in FailedAt(batch, start, rt, db) ==> start <= x < start + |batch|
    ensures forall a, b :: 0 <= a < b < |FailedAt(batch, start, rt, db)| ==>
              FailedAt(batch, start, rt, db)[a] < FailedAt(batch, start, rt, db)[b]
    decreases |batch|
  {
    if batch != [] {
      var j := |batch| - 1;
      FailedAtRange(batch[..j], start, rt, db);
      var f0 := FailedAt(batch[..j], start, rt, db);
      assert forall a :: 0 <= a < |f0| ==> f0[a] in f0;
    }
  }

  lemma {:induction false} FailedAtMembers(batch: seq<FrameRow>, start: nat, rt: Runtime, db: Database)
    ensures forall j :: 0 <= j < |batch| ==>
              (start + j in FailedAt(batch, start, rt, db) <==> !db.single(RetryTuple(batch[j], rt)))
    decreases |batch|
  {
    if batch != [] {
      var j := |batch| - 1;
      var init := batch[..j];
      FailedAtMembers(init, start, rt, db);
      FailedAtRange(init, start, rt, db);
      forall k | 0 <= k < j
        ensures start + k in FailedAt(batch, start, rt, db) <==> !db.single(RetryTuple(batch[k], rt))
      {
        assert init[k] == batch[k];
      }
    }
  }

  lemma {:induction false} FailedAtCount(batch: seq<FrameRow>, start: nat, rt: Runtime, db: Database)
    ensures |Salvaged(batch, rt, db)| + |FailedAt(batch, start, rt, db)| == |batch|
    decreases |batch|
  {
    if batch != [] {
      FailedAtCount(batch[..|batch| - 1], start, rt, db);
    }
  }

  /** The calls of one batch leave committed exactly what the batch specification
      says, and nothing pending: one commit of every tuple on the bulk path; on
      the fallback path, after the rollback, the salvaged rows one commit each. */
  lemma BatchCallsCommit(batch: seq<FrameRow>, table: seq<Tuple>, rt: Runtime, db: Database)
    ensures Replay(State(table, []), BatchCalls(batch, rt, db)) ==
            State(table + BatchCommitted(batch, rt, db), [])
  {
    var tuples := PrepareAll(batch, rt);
    if db.bulk(tuples) {
      InsertThenCommit(State(table, []), tuples);
    } else {
      FailedInsertThenRollback(State(table, []), tuples);
      ReplayConcat(State(table, []), [Insert(tuples, false), Rollback], RetryCalls(batch, rt, db));
      RetryCommits(batch, table, rt, db);
    }
  }

  lemma {:induction false} RetryCommits(batch: seq<FrameRow>, table: seq<Tuple>, rt: Runtime, db: Database)
    ensures Replay(State(table, []), RetryCalls(batch, rt, db)) == State(table + Salvaged(batch, rt, db), [])
    decreases |batch|
  {
    if batch == [] {
      assert table + [] == table;
    } else {
      var init := batch[..|batch| - 1];
      var t := RetryTuple(batch[|batch| - 1], rt);
      var ok := db.single(t);
      RetryCommits(init, table, rt, db);
      ReplayConcat(State(table, []), RetryCalls(init, rt, db), [Insert([t], ok), if ok then Commit else Rollback]);
      InsertThenSettle(State(table + Salvaged(init, rt, db), []), t, ok);
    }
  }

  /** A batch whose bulk insert fails and in which exactly one row is rejected
      on its own: every other row is committed, in order, and only that row is
      reported, at its absolute position. */
  lemma OneBadRow(batch: seq<FrameRow>, start: nat, bad: nat, rt: Runtime, db: Database)
    requires bad < |batch|
    requires !db.bulk(PrepareAll(batch, rt))
    requires forall j :: 0 <= j < |batch| ==> (db.single(RetryTuple(batch[j], rt)) <==> j != bad)
    ensures BatchCommitted(batch, rt, db) ==
              Retries(batch[..bad], rt) + Retries(batch[bad + 1..], rt)
    ensures BatchOutcome(batch, start, rt, db) == RowByRow(|batch| - 1, [start + bad])
  {
    assert Salvaged(batch, rt, db) == Retries(batch[..bad], rt) + Retries(batch[bad + 1..], rt) by {
      OneBadRowSalvaged(batch, bad, rt, db);
    }
    assert FailedAt(batch, start, rt, db) == [start + bad] && |Salvaged(batch, rt, db)| == |batch| - 1 by {
      FailedAtExact(batch, start, rt, db);
      FailedSingle(batch, start, bad, rt, db);
    }
  }

  lemma OneBadRowSalvaged(batch: seq<FrameRow>, bad: nat, rt: Runtime, db: Database)
    requires bad < |batch|
    requires forall j :: 0 <= j < |batch| ==> (db.single(RetryTuple(batch[j], rt)) <==> j != bad)
    ensures Salvaged(batch, rt, db) == Retries(batch[..bad], rt) + Retries(batch[bad + 1..], rt)
  {
    var pre, x, post := batch[..bad], batch[bad], batch[bad + 1..];
    assert Salvaged(pre, rt, db) == Retries(pre, rt) by {
      AcceptedRun(batch, 0, bad, bad, rt, db);
      assert batch[0..bad] == pre;
    }
    assert Salvaged(post, rt, db) == Retries(post, rt) by {
      AcceptedRun(batch, bad + 1, |batch|, bad, rt, db);
      assert batch[bad + 1..|batch|] == post;
    }
    assert Salvaged(batch[..bad + 1], rt, db) == Salvaged(pre, rt, db) by {
      assert batch[..bad + 1] == pre + [x];
      SalvagedSkip(pre, x, rt, db);
    }
    assert batch == batch[..bad + 1] + post;
    SalvagedConcat(batch[..bad + 1], post, rt, db);
  }

  /** A run of rows that does not contain the bad one is salvaged whole. */
  lemma AcceptedRun(batch: seq<FrameRow>, lo: nat, hi: nat, bad: nat, rt: Runtime, db: Database)
    requires lo <= hi <= |batch| && !(lo <= bad < hi)
    requires forall j :: 0 <= j < |batch| ==> (db.single(RetryTuple(batch[j], rt)) <==> j != bad)
    ensures Salvaged(batch[lo..hi], rt, db) == Retries(batch[lo..hi], rt)
  {
    var run := batch[lo..hi];
    forall j | 0 <= j < |run| ensures db.single(RetryTuple(run[j], rt)) {
      assert run[j] == batch[lo + j];
    }
    AllAcceptedSalvaged(run, rt, db);
  }

  lemma SalvagedSkip(pre: seq<FrameRow>, x: FrameRow, rt: Runtime, db: Database)
    requires !db.single(RetryTuple(x, rt))
    ensures Salvaged(pre + [x], rt, db) == Salvaged(pre, rt, db)
  {
    assert (pre + [x])[..|pre|] == pre;
  }

  /** The retry tuples of a run of rows. */
  function Retries(rows: seq<FrameRow>, rt: Runtime): (ts: seq<Tuple>)
    ensures |ts| == |rows|
    ensures forall j :: 0 <= j < |rows| ==> ts[j] == RetryTuple(rows[j], rt)
  {
    seq(|rows|, j requires 0 <= j < |rows| => RetryTuple(rows[j], rt))
  }

  lemma {:induction false} AllAcceptedSalvaged(rows: seq<FrameRow>, rt: Runtime, db: Database)
    requires forall j :: 0 <= j < |rows| ==> db.single(RetryTuple(rows[j], rt))
    ensures Salvaged(rows, rt, db) == Retries(rows, rt)
    decreases |rows|
  {
    if rows != [] {
      var init := rows[..|rows| - 1];
      assert forall j :: 0 <= j < |init| ==> init[j] == rows[j];
      AllAcceptedSalvaged(init, rt, db);
      assert Retries(rows, rt) == Retries(init, rt) + [RetryTuple(rows[|rows| - 1], rt)];
    }
  }

  lemma {:induction false} SalvagedConcat(a: seq<FrameRow>, b: seq<FrameRow>, rt: Runtime, db: Database)
    ensures Salvaged(a + b, rt, db) == Salvaged(a, rt, db) + Salvaged(b, rt, db)
    decreases |b|
  {
    if b == [] {
      assert a + b == a;
    } else {
      assert (a + b)[..|a + b| - 1] == a + b[..|b| - 1];
      SalvagedConcat(a, b[..|b| - 1], rt, db);
    }
  }

  lemma FailedSingle(batch: seq<FrameRow>, start: nat, bad: nat, rt: Runtime, db: Database)
    requires bad < |batch| && |FailedAt(batch, start, rt, db)| == 1
    requires forall j :: 0 <= j < |batch| ==> (db.single(RetryTuple(batch[j], rt)) <==> j != bad)
    requires forall j :: 0 <= j < |batch| ==>
               (start + j in FailedAt(batch, start, rt, db) <==> !db.single(RetryTuple(batch[j], rt)))
    requires forall x :: x in FailedAt(batch, start, rt, db) ==> start <= x < start + |batch|
    ensures FailedAt(batch, start, rt, db) == [start + bad]
  {
    var f := FailedAt(batch, start, rt, db);
    assert f[0] in f;
    var j := f[0] - start;
    assert 0 <= j < |batch| && f[0] == start + j;
    assert !db.single(RetryTuple(batch[j], rt));
  }

  // ----- all batches -----

  /** Line 194 over a run of rows. */
  function DenullAll(rows: seq<FrameRow>): (d: seq<FrameRow>)
    ensures |d| == |rows|
    ensures forall k :: 0 <= k < |rows| ==> d[k] == Denull(rows[k])
  {
    seq(|rows|, k requires 0 <= k < |rows| => Denull(rows[k]))
  }

  /** Batch i of the frame, as batch_df: the slice with nulls replaced by None. */
  function BatchRows(rows: seq<FrameRow>, i: nat): (b: seq<FrameRow>)
    requires i < NumBatches(|rows|, BatchSize)
  {
    DenullAll(Batch(rows, i, BatchSize))
  }

  /** The calls of the first k batches, one batch after another (line 188). */
  function CallsUpTo(rows: seq<FrameRow>, k: nat, rt: Runtime, db: Database): seq<Call>
    requires k <= NumBatches(|rows|, BatchSize)
  {
    if k == 0 then [] else CallsUpTo(rows, k - 1, rt, db) + BatchCalls(BatchRows(rows, k - 1), rt, db)
  }

  /** The tuples the first k batches leave committed, batch by batch. */
  function CommittedUpTo(rows: seq<FrameRow>, k: nat, rt: Runtime, db: Database): seq<Tuple>
    requires k <= NumBatches(|rows|, BatchSize)
  {
    if k == 0 then [] else CommittedUpTo(rows, k - 1, rt, db) + BatchCommitted(BatchRows(rows, k - 1), rt, db)
  }

  /** What the batch loop has done after its first i batches: a report per
      batch, the calls of those batches, and their committed tuples in the table. */
  predicate LoadedUpTo(rows: seq<FrameRow>, i: nat, reports: seq<BatchReport>, calls: seq<Call>,
                       rt: Runtime, db: Database)
  {
    i <= NumBatches(|rows|, BatchSize) && |reports| == i &&
    (forall k :: 0 <= k < i ==> reports[k] == BatchOutcome(BatchRows(rows, k), Start(k, BatchSize), rt, db)) &&
    calls == CallsUpTo(rows, i, rt, db) &&
    Replay(State([], []), calls) == State(CommittedUpTo(rows, i, rt, db), [])
  }

  /** Lines 175-293: the batch loop. */
  method LoadAll(rows: seq<FrameRow>, rt: Runtime, db: Database)
    returns (reports: seq<BatchReport>, calls: seq<Call>)
    ensures |reports| == NumBatches(|rows|, BatchSize)
    ensures forall i :: 0 <= i < |reports| ==>
              reports[i] == BatchOutcome(BatchRows(rows, i), Start(i, BatchSize), rt, db)
    ensures calls == CallsUpTo(rows, |reports|, rt, db)
    ensures Committed(calls) == CommittedUpTo(rows, |reports|, rt, db)
  {
    var totalRows := |rows|;
    var numBatches := NumBatches(totalRows, BatchSize);
    reports := [];
    calls := [];
    for i := 0 to numBatches
      invariant LoadedUpTo(rows, i, reports, calls, rt, db)
    {
      var report, batchCalls := LoadBatchAt(rows, i, rt, db);
      LoadAllStep(rows, i, reports, calls, report, batchCalls, rt, db);
      reports := reports + [report];
      calls := calls + batchCalls;
    }
  }

  /** Lines 189-193 and the batch's load: slice batch i, replace its nulls, load it. */
  method LoadBatchAt(rows: seq<FrameRow>, i: nat, rt: Runtime, db: Database)
    returns (report: BatchReport, batchCalls: seq<Call>)
    requires i < NumBatches(|rows|, BatchSize)
    ensures report == BatchOutcome(BatchRows(rows, i), Start(i, BatchSize), rt, db)
    ensures batchCalls == BatchCalls(BatchRows(rows, i), rt, db)
  {
    var totalRows := |rows|;
    var startIdx := i * BatchSize;
    var endIdx := if startIdx + BatchSize < totalRows then startIdx + BatchSize else totalRows;
    BatchBounds(i, totalRows, BatchSize);
    assert rows[startIdx..endIdx] == Batch(rows, i, BatchSize);
    var batchDf := DenullAll(rows[startIdx..endIdx]);
    report, batchCalls := LoadBatch(batchDf, startIdx, rt, db);
  }

  lemma LoadAllStep(rows: seq<FrameRow>, i: nat, reports: seq<BatchReport>, calls: seq<Call>,
                    report: BatchReport, batchCalls: seq<Call>, rt: Runtime, db: Database)
    requires i < NumBatches(|rows|, BatchSize) && LoadedUpTo(rows, i, reports, calls, rt, db)
    requires report == BatchOutcome(BatchRows(rows, i), Start(i, BatchSize), rt, db)
    requires batchCalls == BatchCalls(BatchRows(rows, i), rt, db)
    ensures LoadedUpTo(rows, i + 1, reports + [report], calls + batchCalls, rt, db)
  {
    var table := CommittedUpTo(rows, i, rt, db);
    ReplayConcat(State([], []), calls, batchCalls);
    BatchCallsCommit(BatchRows(rows, i), table, rt, db);
    var reports' := reports + [report];
    forall k | 0 <= k < i + 1
      ensures reports'[k] == BatchOutcome(BatchRows(rows, k), Start(k, BatchSize), rt, db)
    {
      if k < i { assert reports'[k] == reports[k]; }
    }
  }

  /** When every bulk insert is accepted, the first k batches commit the bulk
      tuple of every row before the end of batch k - 1, each once, in frame
      order; with k the number of batches, that is every row of the frame. */
  lemma {:induction false} AllBulkAccepted(rows: seq<FrameRow>, k: nat, rt: Runtime, db: Database)
    requires k <= NumBatches(|rows|, BatchSize)
    requires forall i :: 0 <= i < k ==> db.bulk(PrepareAll(BatchRows(rows, i), rt))
    ensures CommittedUpTo(rows, k, rt, db) == PrepareAll(DenullAll(rows[..EndUpTo(|rows|, k, BatchSize)]), rt)
  {
    if k > 0 {
      AllBulkAccepted(rows, k - 1, rt, db);
      PrefixSplit(rows, k, BatchSize);
      PrepareDenullConcat(rows[..EndUpTo(|rows|, k - 1, BatchSize)], Batch(rows, k - 1, BatchSize), rt);
    }
  }

  lemma PrepareDenullConcat(a: seq<FrameRow>, b: seq<FrameRow>, rt: Runtime)
    ensures PrepareAll(DenullAll(a + b), rt) == PrepareAll(DenullAll(a), rt) + PrepareAll(DenullAll(b), rt)
  {
    DenullAllConcat(a, b);
    PrepareAllConcat(DenullAll(a), DenullAll(b), rt);
  }

  lemma DenullAllConcat(a: seq<FrameRow>, b: seq<FrameRow>)
    ensures DenullAll(a + b) == DenullAll(a) + DenullAll(b)
  {
    var l, r := DenullAll(a + b), DenullAll(a) + DenullAll(b);
    forall m | 0 <= m < |l| ensures l[m] == r[m] {
      if m < |a| { assert (a + b)[m] == a[m]; } else { assert (a + b)[m] == b[m - |a|]; }
    }
  }

  lemma PrepareAllConcat(a: seq<FrameRow>, b: seq<FrameRow>, rt: Runtime)
    ensures PrepareAll(a + b, rt) == PrepareAll(a, rt) + PrepareAll(b, rt)
  {
    var l, pa, pb := PrepareAll(a + b, rt), PrepareAll(a, rt), PrepareAll(b, rt);
    forall m | 0 <= m < |a| ensures l[m] == pa[m] {
      assert (a + b)[m] == a[m];
    }
    forall m | |a| <= m < |l| ensures l[m] == pb[m - |a|] {
      assert (a + b)[m] == b[m - |a|];
    }
    assert l == pa + pb;
  }

  // ----- values the preparations keep -----

  /** A frame row built from a normalised observation keeps its delivery, price
      and part_id through null replacement and the bulk preparation: the extra
      validation of lines 202-214 never alters a normalised value. */
  lemma PrepareKeepsNormalised(o: Observation, rt: Runtime)
    ensures var t := PrepareTuple(Denull(ToFrameRow(o, rt)), rt);
            t[1] == VStr(o.partId) && t[5] == DeliveryCell(o.delivery) && t[6] == PriceCell(o.price)
  {
  }

  /** If float() is exact on the values involved, the retry tuple of a normalised
      row equals its bulk tuple: the second coercion changes nothing. */
  lemma RetryMatchesPrepare(o: Observation, rt: Runtime)
    requires forall d :: rt.toFloat(VInt(d)) == Converted(Finite(d as real))
    requires forall x :: rt.toFloat(VFloat(Finite(x))) == Converted(Finite(x))
    ensures RetryTuple(Denull(ToFrameRow(o, rt)), rt) == PrepareTuple(Denull(ToFrameRow(o, rt)), rt)
  {
    var r := Denull(ToFrameRow(o, rt));
    match o.delivery {
      case Some(d) =>
        assert rt.toFloat(VInt(d)) == Converted(Finite(d as real));
        assert Trunc(d as real) == d;
      case None =>
    }
    match o.price {
      case Some(x) => assert rt.toFloat(VFloat(Finite(x))) == Converted(Finite(x));
      case None =>
    }
  }

  // ----- the script -----

  datatype SonarRun =
    | NoSonarData                        // lines 162-166: nothing to load, connection closed, exit
    | Loaded(reports: seq<BatchReport>)

  /** The script from the row loop on: normalise, stop early when there are no
      observations, otherwise build the frame and load it batch by batch. */
  method RunSonar(records: seq<SonarRecord>, rt: Runtime, db: Database)
    returns (run: SonarRun, calls: seq<Call>)
    ensures run == NoSonarData <==> Run(records, rt).rows == []
    ensures run == NoSonarData ==> calls == []
    ensures run.Loaded? ==>
              var frame := Frame(Run(records, rt).rows, rt);
              |run.reports| == NumBatches(|frame|, BatchSize) &&
              (forall i :: 0 <= i < |run.reports| ==>
                 run.reports[i] == BatchOutcome(BatchRows(frame, i), Start(i, BatchSize), rt, db)) &&
              calls == CallsUpTo(frame, |run.reports|, rt, db) &&
              Committed(calls) == CommittedUpTo(frame, |run.reports|, rt, db)
  {
    var sonarRows := Normalise(records, rt);
    if sonarRows == [] {
      return NoSonarData, [];
    }
    var sonarDf := Frame(sonarRows, rt);
    var reports;
    reports, calls := LoadAll(sonarDf, rt, db);
    run := Loaded(reports);
  }
}
