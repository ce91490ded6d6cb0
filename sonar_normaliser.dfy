/** The per-record normalisation loop of src/sonar_results.py: each record's raw
    `sonar_results` value becomes zero or more observation rows, one per
    dictionary entry of the decoded list, carrying the record's part_id. */
module SonarNormaliser {
  import opened Python

  /** The largest BIGINT, used as the bound on |delivery|. */
  const MaxBigint: int := 9223372036854775807
  /** The smallest BIGINT. */
  const MinBigint: int := -9223372036854775808
  /** The double that the literal 1e-10 in the price check denotes. */
  const PriceFloor: real := 1.0000000000000000364321973154977415791655470655996396089904010295867919921875e-10
  /** The double that the literal 1e28 in the price check denotes. */
  const PriceCeiling: real := 9999999999999999583119736832.0
  /** NUMERIC(38,10) has 28 digits before the point: it holds magnitudes below 10^28. */
  const NumericLimit: real := 1e28

  /** The outcome of `if pd.isna(raw_sonar)`: True, False, or a ValueError (an
      array-like value whose truth value is ambiguous). */
  datatype NaTest = NaTrue | NaFalse | NaRaises

  /** One row of the source frame, as the loop reads it. */
  datatype SonarRecord = SonarRecord(partId: Value, sonar: Value, na: NaTest)

  /** One element of `sonar_rows`. */
  datatype Observation = Observation(
    resultId: Value, partId: string, amount: Value, currency: Value, dateSonar: Value,
    delivery: Option<int>, price: Option<real>,
    status: Value, supplierCountry: Value, supplierId: Value, supplierName: Value)

  /** Why a record contributes no rows. */
  datatype Skip =
    | NoneValue       // raw_sonar is None
    | NaValue         // pd.isna(raw_sonar) is True
    | BlankText       // text that strips to "[]" or ""
    | Unparseable     // all three parsers failed
    | EmptyList       // an empty list, native or converted
    | NotIterable     // list(raw_sonar) raised
    | Unbound         // parsed_data was never assigned: NameError, caught by the row handler
    | NotAList        // parsed_data is not a list

  /** A coerced field: its value (None for null), or an exception that escapes to
      the entry's handler, which drops the entry. */
  datatype Coerced<+T> = Coerced(value: Option<T>) | Escaped

  function Abs(x: int): nat {
    if x < 0 then -x else x
  }

  function RealAbs(x: real): real {
    if x < 0.0 then -x else x
  }

  // ----- field coercion (the delivery and price checks) -----

  /** The BIGINT range check on an int delivery. */
  function ClampDelivery(d: int): (r: Option<int>)
    ensures r == Some(d) <==> -MaxBigint <= d <= MaxBigint
    ensures r == None || r == Some(d)
    ensures r.Some? ==> MinBigint <= r.value <= MaxBigint
  {
    if Abs(d) > MaxBigint then None else Some(d)
  }

  /** `delivery = entry.get('delivery')` and its coercion: None stays None, a
      ValueError/TypeError from int() nulls it, any other exception escapes. */
  function CoerceDelivery(v: Value, rt: Runtime): (r: Coerced<int>)
    ensures r == Escaped <==> v != VNone && rt.toInt(v) == OtherError
    ensures r.Coerced? && r.value.Some? <==>
              v != VNone && rt.toInt(v).Converted? && -MaxBigint <= rt.toInt(v).value <= MaxBigint
    ensures r.Coerced? && r.value.Some? ==> r.value.value == rt.toInt(v).value
  {
    if v == VNone then Coerced(None)
    else match rt.toInt(v)
      case Converted(d) => Coerced(ClampDelivery(d))
      case ValueOrTypeError => Coerced(None)
      case OtherError => Escaped
  }

  /** The price range check on a float: kept when it is zero or its magnitude lies
      between the two bounds, both included; infinities and NaN fail both tests. */
  function ClampPrice(f: Float): (r: Option<real>)
    ensures r.Some? <==> f.Finite? && (f.r == 0.0 || PriceFloor <= RealAbs(f.r) <= PriceCeiling)
    ensures r.Some? ==> r.value == f.r && -NumericLimit < r.value < NumericLimit
  {
    match f
    case Finite(p) => if PriceFloor <= RealAbs(p) <= PriceCeiling || p == 0.0 then Some(p) else None
    case Inf(_) => None
    case NaN => None
  }

  /** `price = entry.get('price')` and its coercion: None stays None, a
      ValueError/TypeError from float() nulls it, any other exception escapes. */
  function CoercePrice(v: Value, rt: Runtime): (r: Coerced<real>)
    ensures r == Escaped <==> v != VNone && rt.toFloat(v) == OtherError
    ensures r.Coerced? && r.value.Some? <==>
              v != VNone && rt.toFloat(v).Converted? && ClampPrice(rt.toFloat(v).value).Some?
    ensures r.Coerced? && r.value.Some? ==> Finite(r.value.value) == rt.toFloat(v).value
  {
    if v == VNone then Coerced(None)
    else match rt.toFloat(v)
      case Converted(f) => Coerced(ClampPrice(f))
      case ValueOrTypeError => Coerced(None)
      case OtherError => Escaped
  }

  // ----- one dictionary entry, and the fan-out over a list -----

  /** The observation built from one dict entry, or None when a coercion raised
      something other than ValueError/TypeError (the entry is then dropped). */
  function MakeObservation(partId: string, entry: seq<(Value, Value)>, rt: Runtime): (r: Option<Observation>)
    ensures r.Some? <==> CoerceDelivery(Get(entry, "delivery"), rt).Coerced? &&
                         CoercePrice(Get(entry, "price"), rt).Coerced?
    ensures r.Some? ==> r.value.partId == partId
  {
    var delivery := CoerceDelivery(Get(entry, "delivery"), rt);
    var price := CoercePrice(Get(entry, "price"), rt);
    if delivery.Escaped? || price.Escaped? then None
    else Some(Observation(
      Get(entry, "result_id"), partId, Get(entry, "amount"), Get(entry, "currency"),
      Get(entry, "date_sonar"), delivery.value, price.value, Get(entry, "status"),
      Get(entry, "supplier_country"), Get(entry, "supplier_id"), Get(entry, "supplier_name")))
  }

  /** Every field other than part_id is `entry.get(key)` (None when the key is
      missing), except delivery and price, which are the coerced values. */
  lemma ObservationFields(partId: string, entry: seq<(Value, Value)>, rt: Runtime)
    requires MakeObservation(partId, entry, rt).Some?
    ensures var o := MakeObservation(partId, entry, rt).value;
      o.resultId == Get(entry, "result_id") && o.amount == Get(entry, "amount") &&
      o.currency == Get(entry, "currency") && o.dateSonar == Get(entry, "date_sonar") &&
      o.delivery == CoerceDelivery(Get(entry, "delivery"), rt).value &&
      o.price == CoercePrice(Get(entry, "price"), rt).value &&
      o.status == Get(entry, "status") && o.supplierCountry == Get(entry, "supplier_country") &&
      o.supplierId == Get(entry, "supplier_id") && o.supplierName == Get(entry, "supplier_name")
  {
  }

  /** The rows one element of parsed_data adds: none for a non-dict. */
  function EntryRows(partId: string, e: Value, rt: Runtime): (r: seq<Observation>)
    ensures |r| <= 1
    ensures !e.VDict? ==> r == []
    ensures e.VDict? ==> (r == [] <==> MakeObservation(partId, e.entries, rt).None?)
    ensures forall o :: o in r ==> o.partId == partId
  {
    if e.VDict? then
      match MakeObservation(partId, e.entries, rt)
      case Some(o) => [o]
      case None => []
    else []
  }

  /** The dict elements of a list, in order: the entries the fan-out processes. */
  function Dicts(es: seq<Value>): (ds: seq<seq<(Value, Value)>>)
    decreases |es|
    ensures |ds| <= |es|
  {
    if es == [] then []
    else
      var init := Dicts(es[..|es| - 1]);
      var last := es[|es| - 1];
      if last.VDict? then init + [last.entries] else init
  }

  /** Dicts keeps exactly the dict elements. */
  lemma {:induction false} DictsMembers(es: seq<Value>, d: seq<(Value, Value)>)
    ensures d in Dicts(es) <==> VDict(d) in es
    decreases |es|
  {
    if es != [] {
      DictsMembers(es[..|es| - 1], d);
      assert es == es[..|es| - 1] + [es[|es| - 1]];
    }
  }

  /** The rows `for entry in parsed_data` appends, in order. */
  function Fanout(partId: string, es: seq<Value>, rt: Runtime): (r: seq<Observation>)
    decreases |es|
    ensures |r| <= |Dicts(es)|
    ensures forall o :: o in r ==> o.partId == partId
  {
    if es == [] then []
    else Fanout(partId, es[..|es| - 1], rt) + EntryRows(partId, es[|es| - 1], rt)
  }

  /** When no entry's coercion escapes, the fan-out gives exactly one row per
      dict element, in the list's order, non-dict elements ignored. */
  lemma {:induction false} FanoutOnePerDict(partId: string, es: seq<Value>, rt: Runtime)
    requires forall k :: 0 <= k < |Dicts(es)| ==> MakeObservation(partId, Dicts(es)[k], rt).Some?
    ensures |Fanout(partId, es, rt)| == |Dicts(es)|
    ensures forall k :: 0 <= k < |Dicts(es)| ==>
              MakeObservation(partId, Dicts(es)[k], rt) == Some(Fanout(partId, es, rt)[k])
    decreases |es|
  {
    if es != [] {
      var init := es[..|es| - 1];
      var last := es[|es| - 1];
      var rows := Fanout(partId, init, rt);
      var ds := Dicts(init);
      assert Fanout(partId, es, rt) == rows + EntryRows(partId, last, rt);
      if last.VDict? {
        assert Dicts(es) == ds + [last.entries];
        assert forall k :: 0 <= k < |ds| ==> Dicts(es)[k] == ds[k];
        FanoutOnePerDict(partId, init, rt);
        assert MakeObservation(partId, Dicts(es)[|ds|], rt).Some?;
      } else {
        assert Dicts(es) == ds;
        FanoutOnePerDict(partId, init, rt);
      }
    }
  }

  // ----- the decoding ladder (the NA test, the text parsers, the list cases) -----

  /** `raw_sonar.strip() in ('[]', '')`. */
  predicate Blank(s: string) {
    Strip(s) == "[]" || Strip(s) == ""
  }

  /** The three-parser chain as the code nests it: json.loads, then
      ast.literal_eval, then json.loads after replacing ' by ". */
  function ParseText(s: string, rt: Runtime): Option<Value> {
    match rt.jsonLoads(s)
    case Some(v) => Some(v)
    case None =>
      match rt.literalEval(s)
      case Some(v) => Some(v)
      case None => rt.jsonLoads(ReplaceQuotes(s))
  }

  /** The parser strategies, in the order they are tried. */
  function Strategies(s: string, rt: Runtime): seq<Option<Value>> {
    [rt.jsonLoads(s), rt.literalEval(s), rt.jsonLoads(ReplaceQuotes(s))]
  }

  /** The first successful attempt of an ordered list of attempts. */
  function FirstSuccess(attempts: seq<Option<Value>>): (r: Option<Value>)
    ensures r.None? <==> forall k :: 0 <= k < |attempts| ==> attempts[k].None?
    ensures r.Some? ==> exists k :: 0 <= k < |attempts| && attempts[k] == r &&
                                    forall m :: 0 <= m < k ==> attempts[m].None?
  {
    if attempts == [] then None
    else if attempts[0].Some? then attempts[0]
    else
      var r := FirstSuccess(attempts[1..]);
      assert forall k :: 1 <= k < |attempts| ==> attempts[k] == attempts[1..][k - 1];
      r
  }

  /** The nested try/except chain is the ordered strategy list with first success
      winning; it fails exactly when all three strategies fail. */
  lemma ParserChainInOrder(s: string, rt: Runtime)
    ensures ParseText(s, rt) == FirstSuccess(Strategies(s, rt))
    ensures ParseText(s, rt).None? <==>
              rt.jsonLoads(s).None? && rt.literalEval(s).None? && rt.jsonLoads(ReplaceQuotes(s)).None?
  {
    var a := Strategies(s, rt);
    assert a[1..][1..][1..] == [];
    assert FirstSuccess(a[1..][1..]) == (if a[2].Some? then a[2] else FirstSuccess(a[1..][1..][1..]));
  }

  /** How far one record gets through lines 59-113: whether it is skipped, and
      what parsed_data holds afterwards (prev is its value before the record). */
  datatype Reach = Reach(skip: Option<Skip>, parsed: Option<Value>)

  /** Lines 62-108. A value whose NA test is False goes straight on, leaving
      parsed_data as the previous record left it. */
  function Ladder(raw: Value, na: NaTest, prev: Option<Value>, rt: Runtime): Reach {
    if raw == VNone then Reach(Some(NoneValue), prev)
    else match na
      case NaTrue => Reach(Some(NaValue), prev)
      case NaFalse => Reach(None, prev)
      case NaRaises =>
        match raw
        case VStr(s) =>
          if Blank(s) then Reach(Some(BlankText), prev)
          else (match ParseText(s, rt)
                case Some(v) => Reach(None, Some(v))
                case None => Reach(Some(Unparseable), prev))
        case VList(xs) =>
          if xs == [] then Reach(Some(EmptyList), Some(raw)) else Reach(None, Some(raw))
        case _ =>
          match ToList(raw)
          case None => Reach(Some(NotIterable), prev)
          case Some(xs) =>
            if xs == [] then Reach(Some(EmptyList), Some(VList(xs))) else Reach(None, Some(VList(xs)))
  }

  /** What one record contributes, and parsed_data afterwards. */
  datatype Outcome = Outcome(rows: seq<Observation>, parsed: Option<Value>, skip: Option<Skip>)

  /** One iteration of the row loop (lines 55-159). */
  function Step(rec: SonarRecord, prev: Option<Value>, rt: Runtime): (o: Outcome)
    ensures o.skip.Some? ==> o.rows == []
    ensures forall x :: x in o.rows ==> x.partId == rt.toStr(rec.partId)
  {
    var partId := rt.toStr(rec.partId);
    var reach := Ladder(rec.sonar, rec.na, prev, rt);
    if reach.skip.Some? then Outcome([], reach.parsed, reach.skip)
    else match reach.parsed
      case None => Outcome([], None, Some(Unbound))
      case Some(VList(xs)) => Outcome(Fanout(partId, xs, rt), reach.parsed, None)
      case Some(_) => Outcome([], reach.parsed, Some(NotAList))
  }

  /** sonar_rows and parsed_data after the loop has seen a prefix of the records. */
  datatype Progress = Progress(rows: seq<Observation>, parsed: Option<Value>)

  /** The whole row loop: each record's rows appended in record order, parsed_data
      carried from one record to the next (unbound before the first). */
  function Run(records: seq<SonarRecord>, rt: Runtime): (p: Progress)
    decreases |records|
  {
    if records == [] then Progress([], None)
    else
      var p := Run(records[..|records| - 1], rt);
      var o := Step(records[|records| - 1], p.parsed, rt);
      Progress(p.rows + o.rows, o.parsed)
  }

  /** Every row the loop appends carries the part_id of one of the records. */
  lemma {:induction false} RunPartIds(records: seq<SonarRecord>, rt: Runtime)
    ensures forall x :: x in Run(records, rt).rows ==>
              exists k :: 0 <= k < |records| && x.partId == rt.toStr(records[k].partId)
    decreases |records|
  {
    if records != [] {
      var init := records[..|records| - 1];
      RunPartIds(init, rt);
      assert forall k :: 0 <= k < |init| ==> init[k] == records[k];
    }
  }

  /** Step, given the outcome of the decoding ladder. */
  lemma StepFromReach(rec: SonarRecord, prev: Option<Value>, rt: Runtime, reach: Reach)
    requires reach == Ladder(rec.sonar, rec.na, prev, rt)
    ensures Step(rec, prev, rt).parsed == reach.parsed
    ensures Step(rec, prev, rt).rows ==
              if reach.skip.Some? || reach.parsed.None? || !reach.parsed.value.VList? then []
              else Fanout(rt.toStr(rec.partId), reach.parsed.value.items, rt)
  {
  }

  /** Appending a record to the input appends its outcome's rows to the output. */
  lemma RunSnoc(records: seq<SonarRecord>, r: SonarRecord, rt: Runtime)
    ensures Run(records + [r], rt) ==
            Progress(Run(records, rt).rows + Step(r, Run(records, rt).parsed, rt).rows,
                     Step(r, Run(records, rt).parsed, rt).parsed)
  {
    assert (records + [r])[..|records|] == records;
  }

  /** Lines 59-108 for one record: the NA test and the decoding ladder, with
      `continue` as a skip and parsed_data updated in place. */
  method Decode(row: SonarRecord, parsedData: Option<Value>, rt: Runtime) returns (reach: Reach)
    ensures reach == Ladder(row.sonar, row.na, parsedData, rt)
  {
    var rawSonar := row.sonar;
    reach := Reach(None, parsedData);
    if rawSonar == VNone {
      return Reach(Some(NoneValue), parsedData);
    }
    if row.na == NaTrue {
      return Reach(Some(NaValue), parsedData);
    } else if row.na == NaRaises {
      if rawSonar.VStr? {
        if Blank(rawSonar.s) {
          return Reach(Some(BlankText), parsedData);
        }
        var attempt := rt.jsonLoads(rawSonar.s);
        if attempt.None? {
          attempt := rt.literalEval(rawSonar.s);
        }
        if attempt.None? {
          attempt := rt.jsonLoads(ReplaceQuotes(rawSonar.s));
        }
        if attempt.None? {
          return Reach(Some(Unparseable), parsedData);
        }
        reach := Reach(None, attempt);
      } else if rawSonar.VList? {
        reach := Reach(None, Some(rawSonar));
        if rawSonar.items == [] {
          reach := Reach(Some(EmptyList), Some(rawSonar));
        }
      } else {
        var converted := ToList(rawSonar);
        if converted.None? {
          return Reach(Some(NotIterable), parsedData);
        }
        reach := Reach(None, Some(VList(converted.value)));
        if converted.value == [] {
          reach := Reach(Some(EmptyList), Some(VList(converted.value)));
        }
      }
    }
  }

  /** Lines 116-157 for one element of parsed_data: delivery and price are
      reassigned in place, and the row is appended unless a conversion raised
      something the entry's handler catches. */
  method AppendEntry(sonarRows: seq<Observation>, partId: string, entry: Value, rt: Runtime)
    returns (rows: seq<Observation>)
    ensures rows == sonarRows + EntryRows(partId, entry, rt)
  {
    rows := sonarRows;
    if !entry.VDict? {
      return;
    }
    var delivery := Get(entry.entries, "delivery");
    var deliveryOut: Option<int> := Option.None;
    if delivery != VNone {
      match rt.toInt(delivery) {
        case Converted(d) =>
          deliveryOut := Some(d);
          if Abs(d) > MaxBigint {
            deliveryOut := Option.None;
          }
        case ValueOrTypeError =>
        case OtherError =>
          return;
      }
    }
    var price := Get(entry.entries, "price");
    var priceOut: Option<real> := Option.None;
    if price != VNone {
      match rt.toFloat(price) {
        case Converted(f) =>
          priceOut := ClampPrice(f);
        case ValueOrTypeError =>
        case OtherError =>
          return;
      }
    }
    rows := rows + [Observation(
      Get(entry.entries, "result_id"), partId, Get(entry.entries, "amount"),
      Get(entry.entries, "currency"), Get(entry.entries, "date_sonar"), deliveryOut, priceOut,
      Get(entry.entries, "status"), Get(entry.entries, "supplier_country"),
      Get(entry.entries, "supplier_id"), Get(entry.entries, "supplier_name"))];
  }

  /** The row loop of lines 54-159, with `parsed_data` carried across iterations. */
  method Normalise(records: seq<SonarRecord>, rt: Runtime) returns (sonarRows: seq<Observation>)
    ensures sonarRows == Run(records, rt).rows
  {
    sonarRows := [];
    var parsedData: Option<Value> := None;
    var index := 0;
    while index < |records|
      invariant 0 <= index <= |records|
      invariant Run(records[..index], rt) == Progress(sonarRows, parsedData)
    {
      var row := records[index];
      RunSnoc(records[..index], row, rt);
      assert records[..index + 1] == records[..index] + [row];
      index := index + 1;
      var partId := rt.toStr(row.partId);
      var reach := Decode(row, parsedData, rt);
      StepFromReach(row, parsedData, rt, reach);
      parsedData := reach.parsed;
      if reach.skip.Some? {
        continue;
      }
      if parsedData.None? || !parsedData.value.VList? {
        continue;
      }
      sonarRows := AppendFanout(sonarRows, partId, parsedData.value.items, rt);
    }
    assert records[..|records|] == records;
  }

  /** Lines 111-157: one call of the entry handler per element of parsed_data. */
  method AppendFanout(sonarRows: seq<Observation>, partId: string, entries: seq<Value>, rt: Runtime)
    returns (rows: seq<Observation>)
    ensures rows == sonarRows + Fanout(partId, entries, rt)
  {
    rows := sonarRows;
    for j := 0 to |entries|
      invariant rows == sonarRows + Fanout(partId, entries[..j], rt)
    {
      assert entries[..j + 1][..j] == entries[..j];
      rows := AppendEntry(rows, partId, entries[j], rt);
    }
    assert entries[..|entries|] == entries;
  }

  // ----- properties of the loop -----

  /** A record whose value is None, or whose NA test is True, adds no rows and
      leaves parsed_data as it was. */
  lemma NoneOrNaAddsNothing(records: seq<SonarRecord>, r: SonarRecord, rt: Runtime)
    requires r.sonar == VNone || r.na == NaTrue
    ensures Run(records + [r], rt) == Run(records, rt)
  {
    RunSnoc(records, r, rt);
  }

  /** Text that strips to "[]" or "" adds no rows, is skipped without an error
      being recorded, and leaves parsed_data as it was. */
  lemma BlankTextAddsNothing(records: seq<SonarRecord>, r: SonarRecord, rt: Runtime)
    requires r.na == NaRaises && r.sonar.VStr? && Blank(r.sonar.s)
    ensures Step(r, Run(records, rt).parsed, rt).skip == Some(BlankText)
    ensures Run(records + [r], rt) == Run(records, rt)
  {
    RunSnoc(records, r, rt);
  }

  /** Text that is not blank: if all three parsers fail the record is skipped and
      parsed_data is unchanged; otherwise the first parser that succeeds decides
      the document, and a list document fans out under the record's own part_id. */
  lemma TextRecordOutcome(prev: Option<Value>, r: SonarRecord, rt: Runtime)
    requires r.na == NaRaises && r.sonar.VStr? && !Blank(r.sonar.s)
    ensures var o := Step(r, prev, rt);
            var attempts := Strategies(r.sonar.s, rt);
            (o.skip == Some(Unparseable) <==> forall k :: 0 <= k < 3 ==> attempts[k].None?) &&
            (o.skip == Some(Unparseable) ==> o.parsed == prev && o.rows == []) &&
            (o.skip != Some(Unparseable) ==> o.parsed == FirstSuccess(attempts)) &&
            (FirstSuccess(attempts).Some? && FirstSuccess(attempts).value.VList? ==>
               o.rows == Fanout(rt.toStr(r.partId), FirstSuccess(attempts).value.items, rt)) &&
            (FirstSuccess(attempts).Some? && !FirstSuccess(attempts).value.VList? ==>
               o.skip == Some(NotAList) && o.rows == [])
  {
    ParserChainInOrder(r.sonar.s, rt);
  }

  /** Two texts that reach the parsers and whose first successful strategy gives
      the same document contribute the same rows and leave the same parsed_data,
      whichever of the three encodings each one uses. */
  lemma EncodingInvariant(prev: Option<Value>, r1: SonarRecord, r2: SonarRecord, rt: Runtime)
    requires r1.na == NaRaises && r1.sonar.VStr? && !Blank(r1.sonar.s)
    requires r2.na == NaRaises && r2.sonar.VStr? && !Blank(r2.sonar.s)
    requires r1.partId == r2.partId
    requires FirstSuccess(Strategies(r1.sonar.s, rt)) == FirstSuccess(Strategies(r2.sonar.s, rt))
    ensures Step(r1, prev, rt) == Step(r2, prev, rt)
  {
    ParserChainInOrder(r1.sonar.s, rt);
    ParserChainInOrder(r2.sonar.s, rt);
  }

  /** A native list adds the fan-out of its own entries; an empty one adds nothing. */
  lemma ListRecordOutcome(prev: Option<Value>, r: SonarRecord, rt: Runtime)
    requires r.na == NaRaises && r.sonar.VList?
    ensures Step(r, prev, rt).rows == Fanout(rt.toStr(r.partId), r.sonar.items, rt)
    ensures r.sonar.items == [] ==> Step(r, prev, rt).skip == Some(EmptyList)
    ensures Step(r, prev, rt).parsed == Some(r.sonar)
  {
  }

  /** A value whose NA test returns False without raising never reaches the
      parsers: it reuses the list the previous record left in parsed_data, under
      its own part_id, and is skipped when no earlier record assigned it. */
  lemma NaFalseReusesParsedData(prev: Option<Value>, r: SonarRecord, rt: Runtime)
    requires r.sonar != VNone && r.na == NaFalse
    ensures Step(r, prev, rt).parsed == prev
    ensures prev.None? ==> Step(r, prev, rt).skip == Some(Unbound)
    ensures prev.Some? && prev.value.VList? ==>
              Step(r, prev, rt).rows == Fanout(rt.toStr(r.partId), prev.value.items, rt)
  {
  }

  /** Two records: a native list of two dicts, then a JSON text whose NA test is
      False. The second record's rows are the first record's entries again,
      labelled with the second part_id; its own text is never parsed. */
  lemma StaleParsedDataExample(rt: Runtime, d1: seq<(Value, Value)>, d2: seq<(Value, Value)>)
    requires rt.toStr(VStr("P1")) == "P1" && rt.toStr(VStr("P2")) == "P2"
    requires MakeObservation("P1", d1, rt).Some? && MakeObservation("P1", d2, rt).Some?
    requires MakeObservation("P2", d1, rt).Some? && MakeObservation("P2", d2, rt).Some?
    ensures var a := SonarRecord(VStr("P1"), VList([VDict(d1), VDict(d2)]), NaRaises);
            var b := SonarRecord(VStr("P2"), VStr("[{\"result_id\": \"r9\"}]"), NaFalse);
            Run([a, b], rt).rows ==
              [MakeObservation("P1", d1, rt).value, MakeObservation("P1", d2, rt).value,
               MakeObservation("P2", d1, rt).value, MakeObservation("P2", d2, rt).value]
  {
    var a := SonarRecord(VStr("P1"), VList([VDict(d1), VDict(d2)]), NaRaises);
    var b := SonarRecord(VStr("P2"), VStr("[{\"result_id\": \"r9\"}]"), NaFalse);
    var es := [VDict(d1), VDict(d2)];
    TwoDictFanout("P1", d1, d2, rt);
    TwoDictFanout("P2", d1, d2, rt);
    TwoRecords(rt, a, b, es);
  }

  lemma TwoDictFanout(partId: string, d1: seq<(Value, Value)>, d2: seq<(Value, Value)>, rt: Runtime)
    requires MakeObservation(partId, d1, rt).Some? && MakeObservation(partId, d2, rt).Some?
    ensures Fanout(partId, [VDict(d1), VDict(d2)], rt) ==
              [MakeObservation(partId, d1, rt).value, MakeObservation(partId, d2, rt).value]
  {
    var es := [VDict(d1), VDict(d2)];
    assert es[..1] == [VDict(d1)];
    assert [VDict(d1)][..0] == [];
    assert Dicts(es) == [d1, d2];
    FanoutOnePerDict(partId, es, rt);
  }

  lemma TwoRecords(rt: Runtime, a: SonarRecord, b: SonarRecord, es: seq<Value>)
    requires a.sonar == VList(es) && a.na == NaRaises && b.sonar != VNone && b.na == NaFalse
    ensures Run([a, b], rt).rows == Fanout(rt.toStr(a.partId), es, rt) + Fanout(rt.toStr(b.partId), es, rt)
  {
    OneListRecord(rt, a, es);
    NaFalseReusesParsedData(Some(VList(es)), b, rt);
    RunSnoc([a], b, rt);
    assert [a] + [b] == [a, b];
  }

  lemma OneListRecord(rt: Runtime, a: SonarRecord, es: seq<Value>)
    requires a.sonar == VList(es) && a.na == NaRaises
    ensures Run([a], rt) == Progress(Fanout(rt.toStr(a.partId), es, rt), Some(VList(es)))
  {
    ListRecordOutcome(None, a, rt);
    RunSnoc([], a, rt);
    assert [] + [a] == [a];
  }

  /** The single-quoted payload [{'result_id': 'r1', 'price': '1e30'}], if the
      parsers are reached: strict JSON rejects it and ast.literal_eval reads it; the result is one observation whose
      price is null and whose other fields come from the map. */
  lemma ExtremePriceExample(rt: Runtime, doc: seq<(Value, Value)>)
    requires doc == [(VStr("result_id"), VStr("r1")), (VStr("price"), VStr("1e30"))]
    requires rt.toStr(VStr("P1")) == "P1"
    requires rt.jsonLoads("[{'result_id': 'r1', 'price': '1e30'}]").None?
    requires rt.literalEval("[{'result_id': 'r1', 'price': '1e30'}]") == Some(VList([VDict(doc)]))
    requires rt.toFloat(VStr("1e30")) == Converted(Finite(1e30))
    ensures var r := SonarRecord(VStr("P1"), VStr("[{'result_id': 'r1', 'price': '1e30'}]"), NaRaises);
            Run([r], rt).rows == [Observation(VStr("r1"), "P1", VNone, VNone, VNone, None, None,
                                              VNone, VNone, VNone, VNone)]
  {
    var s := "[{'result_id': 'r1', 'price': '1e30'}]";
    var r := SonarRecord(VStr("P1"), VStr(s), NaRaises);
    var o := Observation(VStr("r1"), "P1", VNone, VNone, VNone, None, None, VNone, VNone, VNone, VNone);
    BracketedNotBlank(s);
    ExtremeDocObservation(rt, doc);
    OneDictFanout("P1", doc, rt);
    TextRecordOutcome(None, r, rt);
    assert Step(r, None, rt).rows == [o];
    RunSnoc([], r, rt);
    assert [] + [r] == [r];
  }

  lemma BracketedNotBlank(s: string)
    requires |s| > 2 && s[0] == '[' && s[|s| - 1] == ']'
    ensures !Blank(s)
  {
    assert SkipSpaces(s, 0) == 0;
    assert BackSpaces(s, 0, |s|) == |s|;
    assert Strip(s) == s;
  }

  lemma OneDictFanout(partId: string, d: seq<(Value, Value)>, rt: Runtime)
    requires MakeObservation(partId, d, rt).Some?
    ensures Fanout(partId, [VDict(d)], rt) == [MakeObservation(partId, d, rt).value]
  {
    assert [VDict(d)][..0] == [];
  }

  lemma ExtremeDocObservation(rt: Runtime, doc: seq<(Value, Value)>)
    requires doc == [(VStr("result_id"), VStr("r1")), (VStr("price"), VStr("1e30"))]
    requires rt.toFloat(VStr("1e30")) == Converted(Finite(1e30))
    ensures MakeObservation("P1", doc, rt) ==
              Some(Observation(VStr("r1"), "P1", VNone, VNone, VNone, None, None, VNone, VNone, VNone, VNone))
  {
    AbsentKey(doc, "delivery");
    assert Get(doc, "price") == VStr("1e30");
    assert ClampPrice(Finite(1e30)) == None;
    assert MakeObservation("P1", doc, rt).Some?;
    ObservationFields("P1", doc, rt);
    AbsentKey(doc, "amount");
    AbsentKey(doc, "currency");
    AbsentKey(doc, "date_sonar");
    AbsentKey(doc, "status");
    AbsentKey(doc, "supplier_country");
    AbsentKey(doc, "supplier_id");
    AbsentKey(doc, "supplier_name");
  }

  lemma AbsentKey(doc: seq<(Value, Value)>, key: string)
    requires doc == [(VStr("result_id"), VStr("r1")), (VStr("price"), VStr("1e30"))]
    requires key != "result_id" && key != "price"
    ensures Get(doc, key) == VNone
  {
    assert Get(doc[1..][1..], key) == VNone;
  }

  // ----- properties of the field checks -----

  /** -2^63 fits a BIGINT but fails the |delivery| check; both ends of the
      symmetric range are kept. */
  lemma DeliveryBounds()
    ensures ClampDelivery(MinBigint) == None
    ensures ClampDelivery(MaxBigint) == Some(MaxBigint)
    ensures ClampDelivery(-MaxBigint) == Some(-MaxBigint)
    ensures ClampDelivery(MaxBigint + 1) == None
  {
  }

  /** Zero is always kept; both bounds are kept (inclusive); just outside them,
      and any infinity or NaN, is nulled. */
  lemma PriceBounds()
    ensures ClampPrice(Finite(0.0)) == Some(0.0)
    ensures ClampPrice(Finite(PriceFloor)) == Some(PriceFloor)
    ensures ClampPrice(Finite(-PriceCeiling)) == Some(-PriceCeiling)
    ensures ClampPrice(Finite(PriceFloor / 2.0)) == None
    ensures ClampPrice(Finite(1e28)) == None
    ensures ClampPrice(Inf(false)) == None && ClampPrice(Inf(true)) == None && ClampPrice(NaN) == None
  {
  }
}
