/** process_data: turns the parsed export, a mapping from a user key to a list of records, into
    canonical rows, skipping bad groups and bad records with a reason and carrying on. */
module Normalizer {
  import opened Wrappers
  import opened Digits
  import opened Json
  import opened Timestamp
  import opened Decimal

  /** A canonical row {month, model, total_cost, user, total_tokens}. */
  datatype Row = Row(month: string, model: string, totalCost: real, user: string, totalTokens: int)

  /** Why a group or a record produced no row; each carries what the source's message reports. */
  datatype SkipReason =
    | InvalidGroup(user: string)
    | InvalidRecord(record: Json)
    | MissingTimestamp(record: Json)
    | InvalidTimestampFormat(timestamp: string)
    | InvalidCost(model: Json, cost: Json)

  /** What one record contributes. */
  datatype Outcome = Emit(row: Row) | Skip(reason: SkipReason)

  /** The rows built so far and the reasons for what was skipped, each in input order. */
  datatype Batch = Batch(rows: seq<Row>, skips: seq<SkipReason>)

  const DefaultModel: string := "Unknown Model"

  /** record.get("timestamp") when it is a non-empty str, the only value that passes the check. */
  function TimestampText(fields: seq<(string, Json)>): (r: Option<string>)
    ensures r.Some? <==> exists s :: Get(fields, "timestamp") == Some(JString(s)) && s != ""
    ensures r.Some? ==> Get(fields, "timestamp") == Some(JString(r.value))
  {
    match Get(fields, "timestamp")
    case Some(JString(s)) => if s != "" then Some(s) else None
    case _ => None
  }

  /** record.get("model", "Unknown Model"). */
  function ModelField(fields: seq<(string, Json)>): Json {
    Get(fields, "model").GetOr(JString(DefaultModel))
  }

  /** record.get("total_cost", "0"). */
  function CostField(fields: seq<(string, Json)>): Json {
    Get(fields, "total_cost").GetOr(JString("0"))
  }

  /** float(cost) if isinstance(cost, (int, float, str)) else 0.0, None where float raises
      ValueError. A Python bool is an int, so true costs 1.0. */
  function CoerceCost(cost: Json): (r: Option<real>)
    ensures r.None? <==> cost.JString? && ParseDecimal(cost.s).None?
  {
    match cost
    case JInt(i) => Some(i as real)
    case JFloat(r) => Some(r)
    case JBool(b) => Some(if b then 1.0 else 0.0)
    case JString(s) => ParseDecimal(s)
    case _ => Some(0.0)
  }

  /** The values `+` adds as integers: ints and bools. */
  predicate IsIntLike(v: Json) { v.JInt? || v.JBool? }

  function IntValue(v: Json): int
    requires IsIntLike(v)
  {
    if v.JInt? then v.i else if v.b then 1 else 0
  }

  predicate TokenFieldOk(fields: seq<(string, Json)>, key: string) {
    Get(fields, key).None? || IsIntLike(Get(fields, key).value)
  }

  /** record.get(key, 0) for a token count. */
  function TokenField(fields: seq<(string, Json)>, key: string): int
    requires TokenFieldOk(fields, key)
  {
    match Get(fields, key)
    case None => 0
    case Some(v) => IntValue(v)
  }

  /** The record passes every check of process_data and reaches the token sum. */
  predicate ReachesRow(rec: Json) {
    && rec.JObject?
    && TimestampText(rec.fields).Some?
    && ParseTimestamp(TimestampText(rec.fields).value).Some?
    && CoerceCost(CostField(rec.fields)).Some?
  }

  /** What the model assumes of a record that reaches the token sum: its model is a string and its
      token counts are integers (anything else makes the sum raise or gives a non-integer). */
  predicate Supported(rec: Json) {
    ReachesRow(rec) ==>
      && ModelField(rec.fields).JString?
      && TokenFieldOk(rec.fields, "input_tokens")
      && TokenFieldOk(rec.fields, "output_tokens")
  }

  predicate SupportedGroup(records: seq<Json>) {
    forall j :: 0 <= j < |records| ==> Supported(records[j])
  }

  predicate SupportedData(data: seq<(string, Json)>) {
    forall i :: 0 <= i < |data| ==> data[i].1.JArray? ==> SupportedGroup(data[i].1.items)
  }

  /** The checks of process_data on one record of the group keyed `user`, in the source's order. */
  function RecordOutcome(user: string, rec: Json): (o: Outcome)
    requires Supported(rec)
    ensures o.Emit? ==> o.row.user == user
  {
    if !rec.JObject? then Skip(InvalidRecord(rec))
    else if TimestampText(rec.fields).None? then Skip(MissingTimestamp(rec))
    else
      var ts := TimestampText(rec.fields).value;
      match ParseTimestamp(ts)
      case None => Skip(InvalidTimestampFormat(ts))
      case Some(t) =>
        var model := ModelField(rec.fields);
        var cost := CostField(rec.fields);
        match CoerceCost(cost)
        case None => Skip(InvalidCost(model, cost))
        case Some(c) =>
          Emit(Row(MonthKey(t), model.s, c, user,
                   TokenField(rec.fields, "input_tokens") + TokenField(rec.fields, "output_tokens")))
  }

  function Append(a: Batch, b: Batch): Batch {
    Batch(a.rows + b.rows, a.skips + b.skips)
  }

  function OutcomeBatch(o: Outcome): Batch {
    match o
    case Emit(r) => Batch([r], [])
    case Skip(w) => Batch([], [w])
  }

  /** The rows and skips of the records of one group, in record order. */
  function GroupBatch(user: string, records: seq<Json>): (b: Batch)
    requires SupportedGroup(records)
  {
    if records == [] then Batch([], [])
    else
      Append(GroupBatch(user, records[..|records| - 1]),
             OutcomeBatch(RecordOutcome(user, records[|records| - 1])))
  }

  /** One user's entry: its records if it is a list, otherwise one InvalidGroup skip. */
  function EntryBatch(entry: (string, Json)): Batch
    requires entry.1.JArray? ==> SupportedGroup(entry.1.items)
  {
    if entry.1.JArray? then GroupBatch(entry.0, entry.1.items) else Batch([], [InvalidGroup(entry.0)])
  }

  /** What process_data builds from the whole mapping, in group order then record order. */
  function Normalize(data: seq<(string, Json)>): (b: Batch)
    requires SupportedData(data)
    ensures |b.rows| + |b.skips| == Units(data)
  {
    if data == [] then Batch([], [])
    else
      assert SupportedData(data[..|data| - 1]) by {
        forall i | 0 <= i < |data| - 1 ensures data[..|data| - 1][i] == data[i] { }
      }
      var last := data[|data| - 1];
      assert |EntryBatch(last).rows| + |EntryBatch(last).skips| == if last.1.JArray? then |last.1.items| else 1 by {
        if last.1.JArray? {
          GroupAccounting(last.0, last.1.items);
        }
      }
      Append(Normalize(data[..|data| - 1]), EntryBatch(last))
  }

  lemma AppendAssoc(a: Batch, b: Batch, c: Batch)
    ensures Append(Append(a, b), c) == Append(a, Append(b, c))
  {
    assert (a.rows + b.rows) + c.rows == a.rows + (b.rows + c.rows);
    assert (a.skips + b.skips) + c.skips == a.skips + (b.skips + c.skips);
  }

  lemma GroupBatchStep(user: string, records: seq<Json>, j: nat)
    requires SupportedGroup(records) && j < |records|
    ensures SupportedGroup(records[..j]) && SupportedGroup(records[..j + 1]) && Supported(records[j])
    ensures GroupBatch(user, records[..j + 1])
         == Append(GroupBatch(user, records[..j]), OutcomeBatch(RecordOutcome(user, records[j])))
  {
    assert records[..j + 1][..j] == records[..j];
    assert forall k | 0 <= k < j + 1 :: records[..j + 1][k] == records[k];
  }

  lemma NormalizeStep(data: seq<(string, Json)>, i: nat)
    requires SupportedData(data) && i < |data|
    ensures SupportedData(data[..i]) && SupportedData(data[..i + 1])
    ensures data[i].1.JArray? ==> SupportedGroup(data[i].1.items)
    ensures Normalize(data[..i + 1]) == Append(Normalize(data[..i]), EntryBatch(data[i]))
  {
    assert data[..i + 1][..i] == data[..i];
    assert forall k | 0 <= k < i + 1 :: data[..i + 1][k] == data[k];
  }

  /** The format loop of process_data: try each format in turn, stop at the first that parses. */
  method StrptimeFirst(ts: string) returns (timestamp: Option<DateTime>)
    ensures timestamp == ParseTimestamp(ts)
  {
    timestamp := None;
    var k := 0;
    while k < |Formats|
      invariant 0 <= k <= |Formats|
      invariant timestamp.None? && FirstMatch(ts, Formats[k..]) == ParseTimestamp(ts)
    {
      var parsed := Strptime(ts, Formats[k]);
      if parsed.Some? {
        timestamp := parsed;
        break;
      }
      k := k + 1;
    }
  }

  /** The body of the record loop: the checks in order, the first failing one giving the skip. */
  method CheckRecord(user: string, record: Json) returns (outcome: Outcome)
    requires Supported(record)
    ensures outcome == RecordOutcome(user, record)
  {
    if !record.JObject? {
      return Skip(InvalidRecord(record));
    }
    var tsValue := Get(record.fields, "timestamp");
    if tsValue.None? || !tsValue.value.JString? || tsValue.value.s == "" {
      return Skip(MissingTimestamp(record));
    }
    var ts := tsValue.value.s;
    var timestamp := StrptimeFirst(ts);
    if timestamp.None? {
      return Skip(InvalidTimestampFormat(ts));
    }
    var month := MonthKey(timestamp.value);
    var model := ModelField(record.fields);
    var cost := CostField(record.fields);
    var amount := CoerceCost(cost);
    if amount.None? {
      return Skip(InvalidCost(model, cost));
    }
    var totalTokens := TokenField(record.fields, "input_tokens") + TokenField(record.fields, "output_tokens");
    return Emit(Row(month, model.s, amount.value, user, totalTokens));
  }

  /** The record loop of process_data for the group keyed `user`: every record goes through the
      checks and what it yields is appended to the rows or to the skips built so far. */
  method ProcessRecords(user: string, items: seq<Json>, rows0: seq<Row>, skips0: seq<SkipReason>)
    returns (rows: seq<Row>, skips: seq<SkipReason>)
    requires SupportedGroup(items)
    ensures Batch(rows, skips) == Append(Batch(rows0, skips0), GroupBatch(user, items))
  {
    rows, skips := rows0, skips0;
    var j := 0;
    assert items[..0] == [];
    while j < |items|
      invariant 0 <= j <= |items|
      invariant SupportedGroup(items[..j])
      invariant Batch(rows, skips) == Append(Batch(rows0, skips0), GroupBatch(user, items[..j]))
    {
      GroupBatchStep(user, items, j);
      ghost var done := GroupBatch(user, items[..j]);
      var outcome := CheckRecord(user, items[j]);
      AppendAssoc(Batch(rows0, skips0), done, OutcomeBatch(outcome));
      match outcome {
        case Emit(row) => rows := rows + [row];
        case Skip(reason) => skips := skips + [reason];
      }
      j := j + 1;
    }
    assert items[..|items|] == items;
  }

  /** process_data: the loop over the mapping's entries; an entry whose value is not a list is
      skipped as a whole and the loop goes on. */
  method ProcessData(data: seq<(string, Json)>) returns (rows: seq<Row>, skips: seq<SkipReason>)
    requires SupportedData(data)
    ensures Batch(rows, skips) == Normalize(data)
  {
    rows, skips := [], [];
    var i := 0;
    while i < |data|
      invariant 0 <= i <= |data|
      invariant SupportedData(data[..i])
      invariant Batch(rows, skips) == Normalize(data[..i])
    {
      var (user, records) := data[i];
      NormalizeStep(data, i);
      if !records.JArray? {
        skips := skips + [InvalidGroup(user)];
        i := i + 1;
        continue;
      }
      rows, skips := ProcessRecords(user, records.items, rows, skips);
      i := i + 1;
    }
    assert data[..|data|] == data;
  }

  // ---------------------------------------------------------------------------------------
  // Properties of the normaliser
  // ---------------------------------------------------------------------------------------

  /** The records of a group are checked one after another and independently: the group's rows
      and skips are those of its first part followed by those of the rest. */
  lemma {:induction false} GroupBatchAppend(user: string, r1: seq<Json>, r2: seq<Json>)
    requires SupportedGroup(r1) && SupportedGroup(r2)
    ensures SupportedGroup(r1 + r2)
    ensures GroupBatch(user, r1 + r2) == Append(GroupBatch(user, r1), GroupBatch(user, r2))
    decreases |r2|
  {
    if r2 == [] {
      assert r1 + r2 == r1;
    } else {
      var init, last := r2[..|r2| - 1], r2[|r2| - 1];
      SplitLast(r1, r2);
      GroupBatchAppend(user, r1, init);
      GroupBatchSnoc(user, init, last);
      GroupBatchSnoc(user, r1 + init, last);
      AppendAssoc(GroupBatch(user, r1), GroupBatch(user, init), OutcomeBatch(RecordOutcome(user, last)));
    }
  }

  /** Splitting the last element off a non-empty sequence and off a concatenation ending in it. */
  lemma SplitLast<T>(a: seq<T>, b: seq<T>)
    requires b != []
    ensures forall k :: 0 <= k < |b| - 1 ==> b[..|b| - 1][k] == b[k]
    ensures b == b[..|b| - 1] + [b[|b| - 1]]
    ensures a + b == (a + b[..|b| - 1]) + [b[|b| - 1]]
  {
  }

  /** One more record at the end of a group adds its outcome at the end. */
  lemma GroupBatchSnoc(user: string, records: seq<Json>, rec: Json)
    requires SupportedGroup(records) && Supported(rec)
    ensures SupportedGroup(records + [rec])
    ensures GroupBatch(user, records + [rec])
         == Append(GroupBatch(user, records), OutcomeBatch(RecordOutcome(user, rec)))
  {
    var r := records + [rec];
    assert forall k | 0 <= k < |records| :: r[k] == records[k];
    assert r[..|records|] == records;
  }

  /** The entries of the mapping are processed one after another and independently: rows come
      in group order, and a group never affects what another group yields. */
  lemma {:induction false} NormalizeAppend(d1: seq<(string, Json)>, d2: seq<(string, Json)>)
    requires SupportedData(d1) && SupportedData(d2)
    ensures SupportedData(d1 + d2)
    ensures Normalize(d1 + d2) == Append(Normalize(d1), Normalize(d2))
    decreases |d2|
  {
    if d2 == [] {
      assert d1 + d2 == d1;
    } else {
      var init, last := d2[..|d2| - 1], d2[|d2| - 1];
      SplitLast(d1, d2);
      NormalizeAppend(d1, init);
      NormalizeSnoc(init, last);
      NormalizeSnoc(d1 + init, last);
      AppendAssoc(Normalize(d1), Normalize(init), EntryBatch(last));
    }
  }

  /** One more entry at the end of the mapping adds its batch at the end. */
  lemma NormalizeSnoc(data: seq<(string, Json)>, entry: (string, Json))
    requires SupportedData(data) && (entry.1.JArray? ==> SupportedGroup(entry.1.items))
    ensures SupportedData(data + [entry])
    ensures Normalize(data + [entry]) == Append(Normalize(data), EntryBatch(entry))
  {
    var d := data + [entry];
    assert forall k | 0 <= k < |data| :: d[k] == data[k];
    assert d[..|data|] == data;
  }

  /** A group whose value is not a list contributes no row and exactly one InvalidGroup skip,
      and the groups before and after it are processed as if it were absent. */
  lemma InvalidGroupSkipped(d1: seq<(string, Json)>, user: string, value: Json, d2: seq<(string, Json)>)
    requires SupportedData(d1) && SupportedData(d2) && !value.JArray?
    ensures SupportedData(d1 + [(user, value)] + d2)
    ensures Normalize(d1 + [(user, value)] + d2)
         == Batch(Normalize(d1).rows + Normalize(d2).rows,
                  Normalize(d1).skips + [InvalidGroup(user)] + Normalize(d2).skips)
  {
    SingleInvalidGroup(user, value);
    NormalizeSandwich(d1, [(user, value)], d2);
    SkipBetween(Normalize(d1), InvalidGroup(user), Normalize(d2));
  }

  lemma SingleInvalidGroup(user: string, value: Json)
    requires !value.JArray?
    ensures SupportedData([(user, value)])
    ensures Normalize([(user, value)]) == Batch([], [InvalidGroup(user)])
  {
    var one := [(user, value)];
    assert one[..0] == [];
    assert Normalize(one) == Append(Batch([], []), EntryBatch(one[0]));
  }

  lemma NormalizeSandwich(d1: seq<(string, Json)>, d: seq<(string, Json)>, d2: seq<(string, Json)>)
    requires SupportedData(d1) && SupportedData(d) && SupportedData(d2)
    ensures SupportedData(d1 + d + d2)
    ensures Normalize(d1 + d + d2) == Append(Append(Normalize(d1), Normalize(d)), Normalize(d2))
  {
    NormalizeAppend(d1, d);
    NormalizeAppend(d1 + d, d2);
  }

  /** A skip between two batches adds that skip and nothing else. */
  lemma SkipBetween(a: Batch, w: SkipReason, b: Batch)
    ensures Append(Append(a, Batch([], [w])), b) == Batch(a.rows + b.rows, a.skips + [w] + b.skips)
  {
    assert a.rows + [] == a.rows;
  }

  /** A record that fails a check contributes no row and exactly its skip reason, and the records
      around it are processed as if it were absent. */
  lemma SkippedRecord(user: string, r1: seq<Json>, rec: Json, r2: seq<Json>)
    requires SupportedGroup(r1) && SupportedGroup(r2) && Supported(rec)
    requires RecordOutcome(user, rec).Skip?
    ensures SupportedGroup(r1 + [rec] + r2)
    ensures GroupBatch(user, r1 + [rec] + r2)
         == Batch(GroupBatch(user, r1).rows + GroupBatch(user, r2).rows,
                  GroupBatch(user, r1).skips + [RecordOutcome(user, rec).reason] + GroupBatch(user, r2).skips)
  {
    SingleSkip(user, rec);
    GroupSandwich(user, r1, [rec], r2);
    SkipBetween(GroupBatch(user, r1), RecordOutcome(user, rec).reason, GroupBatch(user, r2));
  }

  lemma GroupSandwich(user: string, r1: seq<Json>, r: seq<Json>, r2: seq<Json>)
    requires SupportedGroup(r1) && SupportedGroup(r) && SupportedGroup(r2)
    ensures SupportedGroup(r1 + r + r2)
    ensures GroupBatch(user, r1 + r + r2) == Append(Append(GroupBatch(user, r1), GroupBatch(user, r)), GroupBatch(user, r2))
  {
    GroupBatchAppend(user, r1, r);
    GroupBatchAppend(user, r1 + r, r2);
  }

  lemma SingleSkip(user: string, rec: Json)
    requires Supported(rec) && RecordOutcome(user, rec).Skip?
    ensures SupportedGroup([rec])
    ensures GroupBatch(user, [rec]) == Batch([], [RecordOutcome(user, rec).reason])
  {
    assert [rec][..0] == [];
  }

  /** Every row of a group is the row one of its records emits. */
  lemma {:induction false} GroupRowOrigin(user: string, records: seq<Json>, k: nat)
    requires SupportedGroup(records) && k < |GroupBatch(user, records).rows|
    ensures exists j :: 0 <= j < |records| && RecordOutcome(user, records[j]) == Emit(GroupBatch(user, records).rows[k])
    decreases |records|
  {
    var n := |records| - 1;
    var init := records[..n];
    GroupBatchStep(user, records, n);
    assert records[..n + 1] == records;
    var o := RecordOutcome(user, records[n]);
    if k < |GroupBatch(user, init).rows| {
      GroupRowOrigin(user, init, k);
      var j :| 0 <= j < |init| && RecordOutcome(user, init[j]) == Emit(GroupBatch(user, init).rows[k]);
      assert init[j] == records[j];
    } else {
      assert o.Emit? && GroupBatch(user, records).rows[k] == o.row;
    }
  }

  /** Every row comes from a record of a list-valued group: it is what that record emits, so its
      user is the group's key (the records' own "user" fields are ignored). */
  lemma {:induction false} RowOrigin(data: seq<(string, Json)>, k: nat)
    requires SupportedData(data) && k < |Normalize(data).rows|
    ensures exists i, j :: 0 <= i < |data| && data[i].1.JArray? && 0 <= j < |data[i].1.items|
              && RecordOutcome(data[i].0, data[i].1.items[j]) == Emit(Normalize(data).rows[k])
    ensures Normalize(data).rows[k].user in set i | 0 <= i < |data| && data[i].1.JArray? :: data[i].0
    decreases |data|
  {
    var n := |data| - 1;
    var init := data[..n];
    NormalizeStep(data, n);
    assert data[..n + 1] == data;
    var row := Normalize(data).rows[k];
    if k < |Normalize(init).rows| {
      RowOrigin(init, k);
      var i, j :| 0 <= i < |init| && init[i].1.JArray? && 0 <= j < |init[i].1.items|
        && RecordOutcome(init[i].0, init[i].1.items[j]) == Emit(Normalize(init).rows[k]);
      assert init[i] == data[i];
      EmittedUser(data[i].0, data[i].1.items[j]);
    } else {
      var k2 := k - |Normalize(init).rows|;
      assert data[n].1.JArray?;
      GroupRowOrigin(data[n].0, data[n].1.items, k2);
      var j :| 0 <= j < |data[n].1.items|
        && RecordOutcome(data[n].0, data[n].1.items[j]) == Emit(GroupBatch(data[n].0, data[n].1.items).rows[k2]);
      EmittedUser(data[n].0, data[n].1.items[j]);
    }
  }

  lemma EmittedUser(user: string, rec: Json)
    requires Supported(rec) && RecordOutcome(user, rec).Emit?
    ensures RecordOutcome(user, rec).row.user == user
  {
  }

  /** The shape of every month key: YYYY-MM with a year from 1 and a month from 1 to 12. */
  predicate WellFormedMonth(m: string) {
    && |m| == 7 && m[4] == '-' && AllDigits(m[..4]) && AllDigits(m[5..])
    && 1 <= DigitsValue(m[..4]) && 1 <= DigitsValue(m[5..]) <= 12
  }

  /** What an emitted row holds: the month of the record's timestamp as the first format that
      parses it reads it, the record's model or "Unknown Model", the group's key as user, and
      input_tokens + output_tokens with a missing count as 0. */
  lemma EmittedRow(user: string, rec: Json)
    requires Supported(rec) && RecordOutcome(user, rec).Emit?
    ensures rec.JObject?
    ensures var row := RecordOutcome(user, rec).row;
      && (exists s :: Get(rec.fields, "timestamp") == Some(JString(s)) && s != ""
            && ParseTimestamp(s).Some? && row.month == MonthKey(ParseTimestamp(s).value))
      && WellFormedMonth(row.month)
      && row.user == user
      && (Get(rec.fields, "model").None? ==> row.model == DefaultModel)
      && (Get(rec.fields, "model").Some? ==> Get(rec.fields, "model") == Some(JString(row.model)))
      && row.totalTokens == TokenField(rec.fields, "input_tokens") + TokenField(rec.fields, "output_tokens")
  {
    var s := TimestampText(rec.fields).value;
    assert Get(rec.fields, "timestamp") == Some(JString(s));
  }

  /** A record with a fixed-width timestamp YYYY-MM-DDTHH:MM:SS[.ffffff] lands in the month
      spelled by its first seven characters. */
  lemma IsoTimestampMonth(user: string, rec: Json, s: string)
    requires Supported(rec) && rec.JObject? && Get(rec.fields, "timestamp") == Some(JString(s))
    requires IsoShaped(s) && ValidDateTime(IsoFields(s))
    ensures RecordOutcome(user, rec).Emit? ==> RecordOutcome(user, rec).row.month == s[..7]
  {
    CanonicalTimestamp(s);
  }

  /** Every row of the batch has a well-formed month. */
  lemma RowsHaveWellFormedMonths(data: seq<(string, Json)>)
    requires SupportedData(data)
    ensures forall k :: 0 <= k < |Normalize(data).rows| ==> WellFormedMonth(Normalize(data).rows[k].month)
  {
    forall k | 0 <= k < |Normalize(data).rows|
      ensures WellFormedMonth(Normalize(data).rows[k].month)
    {
      RowOrigin(data, k);
      var i, j :| 0 <= i < |data| && data[i].1.JArray? && 0 <= j < |data[i].1.items|
        && RecordOutcome(data[i].0, data[i].1.items[j]) == Emit(Normalize(data).rows[k]);
      EmittedRow(data[i].0, data[i].1.items[j]);
    }
  }

  /** Which check a record fails, in order, decides its skip; a record that passes them all
      yields a row. */
  lemma SkipReasons(user: string, rec: Json)
    requires Supported(rec)
    ensures RecordOutcome(user, rec) == Skip(InvalidRecord(rec)) <==> !rec.JObject?
    ensures RecordOutcome(user, rec) == Skip(MissingTimestamp(rec))
        <==> rec.JObject? && TimestampText(rec.fields).None?
    ensures RecordOutcome(user, rec).Skip? && RecordOutcome(user, rec).reason.InvalidTimestampFormat?
        <==> rec.JObject? && TimestampText(rec.fields).Some? && ParseTimestamp(TimestampText(rec.fields).value).None?
    ensures RecordOutcome(user, rec).Skip? && RecordOutcome(user, rec).reason.InvalidCost?
        <==> rec.JObject? && TimestampText(rec.fields).Some? && ParseTimestamp(TimestampText(rec.fields).value).Some?
             && CoerceCost(CostField(rec.fields)).None?
    ensures RecordOutcome(user, rec).Emit? <==> ReachesRow(rec)
  {
  }

  /** The number of outcomes the input calls for: one per record of a list-valued group and one
      per group that is not a list. */
  function Units(data: seq<(string, Json)>): nat {
    if data == [] then 0
    else Units(data[..|data| - 1]) + (if data[|data| - 1].1.JArray? then |data[|data| - 1].1.items| else 1)
  }

  /** Every record of a group yields exactly one row or one skip. */
  lemma {:induction false} GroupAccounting(user: string, records: seq<Json>)
    requires SupportedGroup(records)
    ensures |GroupBatch(user, records).rows| + |GroupBatch(user, records).skips| == |records|
    decreases |records|
  {
    if records != [] {
      var init := records[..|records| - 1];
      assert SupportedGroup(init) by {
        assert forall j | 0 <= j < |init| :: init[j] == records[j];
      }
      GroupAccounting(user, init);
    }
  }

  /** total_cost coercion, for a record whose timestamp passes: absent gives 0, a number its
      value, a string the number it spells or a skip, and null, a list or an object 0 without
      a skip. */
  lemma CostRules(user: string, rec: Json)
    requires Supported(rec) && rec.JObject? && TimestampText(rec.fields).Some?
    requires ParseTimestamp(TimestampText(rec.fields).value).Some?
    ensures var o := RecordOutcome(user, rec);
            var c := Get(rec.fields, "total_cost");
      && (c.None? ==> o.Emit? && o.row.totalCost == 0.0)
      && (c.Some? && c.value.JInt? ==> o.Emit? && o.row.totalCost == c.value.i as real)
      && (c.Some? && c.value.JFloat? ==> o.Emit? && o.row.totalCost == c.value.r)
      && (c.Some? && c.value.JBool? ==> o.Emit? && o.row.totalCost == if c.value.b then 1.0 else 0.0)
      && (c.Some? && c.value.JString? && ParseDecimal(c.value.s).Some? ==>
            o.Emit? && o.row.totalCost == ParseDecimal(c.value.s).value)
      && (c.Some? && (c.value.JNull? || c.value.JArray? || c.value.JObject?) ==>
            o.Emit? && o.row.totalCost == 0.0)
      && (o.Skip? <==> c.Some? && c.value.JString? && ParseDecimal(c.value.s).None?)
  {
    IntRoundTrip(0);
    assert IntToString(0) == "0";
  }

  /** A numeric string costs the number it spells: "12" costs 12. */
  lemma NumericStringCost(user: string, rec: Json, i: int)
    requires Supported(rec) && rec.JObject? && TimestampText(rec.fields).Some?
    requires ParseTimestamp(TimestampText(rec.fields).value).Some?
    requires Get(rec.fields, "total_cost") == Some(JString(IntToString(i)))
    ensures RecordOutcome(user, rec).Emit? && RecordOutcome(user, rec).row.totalCost == i as real
  {
    IntRoundTrip(i);
  }

  /** One user's key holding one record with a plain timestamp and an integer cost: one row, in
      the timestamp's month, for that user, with the default model and no tokens. */
  lemma GroupingKeyExample()
    ensures var rec := JObject([("timestamp", JString("2024-11-01T10:00:00")), ("total_cost", JInt(1))]);
      Normalize([("alice@x.com", JArray([rec]))])
        == Batch([Row("2024-11", DefaultModel, 1.0, "alice@x.com", 0)], [])
  {
    var rec := JObject([("timestamp", JString("2024-11-01T10:00:00")), ("total_cost", JInt(1))]);
    ExampleRecord();
    SingleRecordUpload("alice@x.com", rec);
  }

  /** An upload of one user holding one record gives exactly that record's outcome. */
  lemma SingleRecordUpload(user: string, rec: Json)
    requires Supported(rec)
    ensures SupportedData([(user, JArray([rec]))])
    ensures Normalize([(user, JArray([rec]))]) == OutcomeBatch(RecordOutcome(user, rec))
  {
    var data := [(user, JArray([rec]))];
    assert [rec][..0] == [];
    assert data[..0] == [];
    assert SupportedGroup([rec]);
    var b := OutcomeBatch(RecordOutcome(user, rec));
    assert GroupBatch(user, [rec]) == Append(Batch([], []), b);
    assert Append(Batch([], []), b) == b;
    assert EntryBatch(data[0]) == b;
    assert Normalize(data) == Append(Batch([], []), b);
  }

  lemma ExampleRecord()
    ensures var rec := JObject([("timestamp", JString("2024-11-01T10:00:00")), ("total_cost", JInt(1))]);
      Supported(rec) && RecordOutcome("alice@x.com", rec) == Emit(Row("2024-11", DefaultModel, 1.0, "alice@x.com", 0))
  {
    var ts := "2024-11-01T10:00:00";
    var rec := JObject([("timestamp", JString(ts)), ("total_cost", JInt(1))]);
    ExampleTimestamp();
    ExampleLookups(ts, rec.fields);
    assert ReachesRow(rec);
    OutcomeOfParsed("alice@x.com", rec, ts, DateTime(2024, 11, 1, 10, 0, 0, 0), 1.0);
  }

  lemma ExampleLookups(ts: string, f: seq<(string, Json)>)
    requires f == [("timestamp", JString(ts)), ("total_cost", JInt(1))] && ts != ""
    ensures TimestampText(f) == Some(ts)
    ensures ModelField(f) == JString(DefaultModel)
    ensures CoerceCost(CostField(f)) == Some(1.0)
    ensures TokenFieldOk(f, "input_tokens") && TokenFieldOk(f, "output_tokens")
    ensures TokenField(f, "input_tokens") + TokenField(f, "output_tokens") == 0
  {
    assert f[..1][..0] == [] && f[..1] == [f[0]];
    assert "total_cost"[1] != "timestamp"[1];
    assert Get(f, "timestamp") == Some(JString(ts));
    assert Get(f, "total_cost") == Some(JInt(1));
    assert Get(f, "model").None? by { assert "model"[0] == 'm'; }
    assert Get(f, "input_tokens").None? by { assert "input_tokens"[0] == 'i'; }
    assert Get(f, "output_tokens").None? by { assert "output_tokens"[0] == 'o'; }
  }

  /** A record whose timestamp and cost both convert is emitted with those values. */
  lemma OutcomeOfParsed(user: string, rec: Json, ts: string, t: DateTime, c: real)
    requires Supported(rec) && rec.JObject? && TimestampText(rec.fields) == Some(ts)
    requires ParseTimestamp(ts) == Some(t) && CoerceCost(CostField(rec.fields)) == Some(c)
    ensures RecordOutcome(user, rec) == Emit(Row(MonthKey(t), ModelField(rec.fields).s, c, user,
      TokenField(rec.fields, "input_tokens") + TokenField(rec.fields, "output_tokens")))
  {
  }
}
