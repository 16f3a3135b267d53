/**
 * Spreadsheet import: the header row is skipped, every data row with enough
 * cells is decoded field by field into one record, valid records are
 * collected into batches of 400 that are inserted as they fill, and the
 * remainder is inserted at the end. The three importers differ only in
 * which cell failures invalidate a row.
 */
module ImportRows {
  import opened Wrappers

  const BatchSize: nat := 400

  /**
   * The kind of a record field, as reflection reports it; the first field is
   * always the record time. IntKind is an int64 field, Int32Kind an int32 one.
   */
  datatype Kind = FloatKind | IntKind | Int32Kind | StringKind | OtherKind

  datatype FieldValue = Unset | TimeValue(millis: int) | FloatValue(x: real) | IntValue(n: int) | StringValue(s: string)

  datatype Record = Record(shipName: string, values: seq<FieldValue>)

  /** The text parsers: the local date-time layout, strconv.ParseFloat and strconv.ParseInt. */
  datatype Parsers = Parsers(time: string -> Option<int>, float: string -> Option<real>, integer: string -> Option<int>)

  /** The service's executeImport, the command-line importData and its importDataHualong. */
  datatype Importer = ServiceImport | ScriptImport | HualongImport

  /** Whether a non-time cell keeps the row valid. */
  predicate CellAccepted(importer: Importer, kind: Kind, cell: string, p: Parsers)
  {
    match importer
    case ServiceImport =>
      (match kind
       case FloatKind => p.float(cell).Some? || cell == ""
       case IntKind | Int32Kind => p.integer(cell).Some? || cell == ""
       case StringKind => true
       case OtherKind => false)
    case ScriptImport =>
      (match kind
       case FloatKind => p.float(cell).Some?
       case IntKind | Int32Kind => p.integer(cell).Some?
       case StringKind => true
       case OtherKind => false)
    case HualongImport => true
  }

  const TwoTo31: int := 0x8000_0000
  const TwoTo32: int := 0x1_0000_0000

  /** reflect's SetInt on an int32 field keeps the low 32 bits of the int64, read as two's complement. */
  function Int32Wrap(n: int): (w: int)
    ensures -TwoTo31 <= w < TwoTo31
    ensures (n - w) % TwoTo32 == 0
    ensures -TwoTo31 <= n < TwoTo31 ==> w == n
  {
    var m := n % TwoTo32;
    if m >= TwoTo31 then m - TwoTo32 else m
  }

  /** A cell of 2^32 + 1 in an int32 field is stored as 1. */
  lemma Int32FieldWraps(p: Parsers, cell: string)
    requires p.integer(cell) == Some(4294967297)
    ensures CellValue(ServiceImport, Int32Kind, cell, p) == IntValue(1)
    ensures CellValue(ScriptImport, Int32Kind, cell, p) == IntValue(1)
    ensures CellValue(ServiceImport, IntKind, cell, p) == IntValue(4294967297)
  {
  }

  /**
   * The value a non-time cell gives its field; a cell that does not parse
   * leaves the field zero. The Hualong importer has no case for int32
   * fields and leaves them zero too.
   */
  function CellValue(importer: Importer, kind: Kind, cell: string, p: Parsers): FieldValue
  {
    match kind
    case FloatKind => if p.float(cell).Some? then FloatValue(p.float(cell).value) else Unset
    case IntKind => if p.integer(cell).Some? then IntValue(p.integer(cell).value) else Unset
    case Int32Kind =>
      if importer != HualongImport && p.integer(cell).Some? then IntValue(Int32Wrap(p.integer(cell).value)) else Unset
    case StringKind => StringValue(cell)
    case OtherKind => Unset
  }

  /** A row with more cells than fields is valid when its time parses and every other cell is accepted. */
  predicate RowAccepted(importer: Importer, kinds: seq<Kind>, row: seq<string>, p: Parsers)
    requires |row| > |kinds|
  {
    && (|kinds| > 0 ==> p.time(row[1]).Some?)
    && forall i :: 1 <= i < |kinds| ==> CellAccepted(importer, kinds[i], row[i + 1], p)
  }

  /**
   * The command-line importer is the strictest and the Hualong importer
   * the most lenient: it refuses a row only for its time.
   */
  lemma AcceptanceOrdered(kinds: seq<Kind>, row: seq<string>, p: Parsers)
    requires |row| > |kinds|
    ensures RowAccepted(ScriptImport, kinds, row, p) ==> RowAccepted(ServiceImport, kinds, row, p)
    ensures RowAccepted(ServiceImport, kinds, row, p) ==> RowAccepted(HualongImport, kinds, row, p)
    ensures RowAccepted(HualongImport, kinds, row, p) <==> (|kinds| > 0 ==> p.time(row[1]).Some?)
  {
    if RowAccepted(ScriptImport, kinds, row, p) {
      forall i | 1 <= i < |kinds|
        ensures CellAccepted(ServiceImport, kinds[i], row[i + 1], p)
      {
        assert CellAccepted(ScriptImport, kinds[i], row[i + 1], p);
      }
    }
  }

  /** Field i of the record decoded from row: cell i+1 of the row (cell 0 is not read). */
  function FieldOf(importer: Importer, kinds: seq<Kind>, row: seq<string>, p: Parsers, i: nat): FieldValue
    requires i < |kinds| && |row| > |kinds|
  {
    if i == 0 then (if p.time(row[1]).Some? then TimeValue(p.time(row[1]).value) else Unset)
    else CellValue(importer, kinds[i], row[i + 1], p)
  }

  /** The first n fields of the record decoded from row. */
  function FieldsUpTo(importer: Importer, kinds: seq<Kind>, row: seq<string>, p: Parsers, n: nat): (r: seq<FieldValue>)
    requires n <= |kinds| && |row| > |kinds|
    ensures |r| == n && forall k :: 0 <= k < n ==> r[k] == FieldOf(importer, kinds, row, p, k)
  {
    if n == 0 then [] else FieldsUpTo(importer, kinds, row, p, n - 1) + [FieldOf(importer, kinds, row, p, n - 1)]
  }

  /** The record a row yields, if it is valid. */
  function RowRecord(importer: Importer, kinds: seq<Kind>, row: seq<string>, p: Parsers, shipName: string): Option<Record>
    requires |row| > |kinds|
  {
    if RowAccepted(importer, kinds, row, p) then
      Some(Record(shipName, FieldsUpTo(importer, kinds, row, p, |kinds|)))
    else None
  }

  /**
   * The per-row field loop. The service importer stops at the first
   * invalid non-time field (a bad time is noticed after field 1); the
   * command-line importers read every field.
   */
  method DecodeRow(importer: Importer, kinds: seq<Kind>, row: seq<string>, p: Parsers, shipName: string)
    returns (record: Option<Record>)
    requires |row| > |kinds|
    ensures record == RowRecord(importer, kinds, row, p, shipName)
  {
    var values: seq<FieldValue> := [];
    var valid := true;
    var i := 0;
    while i < |kinds|
      invariant 0 <= i <= |kinds| && |values| == i
      invariant forall k :: 0 <= k < i ==> values[k] == FieldOf(importer, kinds, row, p, k)
      invariant valid <==> (i > 0 ==> p.time(row[1]).Some?) && forall k :: 1 <= k < i ==> CellAccepted(importer, kinds[k], row[k + 1], p)
      invariant importer == ServiceImport && !valid ==> i <= 1
    {
      var cell := row[i + 1];
      if i == 0 {
        var t := p.time(cell);
        if t.None? {
          valid := false;
          values := values + [Unset];
        } else {
          values := values + [TimeValue(t.value)];
        }
        i := i + 1;
        continue;
      }
      var kind := kinds[i];
      valid := valid && CellAccepted(importer, kind, cell, p);
      values := values + [CellValue(importer, kind, cell, p)];
      i := i + 1;
      if importer == ServiceImport && !valid {
        break;
      }
    }
    if valid {
      assert i == |kinds|;
      assert values == FieldsUpTo(importer, kinds, row, p, |kinds|);
      record := Some(Record(shipName, values));
    } else {
      record := None;
    }
  }

  /** The records of the valid rows among rows, in order; rows without enough cells are skipped. */
  function ValidRecords(importer: Importer, kinds: seq<Kind>, rows: seq<seq<string>>, p: Parsers, shipName: string): seq<Record>
  {
    if rows == [] then []
    else
      var init := rows[..|rows| - 1];
      var row := rows[|rows| - 1];
      ValidRecords(importer, kinds, init, p, shipName) + RowYield(importer, kinds, row, p, shipName)
  }

  /** The record of one row as a sequence: empty for a short or invalid row. */
  function RowYield(importer: Importer, kinds: seq<Kind>, row: seq<string>, p: Parsers, shipName: string): seq<Record>
  {
    if |row| > |kinds| && RowRecord(importer, kinds, row, p, shipName).Some?
    then [RowRecord(importer, kinds, row, p, shipName).value] else []
  }

  function Flatten<T>(batches: seq<seq<T>>): seq<T>
  {
    if batches == [] then [] else Flatten(batches[..|batches| - 1]) + batches[|batches| - 1]
  }

  /** Every batch before the last holds exactly BatchSize records and was inserted successfully. */
  ghost predicate FullBatches<T>(batches: seq<seq<T>>, insertOk: nat -> bool)
  {
    forall b :: 0 <= b < |batches| - 1 ==> |batches[b]| == BatchSize && insertOk(b)
  }

  datatype ImportResult = EmptyFile | Imported(count: nat) | InsertFailed(count: nat)

  /** The row-count guard and the decoding of one row: no record for a short or invalid row. */
  method RowRecords(importer: Importer, kinds: seq<Kind>, row: seq<string>, p: Parsers, shipName: string)
    returns (produced: seq<Record>)
    ensures produced == RowYield(importer, kinds, row, p, shipName)
  {
    produced := [];
    if |row| > |kinds| {
      var record := DecodeRow(importer, kinds, row, p, shipName);
      if record.Some? {
        produced := [record.value];
      }
    }
  }

  /** The records of row n extend those of the rows before it. */
  method NextRowRecords(importer: Importer, kinds: seq<Kind>, data: seq<seq<string>>, p: Parsers, shipName: string,
                        n: nat)
    returns (produced: seq<Record>)
    requires n < |data|
    ensures ValidRecords(importer, kinds, data[..n + 1], p, shipName)
      == ValidRecords(importer, kinds, data[..n], p, shipName) + produced
    ensures |produced| <= 1
  {
    ValidRecordsStep(importer, kinds, data, p, shipName, n);
    produced := RowRecords(importer, kinds, data[n], p, shipName);
  }

  /** Every batch holds BatchSize records and every insert of them succeeded. */
  ghost predicate Inserted<T>(batches: seq<seq<T>>, insertOk: nat -> bool)
  {
    forall b :: 0 <= b < |batches| ==> |batches[b]| == BatchSize && insertOk(b)
  }

  lemma InsertedStep<T>(batches: seq<seq<T>>, batch: seq<T>, insertOk: nat -> bool)
    requires Inserted(batches, insertOk) && |batch| == BatchSize && insertOk(|batches|)
    ensures Inserted(batches + [batch], insertOk)
  {
  }

  lemma InsertedFull<T>(batches: seq<seq<T>>, batch: seq<T>, insertOk: nat -> bool)
    requires Inserted(batches, insertOk)
    ensures FullBatches(batches + [batch], insertOk) && FullBatches(batches, insertOk)
    ensures forall b :: 0 <= b < |batches| ==> |batches[b]| == BatchSize
  {
  }

  /**
   * The batching step of the row loop of the importers: the records of
   * one row join the batch; a batch that is full is inserted, and on
   * success a new one is started.
   */
  method AddRecords<T>(insertOk: nat -> bool, batches: seq<seq<T>>, batch: seq<T>, produced: seq<T>)
    returns (batches': seq<seq<T>>, batch': seq<T>, failed: bool)
    requires |batch| < BatchSize && |produced| <= 1 && Inserted(batches, insertOk)
    ensures Inserted(batches', insertOk)
    ensures Flatten(batches') + batch' == Flatten(batches) + batch + produced
    ensures !failed ==> |batch'| < BatchSize
    ensures failed ==> |batch'| == BatchSize && !insertOk(|batches'|)
  {
    batches', batch', failed := batches, batch + produced, false;
    if |batch'| >= BatchSize {
      if !insertOk(|batches|) {
        failed := true;
        return;
      }
      FlattenAppend(batches, batch');
      InsertedStep(batches, batch', insertOk);
      batches', batch' := batches + [batch'], [];
    }
  }

  /**
   * The row loop of the importers: full batches are inserted as they fill;
   * on a failed insert the loop stops with that batch in hand. batches are
   * the inserts that succeeded, batch is what is left to insert.
   */
  method FillBatches(importer: Importer, kinds: seq<Kind>, data: seq<seq<string>>, p: Parsers, shipName: string,
                     insertOk: nat -> bool)
    returns (batches: seq<seq<Record>>, batch: seq<Record>, failed: bool)
    ensures Inserted(batches, insertOk)
    ensures !failed ==> |batch| < BatchSize && Flatten(batches) + batch == ValidRecords(importer, kinds, data, p, shipName)
    ensures failed ==> |batch| == BatchSize && !insertOk(|batches|)
    ensures failed ==> Flatten(batches) + batch <= ValidRecords(importer, kinds, data, p, shipName)
  {
    batches, batch, failed := [], [], false;
    var n := 0;
    while n < |data|
      invariant 0 <= n <= |data|
      invariant Flatten(batches) + batch == ValidRecords(importer, kinds, data[..n], p, shipName)
      invariant |batch| < BatchSize
      invariant Inserted(batches, insertOk)
    {
      var produced := NextRowRecords(importer, kinds, data, p, shipName, n);
      batches, batch, failed := AddRecords(insertOk, batches, batch, produced);
      if failed {
        PrefixOfValid(importer, kinds, data, p, shipName, n + 1);
        return;
      }
      n := n + 1;
    }
    assert data[..n] == data;
  }

  /**
   * executeImport, importData and importDataHualong: a sheet with fewer
   * than two rows is refused; otherwise the rows after the header are
   * imported in batches, the remainder last. batches are the insert calls
   * made, in order; insertOk tells whether the insert with that number
   * succeeds, and the count is the number of records inserted.
   */
  method Import(importer: Importer, kinds: seq<Kind>, rows: seq<seq<string>>, p: Parsers, shipName: string,
                insertOk: nat -> bool)
    returns (result: ImportResult, batches: seq<seq<Record>>)
    ensures |rows| < 2 <==> result == EmptyFile
    ensures result == EmptyFile ==> batches == []
    ensures FullBatches(batches, insertOk)
    ensures batches != [] ==> 0 < |batches[|batches| - 1]| <= BatchSize
    ensures result.Imported? ==>
      && Flatten(batches) == ValidRecords(importer, kinds, rows[1..], p, shipName)
      && result.count == |Flatten(batches)|
      && (batches != [] ==> insertOk(|batches| - 1))
    ensures result.InsertFailed? ==>
      && batches != [] && !insertOk(|batches| - 1)
      && result.count == BatchSize * (|batches| - 1)
      && Flatten(batches) <= ValidRecords(importer, kinds, rows[1..], p, shipName)
  {
    if |rows| < 2 {
      return EmptyFile, [];
    }
    var batch, failed;
    batches, batch, failed := FillBatches(importer, kinds, rows[1..], p, shipName, insertOk);
    InsertedFull(batches, batch, insertOk);
    FlattenFullLength(batches);
    var imported := BatchSize * |batches|;
    if failed {
      FlattenAppend(batches, batch);
      return InsertFailed(imported), batches + [batch];
    }
    if |batch| > 0 {
      FlattenAppend(batches, batch);
      batches := batches + [batch];
      if !insertOk(|batches| - 1) {
        return InsertFailed(imported), batches;
      }
      imported := imported + |batch|;
    }
    return Imported(imported), batches;
  }

  /** One more row adds its record, if it has one. */
  lemma ValidRecordsStep(importer: Importer, kinds: seq<Kind>, data: seq<seq<string>>, p: Parsers,
                         shipName: string, n: nat)
    requires n < |data|
    ensures ValidRecords(importer, kinds, data[..n + 1], p, shipName)
      == ValidRecords(importer, kinds, data[..n], p, shipName) + RowYield(importer, kinds, data[n], p, shipName)
  {
    assert data[..n + 1][..n] == data[..n];
  }

  /** The records of a prefix of the rows are a prefix of the records of all rows. */
  lemma {:induction false} PrefixOfValid(importer: Importer, kinds: seq<Kind>, data: seq<seq<string>>, p: Parsers,
                                         shipName: string, n: nat)
    requires n <= |data|
    ensures ValidRecords(importer, kinds, data[..n], p, shipName) <= ValidRecords(importer, kinds, data, p, shipName)
    decreases |data| - n
  {
    if n < |data| {
      PrefixOfValid(importer, kinds, data, p, shipName, n + 1);
      assert data[..n + 1][..n] == data[..n];
    } else {
      assert data[..n] == data;
    }
  }

  lemma FlattenAppend<T>(batches: seq<seq<T>>, batch: seq<T>)
    ensures Flatten(batches + [batch]) == Flatten(batches) + batch
  {
    assert (batches + [batch])[..|batches|] == batches;
  }

  /** Full batches hold BatchSize records each. */
  lemma {:induction false} FlattenFullLength<T>(batches: seq<seq<T>>)
    requires forall b :: 0 <= b < |batches| ==> |batches[b]| == BatchSize
    ensures |Flatten(batches)| == BatchSize * |batches|
  {
    if batches != [] {
      FlattenFullLength(batches[..|batches| - 1]);
    }
  }

  /*
   * The row guard as written: a row is skipped only when it has fewer
   * cells than the record has fields, yet field i is read from cell i+1,
   * so a row with exactly as many cells as fields reads one cell past its
   * end.
   */

  datatype RowOutcome = Skipped | OutOfRange | Decoded(valid: bool)

  /** The field loop as written, from field i on, with the validity so far. */
  function FieldLoopAsWritten(importer: Importer, kinds: seq<Kind>, row: seq<string>, p: Parsers, i: nat, valid: bool): RowOutcome
    requires i <= |kinds|
    decreases |kinds| - i
  {
    if i == |kinds| then Decoded(valid)
    else if i + 1 >= |row| then OutOfRange
    else if i == 0 then FieldLoopAsWritten(importer, kinds, row, p, 1, p.time(row[1]).Some?)
    else
      var v := valid && CellAccepted(importer, kinds[i], row[i + 1], p);
      if importer == ServiceImport && !v then Decoded(false)
      else FieldLoopAsWritten(importer, kinds, row, p, i + 1, v)
  }

  /** One data row as the importers handle it as written. */
  function RowAsWritten(importer: Importer, kinds: seq<Kind>, row: seq<string>, p: Parsers): RowOutcome
  {
    if |row| < |kinds| then Skipped else FieldLoopAsWritten(importer, kinds, row, p, 0, true)
  }

  /** A time field and a text field, and a row of two cells: the loop reads a third cell. */
  lemma RowOfFieldCountReadsPastEnd(importer: Importer, p: Parsers)
    ensures RowAsWritten(importer, [IntKind, StringKind], ["1", "2024-01-01 00:00:00"], p) == OutOfRange
  {
  }

  /** The command-line importers read every field, so every row of exactly as many cells as fields reads past its end. */
  lemma {:induction false} ScriptRowOfFieldCountReadsPastEnd(importer: Importer, kinds: seq<Kind>, row: seq<string>, p: Parsers)
    requires importer != ServiceImport && |kinds| > 0 && |row| == |kinds|
    ensures RowAsWritten(importer, kinds, row, p) == OutOfRange
  {
    if |kinds| > 1 {
      ScriptLoopReadsPastEnd(importer, kinds, row, p, 1, p.time(row[1]).Some?);
    }
  }

  lemma {:induction false} ScriptLoopReadsPastEnd(importer: Importer, kinds: seq<Kind>, row: seq<string>, p: Parsers,
                                                  i: nat, valid: bool)
    requires importer != ServiceImport && 0 < i < |kinds| && |row| == |kinds|
    ensures FieldLoopAsWritten(importer, kinds, row, p, i, valid) == OutOfRange
    decreases |kinds| - i
  {
    if i + 1 < |row| {
      ScriptLoopReadsPastEnd(importer, kinds, row, p, i + 1, valid && CellAccepted(importer, kinds[i], row[i + 1], p));
    }
  }

  /**
   * With the guard corrected to skip rows of no more cells than fields,
   * the loop as written never reads past the row and finds the row valid
   * exactly when RowAccepted holds.
   */
  lemma CorrectedGuardAgrees(importer: Importer, kinds: seq<Kind>, row: seq<string>, p: Parsers)
    requires |row| > |kinds|
    ensures RowAsWritten(importer, kinds, row, p) == Decoded(RowAccepted(importer, kinds, row, p))
  {
    if |kinds| > 0 {
      LoopAgrees(importer, kinds, row, p, 1, p.time(row[1]).Some?);
    }
  }

  lemma {:induction false} LoopAgrees(importer: Importer, kinds: seq<Kind>, row: seq<string>, p: Parsers, i: nat, valid: bool)
    requires |row| > |kinds| && 0 < i <= |kinds|
    requires valid <==> p.time(row[1]).Some? && forall k :: 1 <= k < i ==> CellAccepted(importer, kinds[k], row[k + 1], p)
    requires importer == ServiceImport && !valid ==> i == 1
    ensures FieldLoopAsWritten(importer, kinds, row, p, i, valid) == Decoded(RowAccepted(importer, kinds, row, p))
    decreases |kinds| - i
  {
    if i < |kinds| {
      var v := valid && CellAccepted(importer, kinds[i], row[i + 1], p);
      if importer == ServiceImport && !v {
        assert !CellAccepted(importer, kinds[i], row[i + 1], p) || !p.time(row[1]).Some?;
      } else {
        LoopAgrees(importer, kinds, row, p, i + 1, v);
      }
    }
  }
}
