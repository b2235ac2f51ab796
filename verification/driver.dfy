/** The inference driver: option checks, class lookup, input discovery,
    checkpoint choice, then the loop that writes the header once and each
    batch's records after it. The TensorFlow session, the reader threads and
    the queue are abstracted into the list of scored batches the loop
    receives, in the order it receives them. */
module Driver {

  import opened Errors
  import opened Batches
  import opened OutputFile
  import opened Config

  /** All rows of a list of batches, batch after batch. */
  function Flatten(batches: seq<Batch>): seq<Row> {
    if |batches| == 0 then []
    else Flatten(batches[..|batches| - 1]) + batches[|batches| - 1]
  }

  /** The example counter after the given batches: the sum of their lengths. */
  function SumLengths(batches: seq<Batch>): nat {
    if |batches| == 0 then 0
    else SumLengths(batches[..|batches| - 1]) + |batches[|batches| - 1]|
  }

  /** The counter counts rows: the summed batch lengths are the number of
      rows in all batches together. */
  lemma {:induction false} FlattenLength(batches: seq<Batch>)
    ensures |Flatten(batches)| == SumLengths(batches)
    decreases |batches|
  {
    if |batches| > 0 {
      FlattenLength(batches[..|batches| - 1]);
    }
  }

  /** Row r of batch j sits right after the rows of the batches before j. */
  lemma {:induction false} FlattenPosition(batches: seq<Batch>, j: nat, r: nat)
    requires j < |batches| && r < |batches[j]|
    ensures SumLengths(batches[..j]) + r < |Flatten(batches)|
    ensures Flatten(batches)[SumLengths(batches[..j]) + r] == batches[j][r]
    decreases |batches|
  {
    var front := batches[..|batches| - 1];
    FlattenLength(front);
    FlattenLength(batches[..j]);
    if j < |batches| - 1 {
      assert front[..j] == batches[..j];
      FlattenPosition(front, j, r);
    } else {
      assert batches[..j] == front;
    }
  }

  lemma PrefixStep(batches: seq<Batch>, i: nat)
    requires i < |batches|
    ensures Flatten(batches[..i + 1]) == Flatten(batches[..i]) + batches[i]
    ensures SumLengths(batches[..i + 1]) == SumLengths(batches[..i]) + |batches[i]|
  {
    assert batches[..i + 1][..i] == batches[..i];
  }

  /** The file holds the header, then one correct record per row, in row
      order, and nothing else. */
  ghost predicate Written(file: seq<Line>, rows: seq<Row>) {
    && |file| == |rows| + 1
    && file[0] == HeaderLine
    && forall p :: 1 <= p < |file| ==> RecordFor(file[p], rows[p - 1])
  }

  /** A body line holding a correct record for the row. */
  ghost predicate RecordFor(line: Line, row: Row) {
    line.Body? && Scored(line.record, row)
  }

  lemma WrittenExtend(file: seq<Line>, rows: seq<Row>, records: seq<Record>, batch: Batch)
    requires Written(file, rows)
    requires |records| == |batch|
    requires forall i :: 0 <= i < |batch| ==> Scored(records[i], batch[i])
    ensures Written(file + BodyLines(records), rows + batch)
  {
    var file' := file + BodyLines(records);
    var rows' := rows + batch;
    forall p | 1 <= p < |file'|
      ensures RecordFor(file'[p], rows'[p - 1])
    {
      if p > |rows| {
        var k := p - 1 - |rows|;
        assert file'[p] == Body(records[k]);
        assert rows'[p - 1] == batch[k];
        assert Scored(records[k], batch[k]);
      } else {
        assert file'[p] == file[p];
        assert rows'[p - 1] == rows[p - 1];
      }
    }
    assert file'[0] == HeaderLine;
    assert |file'| == |rows'| + 1;
  }

  predicate AllWellShaped(batches: seq<Batch>) {
    forall i :: 0 <= i < |batches| ==> WellShapedBatch(batches[i])
  }

  /** Every batch of the list can be formatted. */
  predicate AllScorable(batches: seq<Batch>) {
    forall j :: 0 <= j < |batches| ==> AllRowsScorable(batches[j])
  }

  /** The formattable prefix grows by one batch. Stated apart from the loop
      to keep its verification within the resource budget. */
  lemma ScorableStep(batches: seq<Batch>, i: nat)
    requires i < |batches| && AllRowsScorable(batches[i])
    requires forall j :: 0 <= j < i ==> AllRowsScorable(batches[j])
    ensures forall j :: 0 <= j < i + 1 ==> AllRowsScorable(batches[j])
  {
  }

  /** The records of the first i batches, batch after batch. */
  function RecordsUpTo(batches: seq<Batch>, i: nat): seq<Record>
    requires i <= |batches| && AllWellShaped(batches)
    requires forall j :: 0 <= j < i ==> AllRowsScorable(batches[j])
  {
    if i == 0 then []
    else RecordsUpTo(batches, i - 1) + FormatLines(batches[i - 1]).value
  }

  /** Appending a batch's records to the file appends their body lines.
      Stated apart from the loop to keep its verification within the
      resource budget. */
  lemma FileGrows(earlier: seq<Record>, records: seq<Record>)
    ensures [HeaderLine] + BodyLines(earlier + records) == [HeaderLine] + BodyLines(earlier) + BodyLines(records)
  {
    BodyLinesAppend(earlier, records);
  }

  /** The header followed by the records of the first i batches is a
      correct file for their rows. */
  lemma {:induction false} RecordsUpToWritten(batches: seq<Batch>, i: nat)
    requires i <= |batches| && AllWellShaped(batches)
    requires forall j :: 0 <= j < i ==> AllRowsScorable(batches[j])
    ensures Written([HeaderLine] + BodyLines(RecordsUpTo(batches, i)), Flatten(batches[..i]))
    decreases i
  {
    if i == 0 {
      assert [HeaderLine] + BodyLines([]) == [HeaderLine];
      assert batches[..0] == [];
    } else {
      PrefixStep(batches, i - 1);
      var records := FormatLines(batches[i - 1]).value;
      FormatLinesScored(batches[i - 1]);
      RecordsUpToWritten(batches, i - 1);
      var file := [HeaderLine] + BodyLines(RecordsUpTo(batches, i - 1));
      FileGrows(RecordsUpTo(batches, i - 1), records);
      WrittenExtend(file, Flatten(batches[..i - 1]), records, batches[i - 1]);
    }
  }

  /** The first batch that cannot be formatted, if there is one. */
  function FirstFailure(batches: seq<Batch>): (r: Option<nat>)
    ensures r.None? <==> AllScorable(batches)
    ensures r.Some? ==> r.value < |batches| && !AllRowsScorable(batches[r.value])
    ensures r.Some? ==> forall j :: 0 <= j < r.value ==> AllRowsScorable(batches[j])
  {
    if |batches| == 0 then None
    else if !AllRowsScorable(batches[0]) then Some(0)
    else
      var rest := FirstFailure(batches[1..]);
      assert forall j :: 1 <= j < |batches| ==> batches[j] == batches[1..][j - 1];
      if rest.None? then None else Some(rest.value + 1)
  }

  /** A batch that fails after a run of formattable ones is the first
      failure. */
  lemma FirstFailureAt(batches: seq<Batch>, i: nat)
    requires i < |batches| && !AllRowsScorable(batches[i])
    requires forall j :: 0 <= j < i ==> AllRowsScorable(batches[j])
    ensures FirstFailure(batches) == Some(i)
  {
    var r := FirstFailure(batches);
    assert r.Some?;
    assert r.value <= i;
    assert r.value >= i;
  }

  datatype Outcome = Finished | Aborted(error: Error)

  /** `format_lines` applied to one batch, as the loop sees it: it fails
      exactly when some video has no class scores. A separate method so
      that the loop's proof sees only this contract, which keeps its
      verification within the resource budget. */
  method FormatBatch(batch: Batch) returns (lines: Result<seq<Record>>)
    requires WellShapedBatch(batch)
    ensures lines.Ok? <==> AllRowsScorable(batch)
    ensures lines.Err? ==> lines.error == KthOutOfBounds
    ensures lines.Ok? ==> lines.value == FormatLines(batch).value
  {
    lines := FormatLines(batch);
  }

  /** The loop of `inference`: for each batch the counter grows by its
      length, then its records are appended after the earlier ones. The
      first batch whose formatting fails stops the loop, with the lines of
      the batches before it in place. */
  method WriteBatches(batches: seq<Batch>) returns (file: seq<Line>, processed: nat, failed: Option<nat>)
    requires AllWellShaped(batches)
    ensures failed == FirstFailure(batches)
    ensures failed.None? ==>
              Written(file, Flatten(batches)) && processed == SumLengths(batches) && processed == |file| - 1
    ensures failed.Some? ==>
              Written(file, Flatten(batches[..failed.value]))
              && processed == SumLengths(batches[..failed.value + 1])
  {
    file := [HeaderLine];
    processed := 0;
    var i := 0;
    assert batches[..0] == [];
    while i < |batches|
      invariant i <= |batches|
      invariant forall j :: 0 <= j < i ==> AllRowsScorable(batches[j])
      invariant file == [HeaderLine] + BodyLines(RecordsUpTo(batches, i))
      invariant processed == SumLengths(batches[..i])
    {
      PrefixStep(batches, i);
      processed := processed + |batches[i]|;
      var lines := FormatBatch(batches[i]);
      if lines.Err? {
        FirstFailureAt(batches, i);
        RecordsUpToWritten(batches, i);
        return file, processed, Some(i);
      }
      ScorableStep(batches, i);
      FileGrows(RecordsUpTo(batches, i), lines.value);
      file := file + BodyLines(lines.value);
      i := i + 1;
    }
    assert batches[..i] == batches;
    FlattenLength(batches);
    RecordsUpToWritten(batches, i);
    failed := None;
  }

  /** The body of `inference`. With no checkpoint the file has been opened
      (and so emptied) but nothing is written. Otherwise the header is
      written and the batches after it; a batch whose formatting fails ends
      the run with the lines of the earlier batches in place. */
  method Inference(checkpointPath: Option<string>, trainDir: string, latest: Option<string>, batches: seq<Batch>)
    returns (file: seq<Line>, processed: nat, outcome: Outcome)
    requires AllWellShaped(batches)
    ensures ChooseCheckpoint(checkpointPath, trainDir, latest).Err? ==>
              file == [] && processed == 0 && outcome == Aborted(NoCheckpoint(trainDir))
    ensures ChooseCheckpoint(checkpointPath, trainDir, latest).Ok? ==>
              (outcome == Finished <==> FirstFailure(batches).None?)
    ensures outcome == Finished ==>
              Written(file, Flatten(batches)) && processed == SumLengths(batches) && processed == |file| - 1
    ensures ChooseCheckpoint(checkpointPath, trainDir, latest).Ok? && outcome.Aborted? ==>
              outcome.error == KthOutOfBounds
              && FirstFailure(batches).Some?
              && Written(file, Flatten(batches[..FirstFailure(batches).value]))
              && processed == SumLengths(batches[..FirstFailure(batches).value + 1])
  {
    var checkpoint := ChooseCheckpoint(checkpointPath, trainDir, latest);
    if checkpoint.Err? {
      return [], 0, Aborted(checkpoint.error);
    }
    var failed;
    file, processed, failed := WriteBatches(batches);
    outcome := if failed.None? then Finished else Aborted(KthOutOfBounds);
  }

  /** The command-line options the driver reads. */
  datatype Options = Options(
    outputFile: string,
    inputDataPattern: string,
    model: string,
    featureTransformer: string,
    modelCheckpointPath: Option<string>,
    trainDir: string)

  /** What a run leaves behind: the output file, if it was ever opened; the
      example counter; and how the run ended. */
  datatype Report = Report(file: Option<seq<Line>>, processed: nat, outcome: Outcome)

  /** A whole run, in the order `main` does its work: option checks, model
      and transformer lookup, the input glob (inside graph construction),
      then `inference`. `globbed` is what the glob matched and `latest` what
      the train directory's checkpoint lookup found. Every error `Run`
      checks before calling `Inference` is raised before the output file is
      opened. */
  method Run(opts: Options, modelModules: seq<PyModule>, transformModules: seq<PyModule>,
             globbed: seq<string>, latest: Option<string>, batches: seq<Batch>)
    returns (report: Report)
    requires AllWellShaped(batches)
    ensures opts.outputFile == "" ==> report == Report(None, 0, Aborted(MissingOutputFile))
    ensures opts.outputFile != "" && opts.inputDataPattern == "" ==>
              report == Report(None, 0, Aborted(MissingInputPattern))
    ensures ValidateOptions(opts.outputFile, opts.inputDataPattern).Ok?
            && FindClassByName(opts.model, modelModules).Ok?
            && FindClassByName(opts.featureTransformer, transformModules).Ok?
            && |globbed| == 0 ==>
              report == Report(None, 0, Aborted(NoInputFiles(opts.inputDataPattern)))
    ensures ValidateOptions(opts.outputFile, opts.inputDataPattern).Ok?
            && FindClassByName(opts.model, modelModules).Err? ==>
              report == Report(None, 0, Aborted(ClassNotFound(opts.model)))
    ensures ValidateOptions(opts.outputFile, opts.inputDataPattern).Ok?
            && FindClassByName(opts.model, modelModules).Ok?
            && FindClassByName(opts.featureTransformer, transformModules).Err? ==>
              report == Report(None, 0, Aborted(ClassNotFound(opts.featureTransformer)))
    ensures report.file.None? <==>
              ValidateOptions(opts.outputFile, opts.inputDataPattern).Err?
              || FindClassByName(opts.model, modelModules).Err?
              || FindClassByName(opts.featureTransformer, transformModules).Err?
              || |globbed| == 0
    ensures report.file.Some? ==>
              (report.outcome == Finished <==>
                 ChooseCheckpoint(opts.modelCheckpointPath, opts.trainDir, latest).Ok? && AllScorable(batches))
    ensures report.file.Some? && ChooseCheckpoint(opts.modelCheckpointPath, opts.trainDir, latest).Err? ==>
              report == Report(Some([]), 0, Aborted(NoCheckpoint(opts.trainDir)))
    ensures report.file.Some? && ChooseCheckpoint(opts.modelCheckpointPath, opts.trainDir, latest).Ok?
            && report.outcome.Aborted? ==>
              report.outcome.error == KthOutOfBounds
              && FirstFailure(batches).Some?
              && Written(report.file.value, Flatten(batches[..FirstFailure(batches).value]))
    ensures report.outcome == Finished ==>
              report.file.Some? && Written(report.file.value, Flatten(batches))
              && report.processed == SumLengths(batches)
  {
    var valid := ValidateOptions(opts.outputFile, opts.inputDataPattern);
    if valid.Err? {
      return Report(None, 0, Aborted(valid.error));
    }
    var model := FindClassByName(opts.model, modelModules);
    if model.Err? {
      return Report(None, 0, Aborted(model.error));
    }
    var transformer := FindClassByName(opts.featureTransformer, transformModules);
    if transformer.Err? {
      return Report(None, 0, Aborted(transformer.error));
    }
    var files := CheckInputFiles(opts.inputDataPattern, globbed);
    if files.Err? {
      return Report(None, 0, Aborted(files.error));
    }
    var file, processed, outcome := Inference(opts.modelCheckpointPath, opts.trainDir, latest, batches);
    report := Report(Some(file), processed, outcome);
  }
}
