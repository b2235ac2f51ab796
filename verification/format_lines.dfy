/** The scored batches the session hands back and the records
    `format_lines` makes of them. */
module Batches {

  import opened Errors
  import opened TopK
  import opened ErrorRate

  /** One video of a scored batch: its id, the model's score for every class
      and its true-label row. The session returns ids, predictions and labels
      as three arrays with one row per video; a `Row` is the same index of
      all three, so the arrays' agreement in length holds by construction. */
  datatype Row = Row(videoId: string, predictions: seq<real>, labels: seq<bool>) {

    /** Score and label rows both have one entry per class. */
    predicate WellShaped() {
      |predictions| == |labels|
    }
  }

  type Batch = seq<Row>

  predicate WellShapedBatch(batch: Batch) {
    forall i :: 0 <= i < |batch| ==> batch[i].WellShaped()
  }

  /** Every video of the batch has at least one class score. */
  predicate AllRowsScorable(batch: Batch) {
    forall i :: 0 <= i < |batch| ==> |batch[i].predictions| > 0
  }

  /** One body line of the output before it is turned into text: the video
      id and its error rate. */
  datatype Record = Record(videoId: string, errorRate: real)

  /** `rec` is a correct record for `row`: it carries the row's id, and its
      error rate is the one some valid top-k selection of the row's scores
      gives, whichever way ties were broken. */
  ghost predicate Scored(rec: Record, row: Row) {
    && rec.videoId == row.videoId
    && exists sel :: IsTopK(row.predictions, TopKSize(row.labels), sel) && rec.errorRate == RowErrorRate(row.labels, sel)
  }

  /** The records of one batch, one per video in batch order. A video with an
      empty score row makes the partition call fail, and then the whole batch
      fails: its records are collected into a list before any is written. */
  function FormatLines(batch: Batch): (r: Result<seq<Record>>)
    requires WellShapedBatch(batch)
    ensures r.Ok? <==> AllRowsScorable(batch)
    ensures r.Err? ==> r.error == KthOutOfBounds
    ensures r.Ok? ==> |r.value| == |batch|
    ensures r.Ok? ==> forall i :: 0 <= i < |batch| ==> r.value[i].videoId == batch[i].videoId
  {
    if |batch| == 0 then Ok([])
    else
      var first :- ScoreRow(batch[0].predictions, batch[0].labels);
      var rest :- FormatLines(batch[1..]);
      Ok([Record(batch[0].videoId, first)] + rest)
  }

  /** Every record of a formatted batch is correct for its video, and its
      error rate lies in [0, 1]. */
  lemma {:induction false} FormatLinesScored(batch: Batch)
    requires WellShapedBatch(batch) && AllRowsScorable(batch)
    ensures forall i :: 0 <= i < |batch| ==> Scored(FormatLines(batch).value[i], batch[i])
    ensures forall i :: 0 <= i < |batch| ==> 0.0 <= FormatLines(batch).value[i].errorRate <= 1.0
    decreases |batch|
  {
    if |batch| > 0 {
      var rest := batch[1..];
      assert forall i :: 0 <= i < |rest| ==> rest[i] == batch[i + 1];
      FormatLinesScored(rest);
      var records := FormatLines(batch).value;
      var first := ScoreRow(batch[0].predictions, batch[0].labels).value;
      assert records == [Record(batch[0].videoId, first)] + FormatLines(rest).value;
      forall i | 0 <= i < |batch|
        ensures Scored(records[i], batch[i]) && 0.0 <= records[i].errorRate <= 1.0
      {
        if i > 0 {
          assert records[i] == FormatLines(rest).value[i - 1];
        } else {
          ScoreRowSelects(batch[0].predictions, batch[0].labels);
        }
      }
    }
  }
}
