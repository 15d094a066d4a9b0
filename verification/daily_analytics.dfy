/** The daily analytics step: yesterday's fraud cases are read in chunks
    of 100, each row is mapped to a one-row metric of indicator counts, and
    each chunk is folded into the single metric row kept per date. */
module DailyAnalytics {
  import opened Wrappers
  import opened Text

  /** The step's commit interval. */
  const ChunkSize: nat := 100

  /** A row of the case table as the reader maps it; the decision column
      may come back null. */
  datatype FraudCaseRow = FraudCaseRow(transactionId: string, userId: string, riskScore: real, decision: Option<string>)

  /** The per-date metric row. Dates are day numbers. Counts are nullable
      columns; the average risk score is not modelled. */
  datatype AggregatedMetric = AggregatedMetric(
    metricDate: int,
    totalTransactions: Option<int>,
    fraudCount: Option<int>,
    reviewCount: Option<int>,
    blockCount: Option<int>,
    fraudRate: Option<real>,
    topRiskGeography: Option<string>)

  /** A fresh row for `date` with every other column null. */
  function BlankMetric(date: int): AggregatedMetric {
    AggregatedMetric(date, None, None, None, None, None, None)
  }

  predicate IsBlock(decision: Option<string>) {
    decision.Some? && EqualsIgnoreCase(decision.value, "BLOCK")
  }

  predicate IsReview(decision: Option<string>) {
    decision.Some? && EqualsIgnoreCase(decision.value, "REVIEW")
  }

  /** The processor: one row becomes a metric of total 1 whose block and
      review indicators say what the decision was. The fraud indicator is
      the block indicator: a REVIEW row is not counted as fraud. */
  function Process(row: FraudCaseRow, yesterday: int): (m: AggregatedMetric)
    ensures m.metricDate == yesterday && m.totalTransactions == Some(1)
    ensures m.blockCount == Some(if IsBlock(row.decision) then 1 else 0)
    ensures m.reviewCount == Some(if IsReview(row.decision) then 1 else 0)
    ensures m.fraudCount == m.blockCount
    ensures m.fraudRate.None? && m.topRiskGeography.None?
  {
    AggregatedMetric(yesterday, Some(1),
                     Some(if IsBlock(row.decision) then 1 else 0),
                     Some(if IsReview(row.decision) then 1 else 0),
                     Some(if IsBlock(row.decision) then 1 else 0),
                     None, None)
  }

  /** A decision is never both BLOCK and REVIEW, and APPROVE or an unknown
      decision sets neither indicator. */
  lemma IndicatorsExclusive(row: FraudCaseRow, yesterday: int)
    ensures !(IsBlock(row.decision) && IsReview(row.decision))
    ensures !IsBlock(row.decision) && !IsReview(row.decision) ==>
      Process(row, yesterday).fraudCount == Some(0) && Process(row, yesterday).reviewCount == Some(0)
  {
    assert ToUpper("BLOCK") == "BLOCK" by { ToUpperFixesUpper("BLOCK"); }
    assert ToUpper("REVIEW") == "REVIEW" by { ToUpperFixesUpper("REVIEW"); }
  }

  function ProcessAll(rows: seq<FraudCaseRow>, yesterday: int): (ms: seq<AggregatedMetric>)
    ensures |ms| == |rows|
  {
    seq(|rows|, i requires 0 <= i < |rows| => Process(rows[i], yesterday))
  }

  /** The number of rows with a BLOCK decision. */
  function BlockRows(rows: seq<FraudCaseRow>): nat
    decreases |rows|
  {
    if |rows| == 0 then 0 else (if IsBlock(rows[0].decision) then 1 else 0) + BlockRows(rows[1..])
  }

  /** The number of rows with a REVIEW decision. */
  function ReviewRows(rows: seq<FraudCaseRow>): nat
    decreases |rows|
  {
    if |rows| == 0 then 0 else (if IsReview(rows[0].decision) then 1 else 0) + ReviewRows(rows[1..])
  }

  lemma {:induction false} RowCountsConcat(a: seq<FraudCaseRow>, b: seq<FraudCaseRow>)
    ensures BlockRows(a + b) == BlockRows(a) + BlockRows(b)
    ensures ReviewRows(a + b) == ReviewRows(a) + ReviewRows(b)
    decreases |a|
  {
    if |a| > 0 {
      assert (a + b)[1..] == a[1..] + b;
      RowCountsConcat(a[1..], b);
    } else {
      assert a + b == b;
    }
  }

  /** Block and review rows are disjoint, so together they never outnumber
      the rows. */
  lemma {:induction false} RowCountsBounded(rows: seq<FraudCaseRow>)
    ensures BlockRows(rows) + ReviewRows(rows) <= |rows|
    decreases |rows|
  {
    if |rows| > 0 {
      IndicatorsExclusive(rows[0], 0);
      RowCountsBounded(rows[1..]);
    }
  }

  /** A null count column is summed as 0. */
  function FraudSum(items: seq<AggregatedMetric>): int
    decreases |items|
  {
    if |items| == 0 then 0 else items[0].fraudCount.GetOr(0) + FraudSum(items[1..])
  }

  function ReviewSum(items: seq<AggregatedMetric>): int
    decreases |items|
  {
    if |items| == 0 then 0 else items[0].reviewCount.GetOr(0) + ReviewSum(items[1..])
  }

  function BlockSum(items: seq<AggregatedMetric>): int
    decreases |items|
  {
    if |items| == 0 then 0 else items[0].blockCount.GetOr(0) + BlockSum(items[1..])
  }

  /** Summing the processed indicators counts the rows: fraud and block
      sums are the BLOCK rows, the review sum is the REVIEW rows. */
  lemma {:induction false} ProcessedSums(rows: seq<FraudCaseRow>, yesterday: int)
    ensures FraudSum(ProcessAll(rows, yesterday)) == BlockRows(rows)
    ensures BlockSum(ProcessAll(rows, yesterday)) == BlockRows(rows)
    ensures ReviewSum(ProcessAll(rows, yesterday)) == ReviewRows(rows)
    decreases |rows|
  {
    if |rows| > 0 {
      assert ProcessAll(rows, yesterday)[1..] == ProcessAll(rows[1..], yesterday);
      ProcessedSums(rows[1..], yesterday);
    }
  }

  /** The date's row, or a blank one when the date has none yet. */
  function RowFor(table: map<int, AggregatedMetric>, date: int): AggregatedMetric {
    if date in table then table[date] else BlankMetric(date)
  }

  /** fraud / total in exact arithmetic, 0 for an empty total; a fraud
      count within the total gives a rate in [0, 1]. */
  function Rate(fraud: int, total: int): (rate: real)
    ensures total <= 0 ==> rate == 0.0
    ensures 0 <= fraud <= total ==> 0.0 <= rate <= 1.0
  {
    if total > 0 then fraud as real / total as real else 0.0
  }

  /** The writer, as written: an empty chunk writes nothing; otherwise the
      chunk's counts replace the counts of the row for the first item's
      date, which is found or created, and its other columns are kept. */
  function WriteChunk(table: map<int, AggregatedMetric>, items: seq<AggregatedMetric>): (r: map<int, AggregatedMetric>)
    ensures |items| == 0 ==> r == table
    ensures |items| > 0 ==>
      var date := items[0].metricDate;
      && r.Keys == table.Keys + {date}
      && r[date] == RowFor(table, date).(totalTransactions := Some(|items|),
                                          fraudCount := Some(FraudSum(items)),
                                          reviewCount := Some(ReviewSum(items)),
                                          blockCount := Some(BlockSum(items)),
                                          fraudRate := Some(Rate(FraudSum(items), |items|)))
      && forall d :: d in table && d != date ==> r[d] == table[d]
  {
    if |items| == 0 then table
    else
      var date := items[0].metricDate;
      var total := |items|;
      var fraud := FraudSum(items);
      var metric := RowFor(table, date).(totalTransactions := Some(total),
                                          fraudCount := Some(fraud),
                                          reviewCount := Some(ReviewSum(items)),
                                          blockCount := Some(BlockSum(items)),
                                          fraudRate := Some(Rate(fraud, total)));
      table[date := metric]
  }

  /** A processed chunk lands on yesterday's row with exact counts and a
      fraud rate in [0, 1]. */
  lemma ProcessedChunkMetric(table: map<int, AggregatedMetric>, rows: seq<FraudCaseRow>, yesterday: int)
    requires |rows| > 0
    ensures var r := WriteChunk(table, ProcessAll(rows, yesterday));
            && yesterday in r
            && r[yesterday].totalTransactions == Some(|rows|)
            && r[yesterday].fraudCount == Some(BlockRows(rows))
            && r[yesterday].blockCount == Some(BlockRows(rows))
            && r[yesterday].reviewCount == Some(ReviewRows(rows))
            && r[yesterday].fraudRate == Some(Rate(BlockRows(rows), |rows|))
            && 0.0 <= r[yesterday].fraudRate.value <= 1.0
  {
    ProcessedSums(rows, yesterday);
    RowCountsBounded(rows);
  }

  /** The chunk the step reads next: at most `ChunkSize` rows. */
  function Head(rows: seq<FraudCaseRow>): (c: seq<FraudCaseRow>)
    ensures |c| <= |rows| && c == rows[..|c|] && |c| == if |rows| < ChunkSize then |rows| else ChunkSize
  {
    if |rows| < ChunkSize then rows else rows[..ChunkSize]
  }

  /** The step, as written: every chunk is processed and written in turn. */
  function RunStep(table: map<int, AggregatedMetric>, rows: seq<FraudCaseRow>, yesterday: int): map<int, AggregatedMetric>
    decreases |rows|
  {
    if |rows| == 0 then table
    else RunStep(WriteChunk(table, ProcessAll(Head(rows), yesterday)), rows[|Head(rows)|..], yesterday)
  }

  /** The last chunk the step reads. */
  function LastChunk(rows: seq<FraudCaseRow>): (c: seq<FraudCaseRow>)
    ensures |rows| > 0 ==> 0 < |c| <= ChunkSize
    ensures |c| <= |rows|
    decreases |rows|
  {
    if |rows| <= ChunkSize then rows else LastChunk(rows[ChunkSize..])
  }

  /** Because each chunk replaces the date's counts, the row holds the
      counts of the last chunk alone; rows of other dates are untouched. */
  lemma {:induction false} LastChunkWins(table: map<int, AggregatedMetric>, rows: seq<FraudCaseRow>, yesterday: int)
    requires |rows| > 0
    ensures var r := RunStep(table, rows, yesterday);
            && yesterday in r
            && r[yesterday].totalTransactions == Some(|LastChunk(rows)|)
            && r[yesterday].fraudCount == Some(BlockRows(LastChunk(rows)))
            && r[yesterday].reviewCount == Some(ReviewRows(LastChunk(rows)))
            && r.Keys == table.Keys + {yesterday}
            && forall d :: d in table && d != yesterday ==> r[d] == table[d]
    decreases |rows|
  {
    var next := WriteChunk(table, ProcessAll(Head(rows), yesterday));
    ProcessedChunkMetric(table, Head(rows), yesterday);
    if |rows| <= ChunkSize {
      assert Head(rows) == rows;
      assert rows[|Head(rows)|..] == [];
      assert RunStep(table, rows, yesterday) == RunStep(next, [], yesterday);
    } else {
      assert |Head(rows)| == ChunkSize;
      LastChunkWins(next, rows[ChunkSize..], yesterday);
    }
  }

  /** Any day with more rows than one chunk is under-reported: the stored
      total is at most one chunk, short of the day's row count. */
  lemma OverwriteUnderCounts(table: map<int, AggregatedMetric>, rows: seq<FraudCaseRow>, yesterday: int)
    requires |rows| > ChunkSize
    ensures var r := RunStep(table, rows, yesterday);
            && yesterday in r
            && r[yesterday].totalTransactions.Some?
            && r[yesterday].totalTransactions.value <= ChunkSize < |rows|
  {
    LastChunkWins(table, rows, yesterday);
  }

  /** The corrected writer: the chunk's counts are added to the counts
      already on the date's row, and the rate is recomputed from the sums. */
  function AccumulateChunk(table: map<int, AggregatedMetric>, items: seq<AggregatedMetric>): (r: map<int, AggregatedMetric>)
    ensures |items| == 0 ==> r == table
    ensures |items| > 0 ==>
      var date := items[0].metricDate;
      var old_ := RowFor(table, date);
      && r.Keys == table.Keys + {date}
      && r[date].totalTransactions == Some(old_.totalTransactions.GetOr(0) + |items|)
      && r[date].fraudCount == Some(old_.fraudCount.GetOr(0) + FraudSum(items))
      && r[date].reviewCount == Some(old_.reviewCount.GetOr(0) + ReviewSum(items))
      && r[date].blockCount == Some(old_.blockCount.GetOr(0) + BlockSum(items))
      && r[date].fraudRate == Some(Rate(r[date].fraudCount.value, r[date].totalTransactions.value))
      && r[date].topRiskGeography == old_.topRiskGeography
      && forall d :: d in table && d != date ==> r[d] == table[d]
  {
    if |items| == 0 then table
    else
      var date := items[0].metricDate;
      var row := RowFor(table, date);
      var total := row.totalTransactions.GetOr(0) + |items|;
      var fraud := row.fraudCount.GetOr(0) + FraudSum(items);
      table[date := row.(totalTransactions := Some(total),
                          fraudCount := Some(fraud),
                          reviewCount := Some(row.reviewCount.GetOr(0) + ReviewSum(items)),
                          blockCount := Some(row.blockCount.GetOr(0) + BlockSum(items)),
                          fraudRate := Some(Rate(fraud, total)))]
  }

  function AccumulateAll(table: map<int, AggregatedMetric>, rows: seq<FraudCaseRow>, yesterday: int): map<int, AggregatedMetric>
    decreases |rows|
  {
    if |rows| == 0 then table
    else AccumulateAll(AccumulateChunk(table, ProcessAll(Head(rows), yesterday)), rows[|Head(rows)|..], yesterday)
  }

  /** The corrected step: a non-empty run starts the date's counts from
      zero, then accumulates every chunk. */
  function RunStepCorrected(table: map<int, AggregatedMetric>, rows: seq<FraudCaseRow>, yesterday: int): map<int, AggregatedMetric>
  {
    if |rows| == 0 then table
    else AccumulateAll(ResetCounts(table, yesterday), rows, yesterday)
  }

  /** The date's row, found or created, with its four counts set to zero
      before the day's chunks are added; other rows are kept. */
  function ResetCounts(table: map<int, AggregatedMetric>, yesterday: int): (t: map<int, AggregatedMetric>)
    ensures t.Keys == table.Keys + {yesterday}
    ensures t[yesterday].metricDate == RowFor(table, yesterday).metricDate
    ensures t[yesterday].totalTransactions == Some(0) && t[yesterday].fraudCount == Some(0)
    ensures t[yesterday].reviewCount == Some(0) && t[yesterday].blockCount == Some(0)
    ensures t[yesterday].topRiskGeography == RowFor(table, yesterday).topRiskGeography
    ensures forall d :: d in table && d != yesterday ==> t[d] == table[d]
  {
    table[yesterday := RowFor(table, yesterday).(totalTransactions := Some(0), fraudCount := Some(0),
                                                 reviewCount := Some(0), blockCount := Some(0))]
  }

  /** Accumulating the chunks adds every row to the date's counts. */
  lemma {:induction false} AccumulateAllCounts(table: map<int, AggregatedMetric>, rows: seq<FraudCaseRow>, yesterday: int,
                                               total0: int, fraud0: int, review0: int, block0: int)
    requires yesterday in table
    requires table[yesterday].totalTransactions == Some(total0) && table[yesterday].fraudCount == Some(fraud0)
    requires table[yesterday].reviewCount == Some(review0) && table[yesterday].blockCount == Some(block0)
    ensures var r := AccumulateAll(table, rows, yesterday);
            && yesterday in r
            && r[yesterday].totalTransactions == Some(total0 + |rows|)
            && r[yesterday].fraudCount == Some(fraud0 + BlockRows(rows))
            && r[yesterday].reviewCount == Some(review0 + ReviewRows(rows))
            && r[yesterday].blockCount == Some(block0 + BlockRows(rows))
            && (|rows| > 0 ==> r[yesterday].fraudRate == Some(Rate(fraud0 + BlockRows(rows), total0 + |rows|)))
    decreases |rows|
  {
    if |rows| > 0 {
      var head := Head(rows);
      var rest := rows[|head|..];
      assert rows == head + rest;
      var next := AccumulateChunk(table, ProcessAll(head, yesterday));
      ProcessedSums(head, yesterday);
      RowCountsConcat(head, rest);
      AccumulateAllCounts(next, rest, yesterday, total0 + |head|, fraud0 + BlockRows(head),
                          review0 + ReviewRows(head), block0 + BlockRows(head));
    }
  }

  /** Accumulating the chunks of one date leaves every other date's row alone. */
  lemma {:induction false} AccumulateAllFrame(table: map<int, AggregatedMetric>, rows: seq<FraudCaseRow>, yesterday: int, d: int)
    requires d in table && d != yesterday
    ensures var r := AccumulateAll(table, rows, yesterday);
            d in r && r[d] == table[d]
    decreases |rows|
  {
    if |rows| > 0 {
      var head := Head(rows);
      var next := AccumulateChunk(table, ProcessAll(head, yesterday));
      AccumulateAllFrame(next, rows[|head|..], yesterday, d);
    }
  }

  /** Starting from zeroed counts, accumulating the chunks leaves the whole
      day's counts, and a rate in [0, 1], on the date's row. */
  lemma CountsFromZero(t: map<int, AggregatedMetric>, rows: seq<FraudCaseRow>, yesterday: int)
    requires |rows| > 0
    requires yesterday in t && t[yesterday].totalTransactions == Some(0) && t[yesterday].fraudCount == Some(0)
    requires t[yesterday].reviewCount == Some(0) && t[yesterday].blockCount == Some(0)
    ensures var r := AccumulateAll(t, rows, yesterday);
            && yesterday in r
            && r[yesterday].totalTransactions == Some(|rows|)
            && r[yesterday].fraudCount == Some(BlockRows(rows))
            && r[yesterday].reviewCount == Some(ReviewRows(rows))
            && r[yesterday].blockCount == Some(BlockRows(rows))
            && r[yesterday].fraudRate == Some(Rate(BlockRows(rows), |rows|))
            && 0.0 <= r[yesterday].fraudRate.value <= 1.0
  {
    AccumulateAllCounts(t, rows, yesterday, 0, 0, 0, 0);
    RowCountsBounded(rows);
  }

  /** With the corrected writer the date's row describes the whole day,
      however the rows are split into chunks. */
  lemma {:induction false} CorrectedCountsWholeDay(table: map<int, AggregatedMetric>, rows: seq<FraudCaseRow>, yesterday: int)
    requires |rows| > 0
    ensures var r := RunStepCorrected(table, rows, yesterday);
            && yesterday in r
            && r[yesterday].totalTransactions == Some(|rows|)
            && r[yesterday].fraudCount == Some(BlockRows(rows))
            && r[yesterday].reviewCount == Some(ReviewRows(rows))
            && r[yesterday].blockCount == Some(BlockRows(rows))
            && r[yesterday].fraudRate == Some(Rate(BlockRows(rows), |rows|))
            && 0.0 <= r[yesterday].fraudRate.value <= 1.0
  {
    CountsFromZero(ResetCounts(table, yesterday), rows, yesterday);
  }

  /** The corrected step keeps every other date's row. */
  lemma CorrectedKeepsOtherDates(table: map<int, AggregatedMetric>, rows: seq<FraudCaseRow>, yesterday: int, d: int)
    requires d in table && d != yesterday
    ensures var r := RunStepCorrected(table, rows, yesterday);
            d in r && r[d] == table[d]
  {
    if |rows| > 0 {
      AccumulateAllFrame(ResetCounts(table, yesterday), rows, yesterday, d);
    }
  }

  /** `n` copies of one row. */
  function Repeat(row: FraudCaseRow, n: nat): (rows: seq<FraudCaseRow>)
    ensures |rows| == n
  {
    seq(n, _ => row)
  }

  lemma {:induction false} RepeatCounts(row: FraudCaseRow, n: nat)
    ensures BlockRows(Repeat(row, n)) == if IsBlock(row.decision) then n else 0
    ensures ReviewRows(Repeat(row, n)) == if IsReview(row.decision) then n else 0
  {
    if n > 0 {
      assert Repeat(row, n)[1..] == Repeat(row, n - 1);
      RepeatCounts(row, n - 1);
    }
  }

  /** A day of 5 BLOCK, 3 REVIEW and 12 APPROVE cases is stored with
      fraud count 5 (REVIEW rows are not fraud) and fraud rate 0.25, not
      the 8 and 0.40 of a BLOCK-plus-REVIEW reading. */
  lemma FraudCountsBlockOnly(table: map<int, AggregatedMetric>, yesterday: int)
    ensures var rows := Repeat(FraudCaseRow("tx-block", "u-batch-user", 0.91, Some("BLOCK")), 5)
                      + Repeat(FraudCaseRow("tx-review", "u-batch-user", 0.68, Some("REVIEW")), 3)
                      + Repeat(FraudCaseRow("tx-approve", "u-batch-user", 0.30, Some("APPROVE")), 12);
            var r := RunStep(table, rows, yesterday);
            && yesterday in r
            && r[yesterday].totalTransactions == Some(20)
            && r[yesterday].blockCount == Some(5)
            && r[yesterday].reviewCount == Some(3)
            && r[yesterday].fraudCount == Some(5)
            && r[yesterday].fraudRate == Some(0.25)
  {
    var block := FraudCaseRow("tx-block", "u-batch-user", 0.91, Some("BLOCK"));
    var review := FraudCaseRow("tx-review", "u-batch-user", 0.68, Some("REVIEW"));
    var approve := FraudCaseRow("tx-approve", "u-batch-user", 0.30, Some("APPROVE"));
    assert ToUpper("BLOCK") == "BLOCK" by { ToUpperFixesUpper("BLOCK"); }
    assert ToUpper("REVIEW") == "REVIEW" by { ToUpperFixesUpper("REVIEW"); }
    assert ToUpper("APPROVE") == "APPROVE" by { ToUpperFixesUpper("APPROVE"); }
    assert IsBlock(block.decision) && !IsReview(block.decision);
    assert IsReview(review.decision) && !IsBlock(review.decision);
    assert !IsBlock(approve.decision) && !IsReview(approve.decision);
    RepeatCounts(block, 5);
    RepeatCounts(review, 3);
    RepeatCounts(approve, 12);
    var rows := Repeat(block, 5) + Repeat(review, 3) + Repeat(approve, 12);
    RowCountsConcat(Repeat(block, 5), Repeat(review, 3));
    RowCountsConcat(Repeat(block, 5) + Repeat(review, 3), Repeat(approve, 12));
    assert BlockRows(rows) == 5 && ReviewRows(rows) == 3;
    assert Head(rows) == rows;
    assert rows[|Head(rows)|..] == [];
    ProcessedChunkMetric(table, rows, yesterday);
    assert RunStep(table, rows, yesterday) == WriteChunk(table, ProcessAll(rows, yesterday));
  }
}
