/**
 * The backtest tally: each stored Positive or Negative prediction is
 * compared with the next trading day's open-to-close move, rows without
 * usable prices are skipped, and the correct and total counts give the
 * accuracy.  The price download is the parameter `download`.
 */
module Backtester {
  import opened Common

  /** A stored insight: its ticker, the day it was made and its sentiment. */
  datatype Prediction = Prediction(ticker: string, date: int, sentiment: string)

  /** One downloaded trading day; `None` is a missing (NaN) price. */
  datatype Bar = Bar(open: Option<real>, close: Option<real>)

  /** The price download for a Yahoo ticker over the five days from a start day: the rows or an exception. */
  type Download = (string, int) -> Outcome<seq<Bar>>

  /** One evaluated prediction, as appended to `results`. */
  datatype Evaluation = Evaluation(ticker: string, date: int, prediction: string, dailyReturn: real, correct: bool)

  /** The next-day return in percent: `(close - open) / open * 100`. */
  function DailyReturn(open: real, close: real): real
    requires open != 0.0
  {
    ((close - open) / open) * 100.0
  }

  /** "Positive" for a strictly positive return, "Negative" otherwise, including a flat day. */
  function ActualMovement(dailyReturn: real): string
  {
    if dailyReturn > 0.0 then "Positive" else "Negative"
  }

  /** With a positive open the return is positive exactly when the close is above the open. */
  lemma ReturnSign(open: real, close: real)
    requires open > 0.0
    ensures DailyReturn(open, close) > 0.0 <==> close > open
    ensures close == open ==> ActualMovement(DailyReturn(open, close)) == "Negative"
  {
    var x := close - open;
    if x > 0.0 {
      assert x / open > 0.0;
    } else if x < 0.0 {
      assert x / open < 0.0;
    } else {
      assert x / open == 0.0;
    }
  }

  /**
   * The evaluation of one row, or `None` when it is skipped: a Neutral
   * prediction, a failed download, fewer than two trading days, or a
   * missing next-day open or close or a zero open.
   */
  function Evaluate(p: Prediction, download: Download): (r: Option<Evaluation>)
    ensures r.Some? ==> r.value.prediction == p.sentiment && p.sentiment != "Neutral"
    ensures r.Some? ==> r.value.ticker == p.ticker && r.value.date == p.date
    ensures r.Some? ==> (r.value.correct <==> p.sentiment == ActualMovement(r.value.dailyReturn))
    ensures r.Some? ==>
      && download(p.ticker + ".NS", p.date).Answered?
      && (var bars := download(p.ticker + ".NS", p.date).value;
          && |bars| >= 2 && bars[1].open.Some? && bars[1].close.Some? && bars[1].open.value != 0.0
          && r.value.dailyReturn == DailyReturn(bars[1].open.value, bars[1].close.value))
  {
    if p.sentiment == "Neutral" then None
    else
      match download(p.ticker + ".NS", p.date)
      case Raised => None
      case Answered(bars) =>
        if |bars| < 2 then None
        else if bars[1].open.None? || bars[1].close.None? || bars[1].open.value == 0.0 then None
        else
          var dailyReturn := DailyReturn(bars[1].open.value, bars[1].close.value);
          Some(Evaluation(p.ticker, p.date, p.sentiment, dailyReturn, p.sentiment == ActualMovement(dailyReturn)))
  }

  /** A row is evaluated exactly when it is not Neutral and the download yields a usable second day. */
  lemma EvaluatedWhen(p: Prediction, download: Download)
    ensures Evaluate(p, download).Some? <==>
      p.sentiment != "Neutral" && download(p.ticker + ".NS", p.date).Answered?
      && (var bars := download(p.ticker + ".NS", p.date).value;
          |bars| >= 2 && bars[1].open.Some? && bars[1].close.Some? && bars[1].open.value != 0.0)
  {
  }

  /** The evaluations of the first `n` rows, in row order. */
  function Evaluations(rows: seq<Prediction>, download: Download, n: nat): seq<Evaluation>
    requires n <= |rows|
  {
    if n == 0 then []
    else
      var prefix := Evaluations(rows, download, n - 1);
      match Evaluate(rows[n - 1], download)
      case None => prefix
      case Some(e) => prefix + [e]
  }

  /** How many evaluations are correct. */
  function CountCorrect(results: seq<Evaluation>): (c: nat)
    ensures c <= |results|
  {
    if results == [] then 0
    else CountCorrect(results[..|results| - 1]) + (if results[|results| - 1].correct then 1 else 0)
  }

  /** No Neutral prediction is ever evaluated, and every evaluation comes from a row. */
  lemma {:induction false} EvaluationsFromRows(rows: seq<Prediction>, download: Download, n: nat)
    requires n <= |rows|
    ensures |Evaluations(rows, download, n)| <= n
    ensures forall e :: e in Evaluations(rows, download, n) ==>
      e.prediction != "Neutral" && exists i :: 0 <= i < n && Evaluate(rows[i], download) == Some(e)
  {
    if n > 0 {
      EvaluationsFromRows(rows, download, n - 1);
    }
  }

  /**
   * `run_backtest`'s loop: skipped rows change nothing; an evaluated row
   * adds one to `total`, one to `correct` when the prediction matched, and
   * its evaluation to `results`.
   */
  method RunBacktest(rows: seq<Prediction>, download: Download) returns (correct: nat, total: nat, results: seq<Evaluation>)
    ensures results == Evaluations(rows, download, |rows|)
    ensures total == |results| && correct == CountCorrect(results)
    ensures correct <= total <= |rows|
  {
    correct, total, results := 0, 0, [];
    for i := 0 to |rows|
      invariant results == Evaluations(rows, download, i)
      invariant total == |results| && correct == CountCorrect(results)
    {
      var row := rows[i];
      if row.sentiment == "Neutral" {
        continue;
      }
      var reply := download(row.ticker + ".NS", row.date);
      if reply.Raised? {
        continue;
      }
      var bars := reply.value;
      if |bars| < 2 {
        continue;
      }
      var nextDayOpen, nextDayClose := bars[1].open, bars[1].close;
      if nextDayOpen.None? || nextDayClose.None? || nextDayOpen.value == 0.0 {
        continue;
      }
      var dailyReturn := DailyReturn(nextDayOpen.value, nextDayClose.value);
      var actualMovement := if dailyReturn > 0.0 then "Positive" else "Negative";
      var isCorrect := row.sentiment == actualMovement;
      if isCorrect {
        correct := correct + 1;
      }
      total := total + 1;
      assert results + [Evaluation(row.ticker, row.date, row.sentiment, dailyReturn, isCorrect)] == Evaluations(rows, download, i + 1);
      results := results + [Evaluation(row.ticker, row.date, row.sentiment, dailyReturn, isCorrect)];
    }
    EvaluationsFromRows(rows, download, |rows|);
  }

  /** `correct_predictions / total_predictions * 100`, reported only when something was evaluated. */
  function Accuracy(correct: nat, total: nat): (a: Option<real>)
    requires correct <= total
    ensures a.Some? <==> total > 0
    ensures a.Some? ==> 0.0 <= a.value <= 100.0
    ensures a.Some? ==> (a.value == 100.0 <==> correct == total) && (a.value == 0.0 <==> correct == 0)
  {
    if total > 0 then
      var ratio := correct as real / total as real;
      assert 0.0 <= ratio <= 1.0;
      assert ratio == 1.0 <==> correct == total;
      Some(ratio * 100.0)
    else None
  }
}
