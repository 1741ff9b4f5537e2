/**
 * Signal fusion: the keyword-weighted sentiment with its impact multiplier,
 * the trading signal built from sentiment, price momentum, volume and
 * technical indicators, and the news impact score.  TextBlob's polarity,
 * `np.tanh` and `np.std` are parameters; arithmetic is over `real`.
 */
module AdvancedAnalysis {
  import opened Common
  import opened Strings
  import opened Dicts
  import opened CoreNlp

  /* ---------------- AdvancedSentimentAnalyzer ---------------- */

  const PositiveKeywords: seq<(string, int)> := [
    ("profit", 3), ("growth", 2), ("revenue", 2), ("expansion", 2), ("acquisition", 2),
    ("bullish", 3), ("surge", 3), ("rally", 3), ("breakthrough", 3), ("milestone", 2),
    ("outperform", 3), ("beat", 2), ("exceed", 2), ("strong", 2), ("robust", 2),
    ("upgrade", 3), ("buy", 3), ("investment", 1), ("dividend", 2), ("bonus", 2),
    ("launch", 1), ("innovative", 2), ("success", 2), ("positive", 1), ("gain", 2)]

  const NegativeKeywords: seq<(string, int)> := [
    ("loss", -3), ("decline", -2), ("fall", -2), ("drop", -2), ("crash", -3),
    ("bearish", -3), ("plunge", -3), ("collapse", -3), ("bankruptcy", -4), ("debt", -2),
    ("underperform", -3), ("miss", -2), ("weak", -2), ("poor", -2), ("concern", -1),
    ("downgrade", -3), ("sell", -3), ("risk", -1), ("challenge", -1), ("trouble", -2),
    ("fraud", -4), ("scandal", -4), ("investigation", -2), ("penalty", -2), ("fine", -2)]

  const ImpactKeywords: seq<(string, real)> := [
    ("quarterly", 1.5), ("annual", 1.3), ("results", 1.4), ("earnings", 1.4),
    ("guidance", 1.3), ("forecast", 1.2), ("outlook", 1.2), ("target", 1.1)]

  /** `word` occurs at `k` as a whole word: `\bword\b` for a word made of word characters. */
  predicate WholeWordAt(text: string, word: string, k: int)
  {
    && OccursAt(text, word, k)
    && (k == 0 || !IsWordChar(text[k - 1]))
    && (k + |word| == |text| || !IsWordChar(text[k + |word|]))
  }

  /**
   * `len(re.findall(r'\b' + word + r'\b', text))`, counting whole-word
   * occurrences at positions `k` and later.  Two whole-word occurrences of a
   * word made of word characters cannot overlap, so counting every position
   * agrees with the regex's left-to-right, non-overlapping scan.
   */
  function WholeWordCount(text: string, word: string, k: nat): (n: nat)
    ensures n == 0 <==> forall j :: k <= j <= |text| ==> !WholeWordAt(text, word, j)
    decreases |text| + 1 - k
  {
    if k > |text| then 0
    else (if WholeWordAt(text, word, k) then 1 else 0) + WholeWordCount(text, word, k + 1)
  }

  /** The weighted keyword count over the first `n` entries of a keyword table. */
  function TableScore(table: seq<(string, int)>, text: string, n: nat): int
    requires n <= |table|
  {
    if n == 0 then 0
    else TableScore(table, text, n - 1) + WholeWordCount(text, table[n - 1].0, 0) * table[n - 1].1
  }

  /** A table whose weights are all positive only ever adds; one whose weights are all negative only subtracts. */
  lemma {:induction false} TableScoreSign(table: seq<(string, int)>, text: string, n: nat)
    requires n <= |table|
    ensures (forall i :: 0 <= i < |table| ==> table[i].1 > 0) ==> TableScore(table, text, n) >= 0
    ensures (forall i :: 0 <= i < |table| ==> table[i].1 < 0) ==> TableScore(table, text, n) <= 0
    ensures (forall i :: 0 <= i < n ==> WholeWordCount(text, table[i].0, 0) == 0) ==> TableScore(table, text, n) == 0
  {
    if n > 0 {
      TableScoreSign(table, text, n - 1);
      ProductSign(WholeWordCount(text, table[n - 1].0, 0), table[n - 1].1);
    }
  }

  /** A count times a weight has the weight's sign, and is 0 for a zero count. */
  lemma ProductSign(count: nat, weight: int)
    ensures weight > 0 ==> count * weight >= 0
    ensures weight < 0 ==> count * weight <= 0
    ensures count == 0 ==> count * weight == 0
  {
  }

  /** `score / max(word_count, 1) * 10` */
  function Normalized(score: int, words: nat): real
  {
    score as real / (if words > 1 then words else 1) as real * 10.0
  }

  /** Normalising by the word count keeps the sign of the score. */
  lemma NormalizedSign(score: int, words: nat)
    ensures score >= 0 ==> Normalized(score, words) >= 0.0
    ensures score <= 0 ==> Normalized(score, words) <= 0.0
  {
    var d := (if words > 1 then words else 1) as real;
    assert d >= 1.0;
    if score >= 0 {
      assert score as real / d >= 0.0;
    } else {
      assert score as real / d <= 0.0;
    }
  }

  /** The keyword score over both tables: every whole-word occurrence of a keyword adds its weight. */
  function KeywordScore(positive: seq<(string, int)>, negative: seq<(string, int)>, text: string): int
  {
    TableScore(positive, text, |positive|) + TableScore(negative, text, |negative|)
  }

  /** The value `_calculate_keyword_sentiment` returns, with `np.tanh` as the parameter `tanh`. */
  function KeywordSentiment(positive: seq<(string, int)>, negative: seq<(string, int)>, text: string, tanh: real -> real): real
  {
    tanh(Normalized(KeywordScore(positive, negative, text), WordCount(text)))
  }

  /** What `np.tanh` is assumed to do: keep the sign and stay strictly inside (-1, 1). */
  ghost predicate TanhLike(tanh: real -> real)
  {
    forall x :: -1.0 < tanh(x) < 1.0 && (x > 0.0 ==> tanh(x) > 0.0) && (x < 0.0 ==> tanh(x) < 0.0) && (x == 0.0 ==> tanh(x) == 0.0)
  }

  /** `_calculate_keyword_sentiment`: the two `score +=` loops over the keyword tables. */
  method CalculateKeywordSentiment(positive: seq<(string, int)>, negative: seq<(string, int)>, text: string, tanh: real -> real)
    returns (s: real)
    ensures s == KeywordSentiment(positive, negative, text, tanh)
  {
    var score := 0;
    var wordCount := WordCount(text);
    for i := 0 to |positive|
      invariant score == TableScore(positive, text, i)
    {
      var (keyword, weight) := positive[i];
      var count := WholeWordCount(text, keyword, 0);
      score := score + count * weight;
    }
    ghost var positiveScore := score;
    for i := 0 to |negative|
      invariant score == positiveScore + TableScore(negative, text, i)
    {
      var (keyword, weight) := negative[i];
      var count := WholeWordCount(text, keyword, 0);
      score := score + count * weight;
    }
    s := tanh(Normalized(score, wordCount));
  }

  /** Every weight of the positive table is positive and every weight of the negative table negative. */
  lemma KeywordTableSigns()
    ensures forall i :: 0 <= i < |PositiveKeywords| ==> PositiveKeywords[i].1 > 0
    ensures forall i :: 0 <= i < |NegativeKeywords| ==> NegativeKeywords[i].1 < 0
  {
  }

  /**
   * With a positive table and a negative table, text with no negative
   * keyword has a non-negative keyword sentiment, text with no positive
   * keyword a non-positive one, and the value always lies in (-1, 1).
   */
  lemma KeywordSentimentSign(positive: seq<(string, int)>, negative: seq<(string, int)>, text: string, tanh: real -> real)
    requires TanhLike(tanh)
    requires forall i :: 0 <= i < |positive| ==> positive[i].1 > 0
    requires forall i :: 0 <= i < |negative| ==> negative[i].1 < 0
    ensures -1.0 < KeywordSentiment(positive, negative, text, tanh) < 1.0
    ensures (forall i :: 0 <= i < |negative| ==> WholeWordCount(text, negative[i].0, 0) == 0)
            ==> KeywordSentiment(positive, negative, text, tanh) >= 0.0
    ensures (forall i :: 0 <= i < |positive| ==> WholeWordCount(text, positive[i].0, 0) == 0)
            ==> KeywordSentiment(positive, negative, text, tanh) <= 0.0
  {
    TableScoreSign(positive, text, |positive|);
    TableScoreSign(negative, text, |negative|);
    var score := KeywordScore(positive, negative, text);
    NormalizedSign(score, WordCount(text));
    var x := Normalized(score, WordCount(text));
    assert -1.0 < tanh(x) < 1.0;
  }

  /** `_get_impact_multiplier`: a running maximum over the keywords found as substrings of `text`. */
  method GetImpactMultiplier(table: seq<(string, real)>, text: string) returns (m: real)
    ensures m >= 1.0
    ensures forall i :: 0 <= i < |table| && Contains(text, table[i].0) ==> m >= table[i].1
    ensures m == 1.0 || exists i :: (0 <= i < |table| && Contains(text, table[i].0) && m == table[i].1)
  {
    m := 1.0;
    for i := 0 to |table|
      invariant m >= 1.0
      invariant forall j :: 0 <= j < i && Contains(text, table[j].0) ==> m >= table[j].1
      invariant m == 1.0 || exists j :: (0 <= j < i && Contains(text, table[j].0) && m == table[j].1)
    {
      var (keyword, mult) := table[i];
      if Contains(text, keyword) {
        m := Max(m, mult);
      }
    }
  }

  /** The multipliers of the impact keyword table lie between 1.1 and 1.5. */
  lemma ImpactKeywordsBounds()
    ensures forall i :: 0 <= i < |ImpactKeywords| ==> 1.1 <= ImpactKeywords[i].1 <= 1.5
  {
  }

  /** The label and confidence `analyze_advanced_sentiment` reads off the final score. */
  function Categorize(finalScore: real): Sentiment
  {
    var verdict := if finalScore > 0.1 then "Positive" else if finalScore < -0.1 then "Negative" else "Neutral";
    Sentiment(verdict, Abs(finalScore))
  }

  /** The thresholds are strict on both sides, and the confidence is the score's magnitude. */
  lemma CategorizeThresholds(finalScore: real)
    ensures Categorize(finalScore).sentiment == "Positive" <==> finalScore > 0.1
    ensures Categorize(finalScore).sentiment == "Negative" <==> finalScore < -0.1
    ensures Categorize(finalScore).sentiment == "Neutral" <==> -0.1 <= finalScore <= 0.1
    ensures Categorize(finalScore).confidence == Abs(finalScore)
  {
  }

  /** A verdict is Neutral exactly when its confidence is at most 0.1. */
  lemma NeutralIffWeak(finalScore: real)
    ensures Categorize(finalScore).sentiment == "Neutral" <==> Categorize(finalScore).confidence <= 0.1
  {
  }

  datatype AdvancedSentiment = AdvancedSentiment(
    sentiment: string, confidence: real, rawScore: real,
    keywordContribution: real, textblobContribution: real, impactMultiplier: real)

  /** 70% keyword score and 30% polarity, scaled by the impact multiplier. */
  function FinalScore(keywordScore: real, polarity: real, multiplier: real): real
  {
    (keywordScore * 0.7 + polarity * 0.3) * multiplier
  }

  /** With both scores in [-1, 1] the final score is at most the multiplier in magnitude. */
  lemma FinalScoreBounded(keywordScore: real, polarity: real, multiplier: real)
    requires -1.0 <= keywordScore <= 1.0 && -1.0 <= polarity <= 1.0 && multiplier >= 0.0
    ensures -multiplier <= FinalScore(keywordScore, polarity, multiplier) <= multiplier
  {
    var c := keywordScore * 0.7 + polarity * 0.3;
    assert -1.0 <= c <= 1.0;
    MulNonNegative(1.0 - c, multiplier);
    MulNonNegative(1.0 + c, multiplier);
    assert (1.0 - c) * multiplier == multiplier - c * multiplier;
    assert (1.0 + c) * multiplier == multiplier + c * multiplier;
  }

  /** The keyword and impact tables an `AdvancedSentimentAnalyzer` is built with. */
  datatype Tables = Tables(positive: seq<(string, int)>, negative: seq<(string, int)>, impact: seq<(string, real)>)

  const AnalyzerTables := Tables(PositiveKeywords, NegativeKeywords, ImpactKeywords)

  /**
   * `analyze_advanced_sentiment`, with TextBlob's polarity as the parameter
   * `polarity`: 70% keyword score and 30% polarity, scaled by the largest
   * impact multiplier whose keyword the lower-cased text contains.
   */
  method AnalyzeAdvancedSentiment(tables: Tables, text: string, polarity: string -> real, tanh: real -> real)
    returns (r: AdvancedSentiment)
    ensures r.keywordContribution == KeywordSentiment(tables.positive, tables.negative, Lower(text), tanh)
    ensures r.textblobContribution == polarity(text)
    ensures r.impactMultiplier >= 1.0
    ensures forall i :: 0 <= i < |tables.impact| && Contains(Lower(text), tables.impact[i].0) ==> r.impactMultiplier >= tables.impact[i].1
    ensures r.impactMultiplier == 1.0 || exists i :: (0 <= i < |tables.impact|
      && Contains(Lower(text), tables.impact[i].0) && r.impactMultiplier == tables.impact[i].1)
    ensures r.rawScore == FinalScore(r.keywordContribution, r.textblobContribution, r.impactMultiplier)
    ensures r.sentiment == Categorize(r.rawScore).sentiment && r.confidence == Categorize(r.rawScore).confidence
  {
    var textLower := Lower(text);
    var keywordScore := CalculateKeywordSentiment(tables.positive, tables.negative, textLower, tanh);
    var textblobScore := polarity(text);
    var multiplier := GetImpactMultiplier(tables.impact, textLower);
    var finalScore := FinalScore(keywordScore, textblobScore, multiplier);
    var verdict := Categorize(finalScore);
    r := AdvancedSentiment(verdict.sentiment, verdict.confidence, finalScore, keywordScore, textblobScore, multiplier);
  }

  /** With the analyzer's own impact table the multiplier stays between 1.0 and 1.5. */
  lemma ImpactMultiplierAtMost(text: string, m: real)
    requires m == 1.0 || exists i :: (0 <= i < |ImpactKeywords| && Contains(text, ImpactKeywords[i].0) && m == ImpactKeywords[i].1)
    ensures 1.0 <= m <= 1.5
  {
    ImpactKeywordsBounds();
  }

  /**
   * With the analyzer's own tables, a tanh that stays inside (-1, 1) and a
   * polarity in [-1, 1], the raw score lies in [-1.5, 1.5].
   */
  lemma RawScoreBounded(text: string, polarity: string -> real, tanh: real -> real, m: real)
    requires TanhLike(tanh) && -1.0 <= polarity(text) <= 1.0
    requires m == 1.0 || exists i :: (0 <= i < |AnalyzerTables.impact|
      && Contains(Lower(text), AnalyzerTables.impact[i].0) && m == AnalyzerTables.impact[i].1)
    ensures -1.5 <= FinalScore(KeywordSentiment(AnalyzerTables.positive, AnalyzerTables.negative, Lower(text), tanh), polarity(text), m) <= 1.5
  {
    KeywordTableSigns();
    KeywordSentimentSign(PositiveKeywords, NegativeKeywords, Lower(text), tanh);
    ImpactMultiplierAtMost(Lower(text), m);
    FinalScoreBounded(KeywordSentiment(PositiveKeywords, NegativeKeywords, Lower(text), tanh), polarity(text), m);
  }

  /* ---------------- TradingSignalGenerator ---------------- */

  /** The weight table a `TradingSignalGenerator` is built with. */
  const SignalWeights: map<string, real> := map["sentiment" := 0.4, "price_momentum" := 0.3, "volume" := 0.2, "technical" := 0.1]

  /** Every weight in the table is positive. */
  predicate PositiveWeights(weights: map<string, real>)
  {
    forall k :: k in weights ==> weights[k] > 0.0
  }

  lemma SignalWeightsPositive()
    ensures PositiveWeights(SignalWeights)
  {
  }

  /** `self.signal_weights.get(signal_type, 0.1)` */
  function WeightOf(weights: map<string, real>, signalType: string): (w: real)
    ensures PositiveWeights(weights) ==> w > 0.0
    ensures signalType in weights ==> w == weights[signalType]
    ensures signalType !in weights ==> w == 0.1
  {
    if signalType in weights then weights[signalType] else 0.1
  }

  /** `_sentiment_to_signal` */
  function SentimentToSignal(s: Sentiment): (r: real)
    ensures s.sentiment == "Positive" ==> r == s.confidence
    ensures s.sentiment == "Negative" ==> r == -s.confidence
    ensures s.sentiment != "Positive" && s.sentiment != "Negative" ==> r == 0.0
  {
    if s.sentiment == "Positive" then s.confidence
    else if s.sentiment == "Negative" then -s.confidence
    else 0.0
  }

  /** `stock_data.get(key, 0)` */
  function Field(stock: map<string, real>, key: string): real
  {
    if key in stock then stock[key] else 0.0
  }

  /** `_price_momentum_signal`: `np.tanh(change_percent / 5)`. */
  function PriceMomentumSignal(stock: map<string, real>, tanh: real -> real): real
  {
    tanh(Field(stock, "change_percent") / 5.0)
  }

  /** `_volume_signal` */
  function VolumeSignal(stock: map<string, real>): (r: real)
    ensures r == 0.5 <==> Field(stock, "volume") > 1000000.0
    ensures r == 0.2 <==> 100000.0 < Field(stock, "volume") <= 1000000.0
    ensures r == 0.0 <==> Field(stock, "volume") <= 100000.0
  {
    var volume := Field(stock, "volume");
    if volume > 1000000.0 then 0.5
    else if volume > 100000.0 then 0.2
    else 0.0
  }

  /** `np.sign` */
  function Sign(x: real): real
  {
    if x > 0.0 then 1.0 else if x < 0.0 then -1.0 else 0.0
  }

  /** The volume signal after it is made to follow the direction of the momentum signal. */
  function DirectedVolume(volume: real, momentum: real): (r: real)
    ensures momentum == 0.0 ==> r == volume
    ensures momentum > 0.0 ==> r == volume
    ensures momentum < 0.0 ==> r == -volume
  {
    if momentum != 0.0 then volume * Sign(momentum) else volume
  }

  /** The last row of the technical data; `None` is a missing column or a NaN. */
  datatype TechRow = TechRow(rsi: Option<real>, close: Option<real>, ma20: Option<real>, ma50: Option<real>)

  /** The RSI vote: overbought above 70, oversold below 30. */
  function RsiVote(rsi: real): (v: real)
    ensures v == -0.5 <==> rsi > 70.0
    ensures v == 0.5 <==> rsi < 30.0
    ensures v == 0.0 <==> 30.0 <= rsi <= 70.0
  {
    if rsi > 70.0 then -0.5 else if rsi < 30.0 then 0.5 else 0.0
  }

  /** The moving-average vote: bullish when close > MA20 > MA50, bearish when close < MA20 < MA50. */
  function MovingAverageVote(close: real, ma20: real, ma50: real): (v: real)
    ensures v == 0.3 <==> close > ma20 > ma50
    ensures v == -0.3 <==> close < ma20 < ma50
    ensures v == 0.0 <==> !(close > ma20 > ma50) && !(close < ma20 < ma50)
  {
    if close > ma20 > ma50 then 0.3 else if close < ma20 < ma50 then -0.3 else 0.0
  }

  /** `np.mean(signals) if signals else 0` */
  function MeanOrZero(xs: seq<real>): real
  {
    if xs == [] then 0.0 else Sum(xs) / |xs| as real
  }

  function Sum(xs: seq<real>): real
  {
    if xs == [] then 0.0 else Sum(xs[..|xs| - 1]) + xs[|xs| - 1]
  }

  lemma MeanOfOne(a: real)
    ensures MeanOrZero([a]) == a
  {
    assert [a][..0] == [];
    assert Sum([a]) == a;
    assert |[a]| as real == 1.0;
  }

  lemma MeanOfTwo(a: real, b: real)
    ensures MeanOrZero([a, b]) == (a + b) / 2.0
  {
    assert [a, b][..1] == [a];
    MeanOfOne(a);
  }

  /** The mean of an RSI vote and a moving-average vote stays in [-0.5, 0.5] and leans the way one of them does. */
  lemma MeanOfVotes(a: real, b: real)
    requires -0.5 <= a <= 0.5 && -0.3 <= b <= 0.3
    ensures -0.5 <= MeanOrZero([a, b]) <= 0.5
    ensures MeanOrZero([a, b]) > 0.0 ==> a > 0.0 || b > 0.0
    ensures MeanOrZero([a, b]) < 0.0 ==> a < 0.0 || b < 0.0
  {
    MeanOfTwo(a, b);
  }

  /** The votes of a row, in the order `_technical_signal` appends them: RSI first, then the moving averages. */
  function TechnicalVotes(latest: TechRow): seq<real>
  {
    (if latest.rsi.Some? then [RsiVote(latest.rsi.value)] else [])
    + (if latest.close.Some? && latest.ma20.Some? && latest.ma50.Some?
       then [MovingAverageVote(latest.close.value, latest.ma20.value, latest.ma50.value)] else [])
  }

  /** The technical sub-signal of an indicator table: the mean of its last row's votes, 0 for an empty table. */
  function TechnicalSignalOf(rows: seq<TechRow>): real
  {
    if rows == [] then 0.0 else MeanOrZero(TechnicalVotes(rows[|rows| - 1]))
  }

  /**
   * The technical sub-signal stays within [-0.5, 0.5], is 0 when the last row
   * has no usable column, and leans up (down) only when the RSI is oversold
   * (overbought) or the moving averages are stacked bullishly (bearishly).
   */
  lemma TechnicalSignalOfBounds(rows: seq<TechRow>)
    ensures -0.5 <= TechnicalSignalOf(rows) <= 0.5
    ensures rows != [] ==>
      var latest, r := rows[|rows| - 1], TechnicalSignalOf(rows);
      && (latest.rsi.None? && (latest.close.None? || latest.ma20.None? || latest.ma50.None?) ==> r == 0.0)
      && (r > 0.0 ==> (latest.rsi.Some? && latest.rsi.value < 30.0)
                      || (latest.close.Some? && latest.ma20.Some? && latest.ma50.Some?
                          && latest.close.value > latest.ma20.value > latest.ma50.value))
      && (r < 0.0 ==> (latest.rsi.Some? && latest.rsi.value > 70.0)
                      || (latest.close.Some? && latest.ma20.Some? && latest.ma50.Some?
                          && latest.close.value < latest.ma20.value < latest.ma50.value))
  {
    if rows != [] {
      var latest := rows[|rows| - 1];
      var averagesPresent := latest.close.Some? && latest.ma20.Some? && latest.ma50.Some?;
      if latest.rsi.Some? && averagesPresent {
        var a, b := RsiVote(latest.rsi.value), MovingAverageVote(latest.close.value, latest.ma20.value, latest.ma50.value);
        assert TechnicalVotes(latest) == [a, b];
        MeanOfVotes(a, b);
      } else if latest.rsi.Some? {
        assert TechnicalVotes(latest) == [RsiVote(latest.rsi.value)];
        MeanOfOne(RsiVote(latest.rsi.value));
      } else if averagesPresent {
        var b := MovingAverageVote(latest.close.value, latest.ma20.value, latest.ma50.value);
        assert TechnicalVotes(latest) == [b];
        MeanOfOne(b);
      } else {
        assert TechnicalVotes(latest) == [];
      }
    }
  }

  /** `_technical_signal`: the mean of the votes whose inputs are present in the latest row. */
  method TechnicalSignal(technical: Option<seq<TechRow>>) returns (r: real)
    ensures r == (if technical.Some? then TechnicalSignalOf(technical.value) else 0.0)
    ensures technical.None? || technical.value == [] ==> r == 0.0
    ensures -0.5 <= r <= 0.5
    ensures technical.Some? && technical.value != [] ==>
      var latest := technical.value[|technical.value| - 1];
      && (latest.rsi.None? && (latest.close.None? || latest.ma20.None? || latest.ma50.None?) ==> r == 0.0)
      && (r > 0.0 ==> (latest.rsi.Some? && latest.rsi.value < 30.0)
                      || (latest.close.Some? && latest.ma20.Some? && latest.ma50.Some?
                          && latest.close.value > latest.ma20.value > latest.ma50.value))
      && (r < 0.0 ==> (latest.rsi.Some? && latest.rsi.value > 70.0)
                      || (latest.close.Some? && latest.ma20.Some? && latest.ma50.Some?
                          && latest.close.value < latest.ma20.value < latest.ma50.value))
  {
    if technical.None? || technical.value == [] {
      return 0.0;
    }
    var latest := technical.value[|technical.value| - 1];
    var signals: seq<real> := [];
    if latest.rsi.Some? {
      signals := signals + [RsiVote(latest.rsi.value)];
    }
    if latest.close.Some? && latest.ma20.Some? && latest.ma50.Some? {
      signals := signals + [MovingAverageVote(latest.close.value, latest.ma20.value, latest.ma50.value)];
    }
    assert signals == TechnicalVotes(latest);
    r := MeanOrZero(signals);
    TechnicalSignalOfBounds(technical.value);
  }

  /** The smallest and largest sub-signal. */
  function MinValue(signals: Dict<string, real>): (m: real)
    requires signals != []
    ensures forall i :: 0 <= i < |signals| ==> m <= signals[i].1
    ensures exists i :: 0 <= i < |signals| && m == signals[i].1
  {
    if |signals| == 1 then signals[0].1
    else
      var rest := MinValue(signals[1..]);
      assert forall i :: 1 <= i < |signals| ==> signals[i].1 == signals[1..][i - 1].1;
      Min(signals[0].1, rest)
  }

  function MaxValue(signals: Dict<string, real>): (m: real)
    requires signals != []
    ensures forall i :: 0 <= i < |signals| ==> m >= signals[i].1
    ensures exists i :: 0 <= i < |signals| && m == signals[i].1
  {
    if |signals| == 1 then signals[0].1
    else
      var rest := MaxValue(signals[1..]);
      assert forall i :: 1 <= i < |signals| ==> signals[i].1 == signals[1..][i - 1].1;
      Max(signals[0].1, rest)
  }

  /** `w * v` lies between `w * lo` and `w * hi` when `w` is positive and `v` lies between `lo` and `hi`. */
  lemma ScaleBetween(w: real, v: real, lo: real, hi: real)
    requires w > 0.0 && lo <= v <= hi
    ensures w * lo <= w * v <= w * hi
  {
  }

  /** Adding `v * w` to the sum and `w` to the total keeps the sum between `lo` and `hi` times the total. */
  lemma StepBetween(lo: real, hi: real, total: real, sum: real, w: real, v: real, total': real, sum': real)
    requires lo * total <= sum <= hi * total
    requires w > 0.0 && lo <= v <= hi
    requires total' == total + w && sum' == sum + v * w
    ensures lo * total' <= sum' <= hi * total'
  {
    ScaleBetween(w, v, lo, hi);
    assert lo * (total + w) == lo * total + w * lo;
    assert hi * (total + w) == hi * total + w * hi;
    assert v * w == w * v;
  }

  /** An empty sum over an empty total lies between `lo` and `hi` times that total. */
  lemma ZeroBetween(lo: real, hi: real, total: real, sum: real)
    requires total == 0.0 && sum == 0.0
    ensures lo * total <= sum <= hi * total
  {
  }

  /** A quotient of a sum bounded by `lo * t` and `hi * t` by a positive `t` lies between `lo` and `hi`. */
  lemma DivideBetween(s: real, t: real, lo: real, hi: real)
    requires t > 0.0 && lo * t <= s <= hi * t
    ensures lo <= s / t <= hi
  {
  }

  /** The sum of each of the first `n` sub-signals times its weight. */
  function WeightedSum(signals: Dict<string, real>, weights: map<string, real>, n: nat): real
    requires n <= |signals|
  {
    if n == 0 then 0.0 else WeightedSum(signals, weights, n - 1) + signals[n - 1].1 * WeightOf(weights, signals[n - 1].0)
  }

  /** The sum of the weights of the first `n` sub-signals. */
  function TotalWeight(signals: Dict<string, real>, weights: map<string, real>, n: nat): real
    requires n <= |signals|
  {
    if n == 0 then 0.0 else TotalWeight(signals, weights, n - 1) + WeightOf(weights, signals[n - 1].0)
  }

  /** Under a positive weighting, each non-empty prefix has a positive total weight. */
  lemma {:induction false} TotalWeightPositive(signals: Dict<string, real>, weights: map<string, real>, n: nat)
    requires n <= |signals|
    requires PositiveWeights(weights)
    ensures n > 0 ==> TotalWeight(signals, weights, n) > 0.0
    ensures TotalWeight(signals, weights, n) >= 0.0
  {
    if n > 0 {
      TotalWeightPositive(signals, weights, n - 1);
      assert WeightOf(weights, signals[n - 1].0) > 0.0;
    }
  }

  /** Extending a prefix by one sub-signal in [lo, hi] with a positive weight keeps the weighted sum within bounds. */
  lemma PrefixStep(signals: Dict<string, real>, weights: map<string, real>, n: nat, lo: real, hi: real)
    requires 0 < n <= |signals|
    requires WeightOf(weights, signals[n - 1].0) > 0.0 && lo <= signals[n - 1].1 <= hi
    requires lo * TotalWeight(signals, weights, n - 1) <= WeightedSum(signals, weights, n - 1) <= hi * TotalWeight(signals, weights, n - 1)
    ensures lo * TotalWeight(signals, weights, n) <= WeightedSum(signals, weights, n) <= hi * TotalWeight(signals, weights, n)
  {
    StepBetween(lo, hi, TotalWeight(signals, weights, n - 1), WeightedSum(signals, weights, n - 1),
                WeightOf(weights, signals[n - 1].0), signals[n - 1].1,
                TotalWeight(signals, weights, n), WeightedSum(signals, weights, n));
  }

  /**
   * Under a positive weighting, the weighted sum of each prefix lies between
   * the smallest and the largest value times its total weight.
   */
  lemma {:induction false} WeightedSumBetween(signals: Dict<string, real>, weights: map<string, real>, n: nat, lo: real, hi: real)
    requires n <= |signals|
    requires PositiveWeights(weights)
    requires forall i :: 0 <= i < |signals| ==> lo <= signals[i].1 <= hi
    ensures lo * TotalWeight(signals, weights, n) <= WeightedSum(signals, weights, n) <= hi * TotalWeight(signals, weights, n)
  {
    if n > 0 {
      WeightedSumBetween(signals, weights, n - 1, lo, hi);
      assert lo <= signals[n - 1].1 <= hi;
      PrefixStep(signals, weights, n, lo, hi);
    } else {
      ZeroBetween(lo, hi, TotalWeight(signals, weights, n), WeightedSum(signals, weights, n));
    }
  }

  /** Under positive weights the weighted average of a non-empty set of sub-signals lies within any bounds of the sub-signals. */
  lemma AverageBetween(signals: Dict<string, real>, weights: map<string, real>, lo: real, hi: real)
    requires PositiveWeights(weights) && signals != []
    requires forall i :: 0 <= i < |signals| ==> lo <= signals[i].1 <= hi
    ensures TotalWeight(signals, weights, |signals|) > 0.0
    ensures lo <= WeightedSum(signals, weights, |signals|) / TotalWeight(signals, weights, |signals|) <= hi
  {
    TotalWeightPositive(signals, weights, |signals|);
    WeightedSumBetween(signals, weights, |signals|, lo, hi);
    DivideBetween(WeightedSum(signals, weights, |signals|), TotalWeight(signals, weights, |signals|), lo, hi);
  }

  /** The weighted average of the sub-signals, or 0 when their weights add up to nothing positive. */
  function WeightedAverage(signals: Dict<string, real>, weights: map<string, real>): real
  {
    var total := TotalWeight(signals, weights, |signals|);
    if total > 0.0 then WeightedSum(signals, weights, |signals|) / total else 0.0
  }

  /**
   * `_calculate_overall_signal`: the weighted average of the sub-signals,
   * each weighted by its entry in the weight table (0.1 when it has none).
   * It is 0 with no sub-signals and, under a table of positive weights,
   * otherwise lies between the smallest and the largest sub-signal.
   */
  method CalculateOverallSignal(weights: map<string, real>, signals: Dict<string, real>) returns (r: real)
    ensures r == WeightedAverage(signals, weights)
    ensures signals == [] ==> r == 0.0
    ensures PositiveWeights(weights) && signals != [] ==> MinValue(signals) <= r <= MaxValue(signals)
  {
    var weightedSum := 0.0;
    var totalWeight := 0.0;
    for i := 0 to |signals|
      invariant weightedSum == WeightedSum(signals, weights, i)
      invariant totalWeight == TotalWeight(signals, weights, i)
    {
      var signalType, value := signals[i].0, signals[i].1;
      var weight := WeightOf(weights, signalType);
      weightedSum := weightedSum + value * weight;
      totalWeight := totalWeight + weight;
    }
    if PositiveWeights(weights) && signals != [] {
      AverageBetween(signals, weights, MinValue(signals), MaxValue(signals));
    }
    if totalWeight > 0.0 {
      r := weightedSum / totalWeight;
    } else {
      r := 0.0;
    }
  }

  /** `_signal_to_recommendation` */
  function SignalToRecommendation(signal: real): string
  {
    if signal > 0.3 then "Strong Buy"
    else if signal > 0.1 then "Buy"
    else if signal > -0.1 then "Hold"
    else if signal > -0.3 then "Sell"
    else "Strong Sell"
  }

  /** The position of a recommendation on the ladder, from Strong Sell (0) to Strong Buy (4). */
  function Rank(recommendation: string): int
  {
    match recommendation
    case "Strong Buy" => 4
    case "Buy" => 3
    case "Hold" => 2
    case "Sell" => 1
    case _ => 0
  }

  /** A stronger signal never gets a weaker recommendation. */
  lemma RecommendationMonotone(s1: real, s2: real)
    requires s1 <= s2
    ensures Rank(SignalToRecommendation(s1)) <= Rank(SignalToRecommendation(s2))
  {
  }

  /** The cut-offs are strict: exactly 0.1 is a Hold, exactly -0.1 a Sell, exactly 0.3 a Buy, exactly -0.3 a Strong Sell. */
  lemma RecommendationCutoffs()
    ensures SignalToRecommendation(0.1) == "Hold"
    ensures SignalToRecommendation(-0.1) == "Sell"
    ensures SignalToRecommendation(0.3) == "Buy"
    ensures SignalToRecommendation(-0.3) == "Strong Sell"
  {
  }

  function Values(signals: Dict<string, real>): (vs: seq<real>)
    ensures |vs| == |signals|
    ensures forall i :: 0 <= i < |signals| ==> vs[i] == signals[i].1
  {
    seq(|signals|, i requires 0 <= i < |signals| => signals[i].1)
  }

  function Abses(xs: seq<real>): (ys: seq<real>)
    ensures |ys| == |xs|
    ensures forall i :: 0 <= i < |xs| ==> ys[i] == Abs(xs[i]) && ys[i] >= 0.0
  {
    seq(|xs|, i requires 0 <= i < |xs| => Abs(xs[i]))
  }

  lemma MulNonNegative(x: real, y: real)
    requires x >= 0.0 && y >= 0.0
    ensures x * y >= 0.0
  {
  }

  lemma {:induction false} SumNonNegative(xs: seq<real>)
    requires forall i :: 0 <= i < |xs| ==> xs[i] >= 0.0
    ensures Sum(xs) >= 0.0
  {
    if xs != [] {
      SumNonNegative(xs[..|xs| - 1]);
    }
  }

  /**
   * `_calculate_confidence`, with `np.std` as the parameter `std`: never
   * above 1, and never negative when the standard deviation is not.
   */
  function CalculateConfidence(signals: Dict<string, real>, std: seq<real> -> real): (c: real)
    ensures c <= 1.0
    ensures std(Values(signals)) >= 0.0 ==> c >= 0.0
    ensures signals == [] ==> c == 0.0
  {
    var values := Values(signals);
    if values == [] then 0.0
    else
      var stdDev := std(values);
      var meanAbs := MeanOrZero(Abses(values));
      SumNonNegative(Abses(values));
      var confidence := meanAbs * (1.0 - Min(stdDev, 1.0));
      if stdDev >= 0.0 then
        assert meanAbs >= 0.0;
        MulNonNegative(meanAbs, 1.0 - Min(stdDev, 1.0));
        Min(confidence, 1.0)
      else Min(confidence, 1.0)
  }

  datatype TradingSignal = TradingSignal(
    overallSignal: real, signalStrength: real, individualSignals: Dict<string, real>,
    recommendation: string, confidenceLevel: real)

  /** The sub-signal keys present, in the order `generate_trading_signal` inserts them. */
  function SignalKeys(stock: map<string, real>, technical: Option<seq<TechRow>>): seq<string>
  {
    ["sentiment"] + (if stock != map[] then ["price_momentum", "volume"] else []) + (if technical.Some? then ["technical"] else [])
  }

  /** The names of a dictionary's entries, in order. */
  function Names(signals: Dict<string, real>): (ns: seq<string>)
    ensures |ns| == |signals|
    ensures forall i :: 0 <= i < |signals| ==> ns[i] == signals[i].0
  {
    seq(|signals|, i requires 0 <= i < |signals| => signals[i].0)
  }

  /**
   * The sub-signals `generate_trading_signal` collects.  An empty `stock`
   * stands for a falsy `stock_data`; `None` for `technical_data` is the
   * absent indicator table.
   */
  method CollectSignals(sentiment: Sentiment, stock: map<string, real>, technical: Option<seq<TechRow>>, tanh: real -> real)
    returns (signals: Dict<string, real>)
    ensures Names(signals) == SignalKeys(stock, technical)
    ensures signals[0].1 == SentimentToSignal(sentiment)
    ensures stock != map[] ==> (signals[1].1 == PriceMomentumSignal(stock, tanh)
      && signals[2].1 == DirectedVolume(VolumeSignal(stock), PriceMomentumSignal(stock, tanh)))
    ensures technical.Some? ==> signals[|signals| - 1].1 == TechnicalSignalOf(technical.value)
    ensures technical.Some? ==> -0.5 <= signals[|signals| - 1].1 <= 0.5
  {
    signals := [("sentiment", SentimentToSignal(sentiment))];
    if stock != map[] {
      var momentum := PriceMomentumSignal(stock, tanh);
      signals := signals + [("price_momentum", momentum)];
      var volume := VolumeSignal(stock);
      if momentum != 0.0 {
        volume := volume * Sign(momentum);
      }
      signals := signals + [("volume", volume)];
    }
    if technical.Some? {
      var tech := TechnicalSignal(technical);
      signals := signals + [("technical", tech)];
    }
  }

  /** `generate_trading_signal`, for a generator whose weight table is `weights`. */
  method GenerateTradingSignal(weights: map<string, real>, sentiment: Sentiment, stock: map<string, real>,
                               technical: Option<seq<TechRow>>, tanh: real -> real, std: seq<real> -> real)
    returns (r: TradingSignal)
    ensures Names(r.individualSignals) == SignalKeys(stock, technical)
    ensures r.individualSignals[0].1 == SentimentToSignal(sentiment)
    ensures stock != map[] ==> (r.individualSignals[1].1 == PriceMomentumSignal(stock, tanh)
      && r.individualSignals[2].1 == DirectedVolume(VolumeSignal(stock), PriceMomentumSignal(stock, tanh)))
    ensures technical.Some? ==> r.individualSignals[|r.individualSignals| - 1].1 == TechnicalSignalOf(technical.value)
    ensures r.overallSignal == WeightedAverage(r.individualSignals, weights)
    ensures PositiveWeights(weights) ==> MinValue(r.individualSignals) <= r.overallSignal <= MaxValue(r.individualSignals)
    ensures r.signalStrength == Abs(r.overallSignal)
    ensures r.recommendation == SignalToRecommendation(r.overallSignal)
    ensures r.confidenceLevel == CalculateConfidence(r.individualSignals, std)
  {
    var signals := CollectSignals(sentiment, stock, technical, tanh);
    var overall := CalculateOverallSignal(weights, signals);
    r := TradingSignal(overall, Abs(overall), signals, SignalToRecommendation(overall), CalculateConfidence(signals, std));
  }

  /* ---------------- NewsImpactCalculator ---------------- */

  datatype Category = Category(name: string, keywords: seq<string>, multiplier: real)

  const ImpactCategories: seq<Category> := [
    Category("earnings", ["earnings", "results", "quarterly", "annual"], 1.5),
    Category("acquisition", ["acquisition", "merger", "takeover", "buyout"], 2.0),
    Category("regulatory", ["regulatory", "approval", "license", "compliance"], 1.3),
    Category("product", ["launch", "product", "service", "innovation"], 1.2),
    Category("financial", ["debt", "loan", "funding", "investment", "ipo"], 1.4),
    Category("management", ["ceo", "cfo", "director", "appointment", "resignation"], 1.1)]

  /** `any(keyword in text for keyword in info['keywords'])` */
  predicate Mentions(text: string, c: Category)
  {
    exists k :: k in c.keywords && Contains(text, k)
  }

  /** The multipliers of the category table lie between 1.1 and 2.0. */
  lemma ImpactCategoriesBounds()
    ensures forall i :: 0 <= i < |ImpactCategories| ==> 1.1 <= ImpactCategories[i].multiplier <= 2.0
  {
  }

  /** The names of the first `n` categories that `text` mentions, in table order. */
  function Detected(categories: seq<Category>, text: string, n: nat): (names: seq<string>)
    requires n <= |categories|
    ensures |names| <= n
  {
    if n == 0 then []
    else Detected(categories, text, n - 1) + (if Mentions(text, categories[n - 1]) then [categories[n - 1].name] else [])
  }

  /** A name is detected exactly when one of the first `n` categories carrying it is mentioned. */
  lemma {:induction false} DetectedExactly(categories: seq<Category>, text: string, n: nat)
    requires n <= |categories|
    ensures forall i :: 0 <= i < n && Mentions(text, categories[i]) ==> categories[i].name in Detected(categories, text, n)
    ensures forall name :: name in Detected(categories, text, n) ==>
      exists i :: 0 <= i < n && Mentions(text, categories[i]) && categories[i].name == name
  {
    if n > 0 {
      DetectedExactly(categories, text, n - 1);
    }
  }

  /** The multiplier after the first `n` categories: 1.0 raised to each mentioned category's multiplier. */
  function Strongest(categories: seq<Category>, text: string, n: nat): real
    requires n <= |categories|
  {
    if n == 0 then 1.0
    else
      var m := Strongest(categories, text, n - 1);
      if Mentions(text, categories[n - 1]) then Max(m, categories[n - 1].multiplier) else m
  }

  /**
   * The multiplier is at least 1.0 and at least every mentioned category's
   * multiplier, and it is 1.0 or the multiplier of a mentioned category.
   */
  lemma {:induction false} StrongestIsLargest(categories: seq<Category>, text: string, n: nat)
    requires n <= |categories|
    ensures Strongest(categories, text, n) >= 1.0
    ensures forall i :: 0 <= i < n && Mentions(text, categories[i]) ==> Strongest(categories, text, n) >= categories[i].multiplier
    ensures Strongest(categories, text, n) == 1.0 || exists i :: (0 <= i < n
      && Mentions(text, categories[i]) && Strongest(categories, text, n) == categories[i].multiplier)
  {
    if n > 0 {
      StrongestIsLargest(categories, text, n - 1);
      var m := Strongest(categories, text, n - 1);
      if Mentions(text, categories[n - 1]) && categories[n - 1].multiplier > m {
        assert Strongest(categories, text, n) == categories[n - 1].multiplier;
      } else {
        assert Strongest(categories, text, n) == m;
      }
    }
  }

  datatype NewsImpact = NewsImpact(
    impactScore: real, baseSentimentConfidence: real, categoryMultiplier: real, detectedCategories: seq<string>)

  /** The lower-cased text the calculator searches: title and content joined by a space. */
  function ImpactText(title: string, content: string): string
  {
    Lower(title + " " + content)
  }

  /**
   * `calculate_impact_score` over a category table: the largest multiplier
   * among the categories the text mentions (1.0 when none), the impact as
   * confidence times that multiplier, and the detected categories in table
   * order or `['general']`.
   */
  method CalculateImpactScore(categories: seq<Category>, title: string, content: string, sentiment: Sentiment)
    returns (r: NewsImpact)
    ensures r.baseSentimentConfidence == sentiment.confidence
    ensures r.impactScore == sentiment.confidence * r.categoryMultiplier
    ensures r.categoryMultiplier >= 1.0
    ensures forall i :: (0 <= i < |categories| && Mentions(ImpactText(title, content), categories[i])
      ==> r.categoryMultiplier >= categories[i].multiplier)
    ensures r.categoryMultiplier == 1.0 || exists i :: (0 <= i < |categories|
      && Mentions(ImpactText(title, content), categories[i]) && r.categoryMultiplier == categories[i].multiplier)
    ensures var found := Detected(categories, ImpactText(title, content), |categories|);
      r.detectedCategories == if found == [] then ["general"] else found
  {
    var text := ImpactText(title, content);
    var baseImpact := sentiment.confidence;
    var categoryMultiplier := 1.0;
    var detected: seq<string> := [];
    for i := 0 to |categories|
      invariant categoryMultiplier == Strongest(categories, text, i)
      invariant detected == Detected(categories, text, i)
    {
      var category := categories[i];
      if Mentions(text, category) {
        categoryMultiplier := Max(categoryMultiplier, category.multiplier);
        detected := detected + [category.name];
      }
    }
    StrongestIsLargest(categories, text, |categories|);
    var impactScore := baseImpact * categoryMultiplier;
    r := NewsImpact(impactScore, baseImpact, categoryMultiplier, if detected == [] then ["general"] else detected);
  }

  /** With the calculator's own category table the multiplier never exceeds 2.0, so the impact is at most twice the confidence. */
  lemma CategoryMultiplierAtMostTwo(title: string, content: string, m: real)
    requires m == 1.0 || exists i :: (0 <= i < |ImpactCategories|
      && Mentions(ImpactText(title, content), ImpactCategories[i]) && m == ImpactCategories[i].multiplier)
    ensures m <= 2.0
  {
    ImpactCategoriesBounds();
  }
}
