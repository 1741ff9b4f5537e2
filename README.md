# Stock insight agent: the decision core in Dafny

This project models the decision logic of a news-driven stock insight agent.
It covers the deterministic code that sits between the external models
(named-entity recogniser, language model, fuzzy scorer, company graph, price
feeds) and the database. Every external call is a function parameter. What
remains is modelled and proved:

- **Entity validation** (`EntityValidator`, `KeyFigures`). Company candidates
  come from the NER model's ORG spans and from a capitalised-phrase pattern.
  They are filtered, checked against a blocklist and fuzzily matched against
  the ticker registry, with ties going to the shorter name and a strict
  threshold. A separate classifier sorts PERCENT and MONEY spans into
  key-figure slots by the words around them.
- **The article pipeline** (`Worker`). The headline is tried first for
  tickers, then the content. Sentences are attributed by case-sensitive
  substring, with one sentiment verdict per ticker. A competitive-headline
  rule forces the graph competitor's verdict to Negative/0.98. Each primary
  ticker with a verdict gets one saved insight, with impact score
  confidence × source weight × event multiplier.
- **Signal fusion** (`AdvancedAnalysis`).
  - Keyword sentiment and the impact-keyword multiplier.
  - Categorisation at ±0.1.
  - Sub-signals (sentiment, momentum, directional volume, technical).
  - The weighted average of the sub-signals present, and the recommendation ladder.
  - Signal confidence.
  - The news-impact category multiplier.
- **Language-model result validation** (`LlmValidation`). The model's
  `{company: ticker}` object is stably sorted by name length, longest first.
  Names are matched case-insensitively against the known map. A single result
  is returned, falling back to the model's first entry.
- **Reply normalisation** (`CoreNlp`). A one-word sentiment reply becomes a
  label with confidence 0.9. The event category is the stripped reply. Both
  have safe defaults.
- **The quote cache** (`StockData`, class `StockDataFetcher`). Exchange
  suffixes and cache keys. The time-to-live check as `timedelta.seconds`
  reads it, so whole days are ignored. The hit and fill paths of the price
  and history lookups, and the multi-company lookup.
- **The backtest tally** (`Backtester`). Each stored Positive or Negative
  prediction is compared with the next trading day's move. Rows without usable
  prices are skipped. The counters give the accuracy.

Shared modules: `Common` holds Option/Outcome and min/max/abs. `Strings`
holds ASCII case mapping, strip over Python's full `str.isspace()` whitespace set, substring search and prefixes. `Dicts`
models an insertion-ordered Python dict as a sequence of pairs with distinct
keys.

Where the code and its surrounding description differ, the model follows the
code:
- the fuzzy threshold test is strict, so a score of exactly 90 is rejected;
- a signal of exactly -0.1 maps to "Sell";
- the article pipeline does no frequency-based subject scoring; the headline's
  tickers simply take precedence over the content's.

## Model

| member | source | states |
|---|---|---|
| EntityValidator.FindAll | tests/test_nlp_processor.py:32-33 | every phrase the capitalised-phrase pattern yields has at least 3 characters, starts with an upper-case letter and uses only letters, `.`, `&` and whitespace |
| EntityValidator.CandidatesClean | tests/test_nlp_processor.py:36-41 | a surviving candidate consists only of letters, digits, whitespace, `.`, `&` and `-`, and has been stripped of surrounding whitespace |
| EntityValidator.FindBestMatch | tests/test_nlp_processor.py:48-55 | the registry scan ends with the highest score and a chosen row exactly when that score is positive; the chosen row has that score and the shortest name among rows with it, and every earlier row with it has a strictly longer name |
| EntityValidator.BestMatchIsUnique | tests/test_nlp_processor.py:48-55 | the best-match outcome is determined by the scores alone: two outcomes meeting the best-match conditions are equal |
| EntityValidator.ValidateCandidates | tests/test_nlp_processor.py:44-61 | every result key is a registry name backed by an unblocked candidate whose best match it is with a score strictly above the threshold, carrying that row's ticker; every candidate that validates puts its registry name in the result (stated up to the set's iteration order) |
| EntityValidator.ExtractTickers | tests/test_nlp_processor.py:17-64 | an empty registry gives `{}`; otherwise the result is exactly justified by, and covers, the filtered NER and pattern candidates as above |
| EntityValidator.JustifiedEntry | tests/test_nlp_processor.py:45-61 | with distinct registry names, a result entry carries its registry name's ticker, comes from a candidate whose lower-case form is not blocked, and scored strictly above the threshold |
| KeyFigures.Window | tests/test_nlp_processor.py:79 | the context window reaches 7 tokens each side of the span and is cut short only at the document's ends |
| KeyFigures.SlotOf | tests/test_nlp_processor.py:81-97 | the slot of a span, each slot stated as an if-and-only-if over the label and the context words: PERCENT goes to profit, then revenue/topline, then other; MONEY goes to profit/pat, then revenue, then deal/wins, then other; any other label is unused |
| KeyFigures.Labels | tests/test_nlp_processor.py:78-79 | one (slot, text) pair per entity, in document order, classified by the lower-cased context window |
| KeyFigures.OtherStep | tests/test_nlp_processor.py:86-87 | the "other" list grows by a span of its slot only while it holds fewer than 3 items |
| KeyFigures.ClassifyEntities | tests/test_nlp_processor.py:78-97 | each named slot holds the last span classified into it; the other-percent and other-money lists are the first 3 spans of their slot, in order |
| KeyFigures.ExtractKeyFigures | tests/test_nlp_processor.py:67-104 | no model gives `{}`; named slots hold their last span; the other lists appear only when non-empty, hold at most 3 texts and are the first spans of their slot |
| Worker.TitleFirst | worker.py:40-41 | the headline's tickers are used whenever there are any; the article has no primary tickers exactly when headline and content both yield none |
| Worker.SkippedArticle | worker.py:40-41 | an article whose headline and content yield no tickers saves nothing |
| Worker.EventMultiplier | worker.py:45 | the table's multiplier for a listed event type, 1.0 for any other |
| Worker.RelevantExactly | worker.py:51 | a sentence is relevant exactly when it is a sentence of the content containing the NER name (case-sensitive) |
| Worker.VerdictFor | worker.py:50-53 | a ticker gets a verdict exactly when some sentence mentions its NER name |
| Worker.VerdictOfTicker | worker.py:48-53 | a ticker has a verdict exactly when some primary entry for it has a relevant sentence, and the verdict is that of the last such entry |
| Worker.CollectVerdicts | worker.py:48-53 | the loop fills `sentiment_results` with exactly the verdicts of `Verdicts`: one per ticker with a relevant sentence, in insertion order |
| Worker.HeadlineTickers | worker.py:55 | the headline tickers are exactly the tickers of the headline's extraction |
| Worker.Winner | worker.py:57 | the winner is absent exactly when no verdict is Positive, and is otherwise the first Positive ticker in insertion order |
| Worker.Loser | worker.py:60 | the loser is absent exactly when no competitor is a headline ticker, and is otherwise the first competitor that is one |
| Worker.OverrideTarget | worker.py:55-61 | an override target exists only for a competitive headline (two or more tickers and a keyword in the lower-cased title), is a truthy headline ticker and a graph competitor of the truthy winner; it is exactly the first of the winner's competitors that is a headline ticker, and the rule fires whenever the headline is competitive and that winner and that competitor exist and are truthy |
| Worker.OnlyLoserChanges | worker.py:55-63 | after the rule, the override target's verdict is Negative/0.98 and every other ticker's verdict is unchanged |
| Worker.RuleNeedsAllConditions | worker.py:56-61 | fewer than two headline tickers, no competitive keyword, no Positive verdict, or no competitor in the headline each leave all verdicts unchanged |
| Worker.ApplyCompetitiveRule | worker.py:55-63 | the in-place override produces exactly `ApplyRule`'s verdicts, so `OnlyLoserChanges` and `RuleNeedsAllConditions` hold of it |
| Worker.InfosysBeatsWipro | test_knowledge_graph.py:69-70 | on the sample headline, with Infosys Positive and Wipro among its competitors, Wipro's verdict becomes Negative/0.98 and Infosys's is kept |
| Worker.SampleHeadlineIsCompetitive | test_knowledge_graph.py:69 | the sample headline with its two tickers passes the competitive-headline test |
| Worker.PersistedRows | worker.py:65-73 | every saved row belongs to a primary company whose ticker has a verdict, and carries that verdict and the impact score confidence × source weight × event multiplier |
| Worker.OneRowPerCompany | worker.py:65-73 | exactly one row is saved for a company with a verdict and none for a company without one |
| Worker.RowForVerdict | worker.py:65-73 | every primary ticker with a verdict has a saved row |
| Worker.EarningsImpact | worker.py:69 | an Earnings Report with confidence 0.9 at source weight 1.0 scores 0.9 × 1.4 = 1.26 |
| Worker.SaveInsights | worker.py:65-73 | the save loop saves exactly `Persisted`'s rows, in primary-ticker order, so `PersistedRows` and `OneRowPerCompany` hold of it |
| Worker.LoserIsPrimary | worker.py:49-63 | an override target is one of the article's primary tickers, and its final verdict is Negative/0.98 |
| Worker.LoserIsSaved | worker.py:55-73 | when the override fires, a Negative/0.98 insight is saved |
| Worker.ProcessArticle | worker.py:37-73 | one article's pass saves exactly `ArticleInsights`: ticker cascade, verdicts, override and save loop composed; its key figures are empty for an article naming no company, and otherwise each named slot (profit and revenue percent, profit and revenue amount, deal size) holds the last span the NER model classifies into it, and the other-percent and other-money lists hold the first three spans classified there |
| Worker.ProcessFeed | worker.py:37-73 | the feed loop saves the concatenation of the articles' insights, in article order, each article with the key figures its NER spans give |
| AdvancedAnalysis.WholeWordCount | advanced_analysis.py:74 | the count of whole-word occurrences is zero exactly when no position holds the keyword between word boundaries |
| AdvancedAnalysis.TableScoreSign | advanced_analysis.py:72-80 | a table of positive weights scores at least 0, one of negative weights at most 0, and a text with none of the keywords scores 0 |
| AdvancedAnalysis.NormalizedSign | advanced_analysis.py:85 | dividing by the word count (at least 1) and scaling by 10 keeps the score's sign |
| AdvancedAnalysis.KeywordTableSigns | advanced_analysis.py:11-25 | every positive keyword weighs more than 0 and every negative keyword less than 0 |
| AdvancedAnalysis.CalculateKeywordSentiment | advanced_analysis.py:67-86 | the accumulation loop computes tanh of the normalised sum of count × weight over both tables |
| AdvancedAnalysis.KeywordSentimentSign | advanced_analysis.py:67-86 | with a sign-preserving tanh bounded in (-1, 1), the keyword sentiment lies in (-1, 1); it is at least 0 when no negative keyword occurs and at most 0 when no positive keyword occurs |
| AdvancedAnalysis.GetImpactMultiplier | advanced_analysis.py:88-96 | the multiplier is at least 1.0, at least every matched keyword's multiplier, and either 1.0 or one of them: the maximum |
| AdvancedAnalysis.ImpactKeywordsBounds | advanced_analysis.py:27-30 | every impact keyword's multiplier lies in [1.1, 1.5] |
| AdvancedAnalysis.ImpactMultiplierAtMost | advanced_analysis.py:88-96 | the impact multiplier over the source's table lies in [1.0, 1.5] |
| AdvancedAnalysis.CategorizeThresholds | advanced_analysis.py:51-60 | Positive exactly above 0.1, Negative exactly below -0.1, Neutral exactly in [-0.1, 0.1]; confidence is the absolute final score |
| AdvancedAnalysis.NeutralIffWeak | advanced_analysis.py:51-60 | the verdict is Neutral exactly when its confidence is at most 0.1 |
| AdvancedAnalysis.FinalScoreBounded | advanced_analysis.py:44-48 | for keyword and polarity scores in [-1, 1], the 70/30 blend times the multiplier lies within ± the multiplier |
| AdvancedAnalysis.RawScoreBounded | advanced_analysis.py:44-48 | the raw score over the source's tables lies in [-1.5, 1.5] |
| AdvancedAnalysis.AnalyzeAdvancedSentiment | advanced_analysis.py:32-65 | the result carries the keyword sentiment of the lower-cased text, the polarity, the maximum impact multiplier, their blended product as raw score, and its categorisation |
| AdvancedAnalysis.SignalWeightsPositive | advanced_analysis.py:100-105 | every configured signal weight is positive |
| AdvancedAnalysis.WeightOf | advanced_analysis.py:220 | a listed signal weighs its table entry, an unlisted one 0.1; with positive weights every signal's weight is positive |
| AdvancedAnalysis.SentimentToSignal | advanced_analysis.py:148-158 | +confidence for Positive, -confidence for Negative, 0 for anything else |
| AdvancedAnalysis.VolumeSignal | advanced_analysis.py:168-179 | 0.5 exactly above 1,000,000, 0.2 exactly in (100,000, 1,000,000], 0 exactly at or below 100,000 |
| AdvancedAnalysis.DirectedVolume | advanced_analysis.py:127-128 | the volume signal takes the sign of a non-zero momentum and is kept as is when momentum is 0 |
| AdvancedAnalysis.RsiVote | advanced_analysis.py:190-197 | -0.5 exactly above 70, +0.5 exactly below 30, 0 exactly in [30, 70] |
| AdvancedAnalysis.MovingAverageVote | advanced_analysis.py:204-210 | +0.3 exactly when close > MA20 > MA50, -0.3 exactly when close < MA20 < MA50, 0 otherwise |
| AdvancedAnalysis.MeanOfOne | advanced_analysis.py:212 | the mean of one component is that component |
| AdvancedAnalysis.MeanOfTwo | advanced_analysis.py:212 | the mean of two components is their average |
| AdvancedAnalysis.MeanOfVotes | advanced_analysis.py:212 | the mean of an RSI vote and a moving-average vote lies in [-0.5, 0.5] and is positive (negative) only when one of the votes is |
| AdvancedAnalysis.TechnicalSignalOfBounds | advanced_analysis.py:180-211 | the mean of a row's votes lies in [-0.5, 0.5], is 0 when no vote is present, and leans up (down) only on an oversold (overbought) RSI or a bullish (bearish) MA order |
| AdvancedAnalysis.TechnicalSignal | advanced_analysis.py:180-211 | the result is the mean of the RSI vote (when RSI is present) followed by the moving-average vote (when close, MA20 and MA50 are present) of the last row, and 0 for no data or no votes; it lies in [-0.5, 0.5]; a positive signal needs RSI below 30 or a bullish MA order, a negative one RSI above 70 or a bearish order |
| AdvancedAnalysis.WeightedSumBetween | advanced_analysis.py:214-224 | with positive weights, the weighted sum lies between lo × total weight and hi × total weight whenever every signal lies in [lo, hi] |
| AdvancedAnalysis.TotalWeightPositive | advanced_analysis.py:218-222 | with positive weights the total weight is never negative and is positive once a signal has been added |
| AdvancedAnalysis.AverageBetween | advanced_analysis.py:214-224 | with positive weights and at least one signal, the total weight is positive and the weighted average lies in [lo, hi] |
| AdvancedAnalysis.CalculateOverallSignal | advanced_analysis.py:213-224 | the loop computes the weighted average Σ value·weight / Σ weight, 0 when the total weight is not positive (so 0 for no signals); with positive weights it lies between the smallest and the largest sub-signal |
| AdvancedAnalysis.RecommendationMonotone | advanced_analysis.py:226-237 | a larger signal never gives a weaker recommendation |
| AdvancedAnalysis.RecommendationCutoffs | advanced_analysis.py:226-237 | the cut-offs are strict: 0.1 gives Hold, -0.1 gives Sell, 0.3 gives Buy, -0.3 gives Strong Sell |
| AdvancedAnalysis.CalculateConfidence | advanced_analysis.py:239-252 | confidence is at most 1, at least 0 when the deviation is non-negative, and 0 for no signals |
| AdvancedAnalysis.CollectSignals | advanced_analysis.py:107-135 | the signal names are sentiment, then price momentum and volume only for non-empty stock data, then technical only when technical data is given; each value is its sub-signal, the volume directed by the momentum, the technical one the mean of the last row's votes |
| AdvancedAnalysis.GenerateTradingSignal | advanced_analysis.py:107-146 | the sub-signals as above, the technical one the mean of the last row's votes; the overall signal is their weighted average and lies between the smallest and largest sub-signal; strength is its absolute value; recommendation and confidence follow from it |
| AdvancedAnalysis.ImpactCategoriesBounds | advanced_analysis.py:256-263 | every category multiplier lies in [1.1, 2.0] |
| AdvancedAnalysis.DetectedExactly | advanced_analysis.py:277-280 | a category is detected exactly when one of its keywords occurs in the text |
| AdvancedAnalysis.StrongestIsLargest | advanced_analysis.py:273-279 | the running maximum is at least 1.0, at least every matched category's multiplier, and either 1.0 or one of them |
| AdvancedAnalysis.CalculateImpactScore | advanced_analysis.py:265-290 | impact = confidence × category multiplier; the multiplier is the maximum over matched categories (or 1.0); the detected list is the matched categories in table order, or `["general"]` when none matched |
| AdvancedAnalysis.CategoryMultiplierAtMostTwo | advanced_analysis.py:256-279 | the category multiplier over the source's table is at most 2.0 |
| LlmValidation.Insert | nlp_processor.py:63 | inserting the next entry into a length-ordered list keeps the order and adds exactly that entry |
| LlmValidation.SortedPositions | nlp_processor.py:63 | the sorted order is a permutation of the entries' positions, longer names first and equal lengths in the model's order |
| LlmValidation.SortedPositionsPermute | nlp_processor.py:63 | the entries picked in sorted order are a permutation of the entries |
| LlmValidation.SortIsPermutation | nlp_processor.py:63 | sorting by name length neither drops nor adds an entry |
| LlmValidation.SortIsDescending | nlp_processor.py:63 | sorted names never grow in length |
| LlmValidation.KnownMatches | nlp_processor.py:67-71 | the matches are known-map entries whose name equals the company case-insensitively, and there are none exactly when no known name does |
| LlmValidation.MatchKnown | nlp_processor.py:67-71 | the inner loop collects exactly those matches, in the known map's order |
| LlmValidation.FirstKnown | nlp_processor.py:67-71 | for a known company, the first match is a known-map entry with the same name case-insensitively |
| LlmValidation.ValidationsEmpty | nlp_processor.py:65-74 | nothing validates exactly when no sorted name is known |
| LlmValidation.ValidationsHead | nlp_processor.py:65-76 | the first validated pair comes from the first known name in sorted order |
| LlmValidation.Validate | nlp_processor.py:65-71 | the validation loop collects exactly `Validations`: for each sorted name in turn, its case-insensitive matches in the known map |
| LlmValidation.FirstKnownIsPreferred | nlp_processor.py:63-76 | the first known name in sorted order is the preferred entry: a longest known name, the model's first among equal lengths |
| LlmValidation.PreferredIsUnique | nlp_processor.py:63 | at most one entry is preferred |
| LlmValidation.KnownSurvivesSort | nlp_processor.py:63-74 | some entry is known exactly when some sorted entry is known |
| LlmValidation.ExtractTickers | nlp_processor.py:28-90 | at most one entry; `{}` for no key, a failed call or an empty object; the preferred known entry with the known map's name and ticker when any name validates; otherwise the model's first entry when its ticker is truthy, else `{}` |
| CoreNlp.LabelOf | core_nlp.py:25-28 | the label is always Positive, Negative or Neutral |
| CoreNlp.CapitalizedContains | core_nlp.py:25-27 | after `capitalize()`, a capitalised word occurs in the reply exactly when the reply starts with that word in any case |
| CoreNlp.LabelOfReply | core_nlp.py:25-28 | Positive exactly when the stripped reply starts with "positive" (any case); otherwise Negative exactly when it starts with "negative" |
| CoreNlp.LateLabelIsNeutral | core_nlp.py:25-28 | a label that does not open the reply is lost: a reply with no surrounding whitespace whose first letter is neither p nor n (such as "It is Positive") reads as Neutral |
| CoreNlp.AnalyzeSentimentCore | core_nlp.py:17-31 | no client or empty text gives Neutral/0.5; confidence is 0.9 exactly when the call on the first 1500 characters answers; a failed call gives Neutral/0.5 |
| CoreNlp.ClassifyEventTypeCore | core_nlp.py:33-44 | no client or a failed call gives "General News"; an answered call gives a stripped reply |
| CoreNlp.ReplyIsTrusted | core_nlp.py:42 | an answered reply is returned stripped and otherwise unchecked against the category list |
| Strings.Take | core_nlp.py:22 | the slice is a prefix of at most the limit, and the whole text when it is shorter |
| Strings.Capitalize | core_nlp.py:25 | the length is kept, the first character is upper-cased and every later one is lower-cased |
| Strings.Strip | core_nlp.py:42 | the stripped text is a contiguous piece of the original, everything cut off before and after it is whitespace, and it neither starts nor ends with whitespace |
| Strings.ContainsAt | worker.py:51 | substring containment holds exactly when the needle occurs at some position |
| Dicts.Put | worker.py:53 | assignment into a dict keeps keys distinct, replaces an existing key's value in place and appends a new key at the end |
| Dicts.GetAfterPut | worker.py:63 | after an assignment the key reads its new value and every other key its old one |
| Dicts.GetPutPresent | worker.py:48-53 | filling a dict with the present values reads, for each key, its last present value |
| StockData.Suffix | stock_data.py:21-24 | ".NS" exactly for exchange "NSE", ".BO" for every other value |
| StockData.PriceKeyInjective | stock_data.py:27 | the price cache key determines the ticker it was built from |
| StockData.TimedeltaSeconds | stock_data.py:138 | the `seconds` reading of an age lies in [0, 86400) |
| StockData.WholeDaysIgnored | stock_data.py:138 | adding whole days to an entry's age does not change its `seconds` reading |
| StockData.DayOldEntryReadsAsTenSeconds | stock_data.py:138 | an entry one day and ten seconds old reads as ten seconds old, so it counts as fresh |
| StockData.QuoteOf | stock_data.py:39-42 | current price is the last close; previous close is the second-to-last close, or the current one for a single row; change is their difference; the change percentage is 0 for a zero previous close and otherwise has the change's sign |
| StockData.LookupPaths | stock_data.py:26-61 | a fresh hit returns the stored data and leaves the cache alone; a failed or empty fetch returns nothing and caches nothing; a successful fetch is returned and cached under the key stamped now; no other key changes |
| StockData.StockDataFetcher.constructor | stock_data.py:13-15 | the cache starts empty with a 300-second lifetime |
| StockData.StockDataFetcher.CacheData | stock_data.py:140-145 | only the given key is overwritten, with the data and the current time |
| StockData.StockDataFetcher.GetStockPrice | stock_data.py:17-65 | the price lookup follows the cache paths under key `<full ticker>_price` with a two-day history fetch |
| StockData.StockDataFetcher.GetHistoricalData | stock_data.py:67-91 | the history lookup follows the cache paths under key `<full ticker>_hist_<period>` |
| StockData.StockDataFetcher.GetMultipleStocks | stock_data.py:123-130 | the loop yields `MultipleLookup`'s results and cache, one price lookup per company in input order |
| StockData.MultipleLookupCache | stock_data.py:123-138 | looking up several companies only adds fresh entries that a price lookup would also have produced |
| StockData.LookupOnGrownCache | stock_data.py:132-138 | on such a grown cache, a company's price is available exactly when it was available on the original cache |
| StockData.MultipleStocksStep | stock_data.py:126-129 | each company adds its name to the results exactly when its price is available |
| StockData.MultipleStocksNames | stock_data.py:123-130 | the result's companies are exactly the available input companies |
| StockData.AvailableNamesExactly | stock_data.py:126-129 | a company is among the available names exactly when some input entry with that name has an available price |
| StockData.MultipleStocksKeys | stock_data.py:123-130 | a company is in the result exactly when some input entry for it has a fresh cached or successfully fetched price |
| Backtester.ReturnSign | backtester.py:79-80 | with a positive open, the return is positive exactly when the close is above the open, and a flat day counts as Negative |
| Backtester.Evaluate | backtester.py:44-81 | an evaluated row is not Neutral, keeps its ticker, date and prediction, comes from a download with at least two days and a usable non-zero second-day open and close, has the return (close − open) / open × 100 of that second day, and is correct exactly when the prediction equals the actual movement |
| Backtester.EvaluatedWhen | backtester.py:44-77 | a row is evaluated exactly when it is not Neutral and the download answers with two or more rows whose second open and close are present and the open is non-zero |
| Backtester.CountCorrect | backtester.py:83-84 | there are never more correct evaluations than evaluations |
| Backtester.EvaluationsFromRows | backtester.py:39-87 | there are at most as many evaluations as rows, and each comes from a non-Neutral row |
| Backtester.RunBacktest | backtester.py:35-87 | the loop records exactly the evaluations of the rows, in order; total is their number and correct the number of correct ones, so correct ≤ total ≤ rows |
| Backtester.Accuracy | backtester.py:97-106 | accuracy is reported exactly when something was evaluated, lies in [0, 100], and is 100 exactly when all were correct and 0 exactly when none were |

## Left out

- External services are parameters, constrained only as stated:
  - the fuzzy scorer (any value in 0..100);
  - the NER model and sentence splitter;
  - the language model (a reply, or an exception as `Raised`);
  - the company graph;
  - the TextBlob polarity;
  - `np.tanh` (sign-preserving and bounded in (-1, 1) where a lemma needs it) and `np.std`;
  - the price feeds (yfinance history and download).
- The clock is a single reading `now`, in microseconds, passed to each call.
- Floating point is modelled as `real`. `round(..., 2)` on quote fields, the `f"{...:.2f}%"` formatting of backtest returns and IEEE rounding are not modelled.
- Strings: case mapping (`str.lower`, `capitalize`) and the letter, digit, `\w` and `\b` classes are ASCII only; Unicode case mapping and non-ASCII letters and digits are not modelled. Whitespace (`str.strip`, `split()`, `\s`) is Python's full `str.isspace()` set.
- Python set iteration order in the candidate loop of `extract_tickers` is arbitrary, so the result is stated up to order. When two candidates validate to the same name, which `ner_name` is kept is not pinned down.
- EntityValidator.ValidateCandidates: stated up to iteration order; it does not say which of several candidates for the same name supplies `ner_name`.
- The worker uses the extractor whose entries are `{ticker, ner_name}` (the shape worker.py:50 reads). The extractor is a parameter of the worker, not a call into `EntityValidator`. The key figures come from `KeyFigures.ExtractKeyFigures`, which the worker calls with its NER-model parameter.
- Worker.ProcessArticle: requires a well-formed NER document (spans inside the token list) for the key-figure classifier. The NER model is outside the model and guarantees that itself.
- Worker: `sentiment_result.get('confidence', 0.0)` always finds a confidence, because every verdict in the model carries one. The 0.0 default is unreachable and not modelled.
- Worker: the one `try` around the whole feed (worker.py:74-75), which ends the feed on the first exception, is not modelled; external calls answer. Logging is left out.
- Worker: the insight is a record. The database write and the `json.dumps` of the key figures are left out.
- The prompts are the `Prompt` datatype rather than their text. The ticker-extraction prompt is folded into the `llm` parameter.
- LlmValidation: a reply that does not parse, or parses to something other than an object, is `Raised`.
- LlmValidation.ExtractTickers: the parsed reply is a list of (company, ticker) pairs that may repeat a company. A Python dict from `json.loads` keeps only the last value for a repeated key, and the model does not enforce that. Its properties hold for every list, so they also hold for the repeat-free lists a dict gives.
- The known-company map, the fuzzy threshold, the blocklist, the event multipliers, the competitive keywords, the keyword tables and the signal weights are passed in as parameters. The source's values appear as constants with lemmas about them. nlp_processor.py:8 imports a name that ticker_mapping.py does not define, so the known map is an input. The registry's lower-casing of names (ticker_utils.py:18) is outside the model.
- StockData: the `info` fields (market cap, P/E, 52-week range) and the `'Volume' in hist` check are left out; the volume is taken from the last row. DataFrame truthiness is read as "non-empty". The date reformatting in `get_historical_data` is left out.
- StockData: technical indicators (stock_data.py:93-121), the rendering helper `generate_enhanced_insight` (stock_data.py:184-228) and `AlphaVantageStockData` (stock_data.py:148-182) are not part of this model.
- AdvancedAnalysis: `_price_momentum_signal` is modelled as `tanh(change_percent / 5)`, with `tanh` a parameter. The technical rows carry only RSI, close, MA20 and MA50.
- Backtester: the database query and its three-day age filter (backtester.py:19-31), the start-date arithmetic and the printed report are left out. The download is a parameter keyed by ticker and prediction day. A download exception skips the row, as the `except` at backtester.py:89-90 does.
- app.py imports names that do not exist. It, the database, scraper, dashboard, scheduler, graph ingestion, enrichment and inference files, and the smoke scripts are not part of this model. The Infosys/Wipro sample of test_knowledge_graph.py:69-70 is used as a test vector.
