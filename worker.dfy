/**
 * The per-article decisions of the news worker: which companies an
 * article is about, which sentences speak for each of them, the sentiment
 * verdict per ticker, the competitive override driven by the knowledge
 * graph, and the insight rows that are saved with their impact scores.
 */
module Worker {
  import opened Common
  import opened Strings
  import opened Dicts
  import opened EntityValidator
  import opened KeyFigures
  import opened CoreNlp

  datatype Article = Article(title: string, content: string, link: string)

  /**
   * What the worker calls out to.  `extract` is the entity validator's
   * result, `{official name: {ticker, ner_name}}`, in its iteration order;
   * `nlp` is the spaCy pipeline (its sentences are used here); `client` is
   * the chat client used for sentiment and event classification;
   * `competitors` is the knowledge-graph query for a ticker's sector peers.
   */
  datatype Services = Services(
    extract: string -> Dict<string, Validated>,
    nlp: string -> Doc,
    client: Option<Chat>,
    competitors: string -> seq<string>)

  /** The competitive keywords and the event multiplier table of the configuration. */
  datatype Settings = Settings(keywords: set<string>, multipliers: map<string, real>)

  /** One row handed to `save_specific_insight`. */
  datatype Insight = Insight(
    title: string, link: string, companyName: string, ticker: string,
    sentiment: Sentiment, eventType: string, impactScore: real,
    keyFigures: map<Slot, Figure>)

  /** The verdict forced on the loser of a competitive headline. */
  const Forced := Sentiment("Negative", 0.98)

  /** Python truthiness of a string. */
  predicate Truthy(s: string) { s != "" }

  /** `extract_tickers(title) or extract_tickers(content)` */
  function PrimaryTickers(svc: Services, a: Article): Dict<string, Validated>
  {
    if svc.extract(a.title) != [] then svc.extract(a.title) else svc.extract(a.content)
  }

  /** The content is consulted only when the headline names no company. */
  lemma TitleFirst(svc: Services, a: Article)
    ensures svc.extract(a.title) != [] ==> PrimaryTickers(svc, a) == svc.extract(a.title)
    ensures PrimaryTickers(svc, a) == [] <==> svc.extract(a.title) == [] && svc.extract(a.content) == []
  {
  }

  /** `EVENT_IMPACT_MULTIPLIERS.get(event_type, 1.0)` */
  function EventMultiplier(multipliers: map<string, real>, eventType: string): (m: real)
    ensures eventType !in multipliers ==> m == 1.0
    ensures eventType in multipliers ==> m == multipliers[eventType]
  {
    if eventType in multipliers then multipliers[eventType] else 1.0
  }

  /** The sentences, in document order, in which `nerName` occurs as a case-sensitive substring. */
  function RelevantSentences(sents: seq<string>, nerName: string): (r: seq<string>)
    ensures |r| <= |sents|
  {
    if sents == [] then []
    else (if Contains(sents[0], nerName) then [sents[0]] else []) + RelevantSentences(sents[1..], nerName)
  }

  /** A sentence is relevant exactly when it is one of the sentences and mentions `nerName`. */
  lemma {:induction false} RelevantExactly(sents: seq<string>, nerName: string)
    ensures forall s :: s in RelevantSentences(sents, nerName) <==> s in sents && Contains(s, nerName)
  {
    if sents != [] {
      RelevantExactly(sents[1..], nerName);
      assert sents == [sents[0]] + sents[1..];
    }
  }

  /** The verdict one company earns from the article: none when no sentence mentions it. */
  function VerdictFor(sents: seq<string>, client: Option<Chat>, data: Validated): (r: Option<Sentiment>)
    ensures r.Some? <==> RelevantSentences(sents, data.nerName) != []
  {
    var relevant := RelevantSentences(sents, data.nerName);
    if relevant == [] then None else Some(AnalyzeSentimentCore(client, Join(relevant, " ")))
  }

  /** Each company's ticker paired with the verdict it earns, in company order. */
  function Votes(primary: Dict<string, Validated>, sents: seq<string>, client: Option<Chat>): (v: seq<(string, Option<Sentiment>)>)
    ensures |v| == |primary|
  {
    seq(|primary|, i requires 0 <= i < |primary| => (primary[i].1.ticker, VerdictFor(sents, client, primary[i].1)))
  }

  /** `sentiment_results` after the first loop: each verdict assigned to its ticker, in company order. */
  function Verdicts(primary: Dict<string, Validated>, sents: seq<string>, client: Option<Chat>): (r: Dict<string, Sentiment>)
    ensures DistinctKeys(r)
  {
    PutPresent(Votes(primary, sents, client), |primary|)
  }

  /** Company `i` of `primary` has ticker `t` and is mentioned in some sentence. */
  predicate MentionedAs(primary: Dict<string, Validated>, sents: seq<string>, i: int, t: string)
  {
    0 <= i < |primary| && primary[i].1.ticker == t && RelevantSentences(sents, primary[i].1.nerName) != []
  }

  /**
   * A ticker has a verdict exactly when one of its companies is mentioned in
   * some sentence, and the verdict is the one earned by the last such company.
   */
  lemma VerdictOfTicker(primary: Dict<string, Validated>, sents: seq<string>, client: Option<Chat>, t: string)
    ensures Get(Verdicts(primary, sents, client), t).Some? <==> exists i :: MentionedAs(primary, sents, i, t)
    ensures forall i :: (MentionedAs(primary, sents, i, t) && (forall j :: i < j < |primary| ==> !MentionedAs(primary, sents, j, t))
      ==> Get(Verdicts(primary, sents, client), t) == VerdictFor(sents, client, primary[i].1))
  {
    var votes := Votes(primary, sents, client);
    assert forall i :: PresentAt(votes, i, t) <==> MentionedAs(primary, sents, i, t);
    GetPutPresent(votes, t, |primary|);
    var last := LastPresent(votes, t, |primary|);
    forall i | MentionedAs(primary, sents, i, t) && (forall j :: i < j < |primary| ==> !MentionedAs(primary, sents, j, t))
      ensures last == Some(i)
    {
      assert PresentAt(votes, i, t);
      assert MentionedAs(primary, sents, last.value, t);
    }
  }

  /** The `Positive` verdict at position `i` of `results`. */
  predicate PositiveAt(results: Dict<string, Sentiment>, i: int)
  {
    0 <= i < |results| && results[i].1.sentiment == "Positive"
  }

  /** The first ticker from position `k` on whose verdict is Positive, as `next(...)` finds it. */
  function Winner(results: Dict<string, Sentiment>, k: nat): (w: Option<string>)
    requires k <= |results|
    ensures w.None? <==> forall i :: k <= i < |results| ==> !PositiveAt(results, i)
    ensures w.Some? ==> exists i :: (k <= i < |results| && PositiveAt(results, i) && results[i].0 == w.value
      && forall j :: k <= j < i ==> !PositiveAt(results, j))
    decreases |results| - k
  {
    if k == |results| then None
    else if results[k].1.sentiment == "Positive" then
      assert PositiveAt(results, k);
      Some(results[k].0)
    else Winner(results, k + 1)
  }

  /** Position `i`, from `k` on, holds the first competitor that is also a headline ticker. */
  predicate FirstInHeadline(competitors: seq<string>, headline: set<string>, k: nat, i: nat)
  {
    k <= i < |competitors| && competitors[i] in headline && forall j :: k <= j < i ==> competitors[j] !in headline
  }

  /** The first competitor that is also a headline ticker. */
  function Loser(competitors: seq<string>, headline: set<string>, k: nat): (l: Option<string>)
    requires k <= |competitors|
    ensures l.None? <==> forall i :: k <= i < |competitors| ==> competitors[i] !in headline
    ensures l.Some? ==> exists i: nat :: FirstInHeadline(competitors, headline, k, i) && competitors[i] == l.value
    decreases |competitors| - k
  {
    if k == |competitors| then None
    else if competitors[k] in headline then
      assert FirstInHeadline(competitors, headline, k, k);
      Some(competitors[k])
    else Loser(competitors, headline, k + 1)
  }

  /** `{data['ticker'] for data in (extract_tickers(title) or {}).values()}` */
  function HeadlineTickers(found: Dict<string, Validated>): (ts: set<string>)
    ensures forall t :: t in ts <==> exists i :: 0 <= i < |found| && found[i].1.ticker == t
  {
    set i | 0 <= i < |found| :: found[i].1.ticker
  }

  /** At least two distinct headline tickers, and a competitive keyword inside the lower-cased title. */
  predicate Competitive(headline: set<string>, title: string, keywords: set<string>)
  {
    |headline| > 1 && exists kw :: kw in keywords && Contains(Lower(title), kw)
  }

  /** The ticker whose verdict the competitive rule overrides, if the rule fires. */
  function OverrideTarget(results: Dict<string, Sentiment>, headline: set<string>, title: string,
                          keywords: set<string>, competitors: string -> seq<string>): (l: Option<string>)
    ensures l.Some? ==> Competitive(headline, title, keywords) && l.value in headline && Truthy(l.value)
    ensures l.Some? ==> exists w :: Winner(results, 0) == Some(w) && Truthy(w) && l.value in competitors(w)
    ensures l.Some? ==> Winner(results, 0).Some? && l == Loser(competitors(Winner(results, 0).value), headline, 0)
    ensures (Competitive(headline, title, keywords) && Winner(results, 0).Some? && Truthy(Winner(results, 0).value)
             && Loser(competitors(Winner(results, 0).value), headline, 0).Some?
             && Truthy(Loser(competitors(Winner(results, 0).value), headline, 0).value)) ==> l.Some?
  {
    if !Competitive(headline, title, keywords) then None
    else
      match Winner(results, 0)
      case None => None
      case Some(winner) =>
        if !Truthy(winner) then None
        else
          match Loser(competitors(winner), headline, 0)
          case None => None
          case Some(loser) => if Truthy(loser) then Some(loser) else None
  }

  /** `sentiment_results` after the competitive rule. */
  function ApplyRule(results: Dict<string, Sentiment>, headline: set<string>, title: string,
                     keywords: set<string>, competitors: string -> seq<string>): (r: Dict<string, Sentiment>)
    requires DistinctKeys(results)
    ensures DistinctKeys(r)
  {
    match OverrideTarget(results, headline, title, keywords, competitors)
    case None => results
    case Some(loser) => Put(results, loser, Forced)
  }

  /** Only the loser's verdict changes, to Negative with confidence 0.98; every other verdict stays as it was. */
  lemma OnlyLoserChanges(results: Dict<string, Sentiment>, headline: set<string>, title: string,
                         keywords: set<string>, competitors: string -> seq<string>, t: string)
    requires DistinctKeys(results)
    ensures Get(ApplyRule(results, headline, title, keywords, competitors), t) ==
      if OverrideTarget(results, headline, title, keywords, competitors) == Some(t) then Some(Forced)
      else Get(results, t)
  {
    var target := OverrideTarget(results, headline, title, keywords, competitors);
    if target.Some? {
      GetAfterPut(results, target.value, Forced, t);
    }
  }

  /** Without two headline tickers, a keyword, a Positive winner or a competitor in the headline, nothing is overridden. */
  lemma RuleNeedsAllConditions(results: Dict<string, Sentiment>, headline: set<string>, title: string,
                               keywords: set<string>, competitors: string -> seq<string>)
    requires DistinctKeys(results)
    requires || |headline| < 2
             || (forall kw :: kw in keywords ==> !Contains(Lower(title), kw))
             || (forall i :: 0 <= i < |results| ==> results[i].1.sentiment != "Positive")
             || (forall w :: Winner(results, 0) == Some(w) ==> forall c :: c in competitors(w) ==> c !in headline)
    ensures ApplyRule(results, headline, title, keywords, competitors) == results
  {
  }

  /** The verdicts the insights are saved with. */
  function FinalVerdicts(svc: Services, cfg: Settings, a: Article): (r: Dict<string, Sentiment>)
    ensures DistinctKeys(r)
  {
    ApplyRule(FirstVerdicts(svc, a), HeadlineTickers(svc.extract(a.title)), a.title, cfg.keywords, svc.competitors)
  }

  /** The row saved for one company: its impact score is confidence times source weight times event multiplier. */
  function Row(a: Article, company: string, ticker: string, v: Sentiment, eventType: string,
               weight: real, multiplier: real, figures: map<Slot, Figure>): Insight
  {
    Insight(a.title, a.link, company, ticker, v, eventType, v.confidence * weight * multiplier, figures)
  }

  /** The rows of the second loop over the first `n` companies: one per company whose ticker has a verdict. */
  function Persisted(a: Article, primary: Dict<string, Validated>, results: Dict<string, Sentiment>,
                     eventType: string, weight: real, multiplier: real, figures: map<Slot, Figure>, n: nat): (r: seq<Insight>)
    requires n <= |primary|
    ensures |r| <= n
  {
    if n == 0 then []
    else
      var prev := Persisted(a, primary, results, eventType, weight, multiplier, figures, n - 1);
      var company := primary[n - 1].0;
      var ticker := primary[n - 1].1.ticker;
      match Get(results, ticker)
      case None => prev
      case Some(v) => prev + [Row(a, company, ticker, v, eventType, weight, multiplier, figures)]
  }

  /** A saved row is `Row` of one of the companies, with the verdict its ticker holds. */
  predicate RowOf(a: Article, primary: Dict<string, Validated>, results: Dict<string, Sentiment>,
                  eventType: string, weight: real, multiplier: real, figures: map<Slot, Figure>, n: nat, row: Insight)
    requires n <= |primary|
  {
    && Get(results, row.ticker) == Some(row.sentiment)
    && row.impactScore == row.sentiment.confidence * weight * multiplier
    && row.title == a.title && row.link == a.link && row.eventType == eventType && row.keyFigures == figures
    && (exists i :: 0 <= i < n && primary[i].0 == row.companyName && primary[i].1.ticker == row.ticker)
  }

  /**
   * Every saved row names one of the companies and its ticker, carries the
   * verdict of that ticker, and scores confidence times source weight times
   * event multiplier.
   */
  lemma {:induction false} PersistedRows(a: Article, primary: Dict<string, Validated>, results: Dict<string, Sentiment>,
                                         eventType: string, weight: real, multiplier: real, figures: map<Slot, Figure>, n: nat)
    requires n <= |primary|
    ensures forall row :: row in Persisted(a, primary, results, eventType, weight, multiplier, figures, n) ==>
      RowOf(a, primary, results, eventType, weight, multiplier, figures, n, row)
  {
    if n > 0 {
      PersistedRows(a, primary, results, eventType, weight, multiplier, figures, n - 1);
      var prev := Persisted(a, primary, results, eventType, weight, multiplier, figures, n - 1);
      forall row | row in prev
        ensures RowOf(a, primary, results, eventType, weight, multiplier, figures, n, row)
      {
        assert RowOf(a, primary, results, eventType, weight, multiplier, figures, n - 1, row);
      }
    }
  }

  /** How many rows name company `c`. */
  function RowsFor(rows: seq<Insight>, c: string): nat
  {
    if rows == [] then 0
    else RowsFor(rows[..|rows| - 1], c) + (if rows[|rows| - 1].companyName == c then 1 else 0)
  }

  /** Company `i` of `primary` is `c` and its ticker has a verdict. */
  predicate SavedCompany(primary: Dict<string, Validated>, results: Dict<string, Sentiment>, i: int, c: string)
  {
    0 <= i < |primary| && primary[i].0 == c && primary[i].1.ticker in Keys(results)
  }

  /** Some company among the first `n` is `c` and its ticker has a verdict. */
  predicate AnySaved(primary: Dict<string, Validated>, results: Dict<string, Sentiment>, c: string, n: nat)
  {
    exists i :: 0 <= i < n && SavedCompany(primary, results, i, c)
  }

  /** Exactly one row is saved for each company whose ticker has a verdict, and none for the others. */
  lemma {:induction false} OneRowPerCompany(a: Article, primary: Dict<string, Validated>, results: Dict<string, Sentiment>,
                                            eventType: string, weight: real, multiplier: real, figures: map<Slot, Figure>,
                                            c: string, n: nat)
    requires DistinctKeys(primary) && n <= |primary|
    ensures RowsFor(Persisted(a, primary, results, eventType, weight, multiplier, figures, n), c) ==
      if AnySaved(primary, results, c, n) then 1 else 0
  {
    if n > 0 {
      OneRowPerCompany(a, primary, results, eventType, weight, multiplier, figures, c, n - 1);
      var prev := Persisted(a, primary, results, eventType, weight, multiplier, figures, n - 1);
      var rows := Persisted(a, primary, results, eventType, weight, multiplier, figures, n);
      if SavedCompany(primary, results, n - 1, c) {
        assert AnySaved(primary, results, c, n);
        assert !AnySaved(primary, results, c, n - 1) by {
          assert forall i :: 0 <= i < n - 1 ==> primary[i].0 != primary[n - 1].0;
        }
        assert rows[..|rows| - 1] == prev;
      } else {
        assert AnySaved(primary, results, c, n) == AnySaved(primary, results, c, n - 1);
        if primary[n - 1].1.ticker in Keys(results) {
          assert rows[..|rows| - 1] == prev;
        }
      }
    }
  }

  /** Every company among the first `n` whose ticker has a verdict has a row. */
  lemma {:induction false} RowForVerdict(a: Article, primary: Dict<string, Validated>, results: Dict<string, Sentiment>,
                                         eventType: string, weight: real, multiplier: real, figures: map<Slot, Figure>,
                                         i: nat, n: nat)
    requires i < n <= |primary| && primary[i].1.ticker in Keys(results)
    ensures exists k :: (0 <= k < |Persisted(a, primary, results, eventType, weight, multiplier, figures, n)|
      && Persisted(a, primary, results, eventType, weight, multiplier, figures, n)[k].ticker == primary[i].1.ticker)
  {
    var rows := Persisted(a, primary, results, eventType, weight, multiplier, figures, n);
    if i == n - 1 {
      assert rows[|rows| - 1].ticker == primary[i].1.ticker;
    } else {
      RowForVerdict(a, primary, results, eventType, weight, multiplier, figures, i, n - 1);
      var prev := Persisted(a, primary, results, eventType, weight, multiplier, figures, n - 1);
      var k :| 0 <= k < |prev| && prev[k].ticker == primary[i].1.ticker;
      assert rows[k] == prev[k];
    }
  }

  /** The rows saved for one article, given the key figures extracted from its content. */
  function ArticleInsights(svc: Services, cfg: Settings, weight: real, a: Article, figures: map<Slot, Figure>): seq<Insight>
  {
    var primary := PrimaryTickers(svc, a);
    if primary == [] then []
    else
      var eventType := ClassifyEventTypeCore(svc.client, a.title);
      Persisted(a, primary, FinalVerdicts(svc, cfg, a), eventType, weight, EventMultiplier(cfg.multipliers, eventType), figures, |primary|)
  }

  /** An article that names no company in its headline or its content produces no rows. */
  lemma SkippedArticle(svc: Services, cfg: Settings, weight: real, a: Article, figures: map<Slot, Figure>)
    requires svc.extract(a.title) == [] && svc.extract(a.content) == []
    ensures ArticleInsights(svc, cfg, weight, a, figures) == []
  {
  }

  /** The competitive keywords of the configuration. */
  const CompetitiveKeywords: set<string> := {"beats", "wins", "outperforms", "loses to", "rival"}

  /**
   * The Infosys/Wipro headline: with Infosys judged Positive and Wipro among
   * its sector peers, Wipro's verdict is forced to Negative/0.98 and Infosys
   * keeps its own.
   */
  lemma InfosysBeatsWipro(competitors: string -> seq<string>)
    requires competitors("INFY.NS") == ["TCS.NS", "WIPRO.NS"]
    ensures ApplyRule([("INFY.NS", Sentiment("Positive", 0.9)), ("WIPRO.NS", Sentiment("Neutral", 0.9))],
                      {"INFY.NS", "WIPRO.NS"}, SampleHeadline, CompetitiveKeywords, competitors)
      == [("INFY.NS", Sentiment("Positive", 0.9)), ("WIPRO.NS", Forced)]
  {
    var results := [("INFY.NS", Sentiment("Positive", 0.9)), ("WIPRO.NS", Sentiment("Neutral", 0.9))];
    var headline := {"INFY.NS", "WIPRO.NS"};
    SampleHeadlineIsCompetitive();
    assert |"TCS.NS"| == 6 && |"INFY.NS"| == 7 && |"WIPRO.NS"| == 8;
    assert "TCS.NS" !in headline;
    assert Winner(results, 0) == Some("INFY.NS");
    assert Loser(competitors("INFY.NS"), headline, 0) == Some("WIPRO.NS");
  }

  /** The sample headline, "Infosys wins multi-billion dollar AI deal, beats out rival Wipro". */
  const SampleHeadline := "Infosys " + "wins" + " multi-billion dollar AI deal, beats out rival Wipro"

  lemma SampleHeadlineIsCompetitive()
    ensures Competitive({"INFY.NS", "WIPRO.NS"}, SampleHeadline, CompetitiveKeywords)
  {
    assert |"INFY.NS"| == 7 && |"WIPRO.NS"| == 8;
    assert |{"INFY.NS", "WIPRO.NS"}| == 2;
    var low := Lower(SampleHeadline);
    assert |"Infosys "| == 8;
    forall j | 0 <= j < 4
      ensures low[8 + j] == "wins"[j]
    {
      assert SampleHeadline[8 + j] == "wins"[j];
    }
    assert low[8..12] == "wins";
    assert OccursAt(low, "wins", 8);
    ContainsAt(low, "wins");
  }

  /** An earnings report from a source of weight 1.0 judged with confidence 0.9 scores an impact of 1.26. */
  lemma EarningsImpact(a: Article, company: string, ticker: string, figures: map<Slot, Figure>)
    ensures var table := map["Merger or Acquisition" := 1.5, "Earnings Report" := 1.4, "Legal or Regulatory Issue" := 1.3];
      Row(a, company, ticker, Sentiment("Positive", 0.9), "Earnings Report", 1.0,
          EventMultiplier(table, "Earnings Report"), figures).impactScore == 1.26
  {
  }

  /** The verdicts before the competitive rule. */
  function FirstVerdicts(svc: Services, a: Article): (r: Dict<string, Sentiment>)
    ensures DistinctKeys(r)
  {
    Verdicts(PrimaryTickers(svc, a), svc.nlp(a.content).sents, svc.client)
  }

  /** The loser of a competitive headline is one of the article's companies, and its final verdict is the forced one. */
  lemma LoserIsPrimary(svc: Services, cfg: Settings, a: Article, loser: string) returns (i: nat)
    requires OverrideTarget(FirstVerdicts(svc, a), HeadlineTickers(svc.extract(a.title)), a.title, cfg.keywords, svc.competitors)
             == Some(loser)
    ensures i < |PrimaryTickers(svc, a)| && PrimaryTickers(svc, a)[i].1.ticker == loser
    ensures Get(FinalVerdicts(svc, cfg, a), loser) == Some(Forced)
  {
    assert PrimaryTickers(svc, a) == svc.extract(a.title);
    i :| 0 <= i < |PrimaryTickers(svc, a)| && PrimaryTickers(svc, a)[i].1.ticker == loser;
    OnlyLoserChanges(FirstVerdicts(svc, a), HeadlineTickers(svc.extract(a.title)), a.title, cfg.keywords, svc.competitors, loser);
  }

  /** Some row carries verdict `v`. */
  predicate HasRowWith(rows: seq<Insight>, v: Sentiment)
  {
    exists k :: 0 <= k < |rows| && rows[k].sentiment == v
  }

  /**
   * When the competitive rule fires, the loser is one of the headline's
   * companies, so a row is saved for it carrying the forced verdict.
   */
  lemma LoserIsSaved(svc: Services, cfg: Settings, weight: real, a: Article, figures: map<Slot, Figure>)
    requires OverrideTarget(FirstVerdicts(svc, a), HeadlineTickers(svc.extract(a.title)), a.title, cfg.keywords, svc.competitors).Some?
    ensures HasRowWith(ArticleInsights(svc, cfg, weight, a, figures), Forced)
  {
    var loser := OverrideTarget(FirstVerdicts(svc, a), HeadlineTickers(svc.extract(a.title)), a.title, cfg.keywords, svc.competitors).value;
    var i := LoserIsPrimary(svc, cfg, a, loser);
    var primary := PrimaryTickers(svc, a);
    var final := FinalVerdicts(svc, cfg, a);
    var eventType := ClassifyEventTypeCore(svc.client, a.title);
    var multiplier := EventMultiplier(cfg.multipliers, eventType);
    RowForVerdict(a, primary, final, eventType, weight, multiplier, figures, i, |primary|);
    var rows := Persisted(a, primary, final, eventType, weight, multiplier, figures, |primary|);
    var k :| 0 <= k < |rows| && rows[k].ticker == loser;
    PersistedRows(a, primary, final, eventType, weight, multiplier, figures, |primary|);
    assert RowOf(a, primary, final, eventType, weight, multiplier, figures, |primary|, rows[k]);
    assert rows[k].sentiment == Forced;
    assert HasRowWith(rows, Forced);
    assert primary != [];
  }

  /** The first loop of `process_feed`: a verdict per ticker from the sentences that mention its company. */
  method CollectVerdicts(primary: Dict<string, Validated>, sents: seq<string>, client: Option<Chat>)
    returns (results: Dict<string, Sentiment>)
    ensures results == Verdicts(primary, sents, client)
  {
    ghost var votes := Votes(primary, sents, client);
    results := [];
    for i := 0 to |primary|
      invariant results == PutPresent(votes, i)
    {
      var data := primary[i].1;
      var verdict := VerdictFor(sents, client, data);
      PutPresentStep(votes, i);
      if verdict.Some? {
        results := Put(results, data.ticker, verdict.value);
      }
    }
  }

  /** The competitive rule: the loser's entry of `results` is overwritten in place. */
  method ApplyCompetitiveRule(results: Dict<string, Sentiment>, headline: set<string>, title: string,
                              keywords: set<string>, competitors: string -> seq<string>)
    returns (r: Dict<string, Sentiment>)
    requires DistinctKeys(results)
    ensures r == ApplyRule(results, headline, title, keywords, competitors)
  {
    r := results;
    if |headline| > 1 && exists kw :: kw in keywords && Contains(Lower(title), kw) {
      var winner := Winner(results, 0);
      if winner.Some? && Truthy(winner.value) {
        var loser := Loser(competitors(winner.value), headline, 0);
        if loser.Some? && Truthy(loser.value) {
          r := Put(r, loser.value, Forced);
        }
      }
    }
  }

  /** The second loop of `process_feed`: a row for each company whose ticker has a verdict. */
  method SaveInsights(a: Article, primary: Dict<string, Validated>, results: Dict<string, Sentiment>,
                      eventType: string, weight: real, multiplier: real, figures: map<Slot, Figure>)
    returns (saved: seq<Insight>)
    ensures saved == Persisted(a, primary, results, eventType, weight, multiplier, figures, |primary|)
  {
    saved := [];
    for i := 0 to |primary|
      invariant saved == Persisted(a, primary, results, eventType, weight, multiplier, figures, i)
    {
      var company := primary[i].0;
      var data := primary[i].1;
      var verdict := Get(results, data.ticker);
      if verdict.Some? {
        saved := saved + [Row(a, company, data.ticker, verdict.value, eventType, weight, multiplier, figures)];
      }
    }
  }

  /**
   * The key figures an article is saved with: nothing for an article that
   * names no company, otherwise what the NER model finds in its content.
   */
  ghost predicate ArticleFigures(svc: Services, a: Article, figures: map<Slot, Figure>)
    requires WellFormed(svc.nlp(a.content))
  {
    var ls := Labels(svc.nlp(a.content));
    && (PrimaryTickers(svc, a) == [] ==> figures == map[])
    && (PrimaryTickers(svc, a) != [] ==>
          NamedSlotsFrom(ls, figures) && OtherListFrom(ls, figures, OtherPercent) && OtherListFrom(ls, figures, OtherMoney))
    && Unused !in figures
  }

  /** `process_feed` for one article: the rows it saves, and the key figures stored with them. */
  method ProcessArticle(svc: Services, cfg: Settings, weight: real, a: Article)
    returns (saved: seq<Insight>, figures: map<Slot, Figure>)
    requires WellFormed(svc.nlp(a.content))
    ensures ArticleFigures(svc, a, figures)
    ensures saved == ArticleInsights(svc, cfg, weight, a, figures)
  {
    var primary := svc.extract(a.title);
    if primary == [] {
      primary := svc.extract(a.content);
    }
    if primary == [] {
      return [], map[];
    }
    figures := ExtractKeyFigures(a.content, Some(svc.nlp));
    var eventType := ClassifyEventTypeCore(svc.client, a.title);
    var multiplier := EventMultiplier(cfg.multipliers, eventType);
    var results := CollectVerdicts(primary, svc.nlp(a.content).sents, svc.client);
    var headline := HeadlineTickers(svc.extract(a.title));
    results := ApplyCompetitiveRule(results, headline, a.title, cfg.keywords, svc.competitors);
    saved := SaveInsights(a, primary, results, eventType, weight, multiplier, figures);
  }

  /** The rows saved for a feed, article after article, given the key figures extracted from each article. */
  function FeedInsights(svc: Services, cfg: Settings, weight: real, articles: seq<Article>, figures: seq<map<Slot, Figure>>): seq<Insight>
    requires |figures| == |articles|
  {
    if articles == [] then []
    else
      FeedInsights(svc, cfg, weight, articles[..|articles| - 1], figures[..|figures| - 1])
      + ArticleInsights(svc, cfg, weight, articles[|articles| - 1], figures[|figures| - 1])
  }

  /** Each article of a feed is paired with the key figures `ArticleFigures` describes, built up article by article. */
  ghost predicate FeedFigures(svc: Services, articles: seq<Article>, figures: seq<map<Slot, Figure>>)
    requires |figures| == |articles|
    requires forall i :: 0 <= i < |articles| ==> WellFormed(svc.nlp(articles[i].content))
    decreases |articles|
  {
    var n := |articles|;
    n == 0 || (FeedFigures(svc, articles[..n - 1], figures[..n - 1]) && ArticleFigures(svc, articles[n - 1], figures[n - 1]))
  }

  /** A feed's figures describe each of its articles. */
  lemma {:induction false} FeedFiguresEach(svc: Services, articles: seq<Article>, figures: seq<map<Slot, Figure>>)
    requires |figures| == |articles|
    requires forall i :: 0 <= i < |articles| ==> WellFormed(svc.nlp(articles[i].content))
    requires FeedFigures(svc, articles, figures)
    ensures forall i :: 0 <= i < |articles| ==> ArticleFigures(svc, articles[i], figures[i])
    decreases |articles|
  {
    var n := |articles|;
    if n > 0 {
      FeedFiguresEach(svc, articles[..n - 1], figures[..n - 1]);
      forall i | 0 <= i < n
        ensures ArticleFigures(svc, articles[i], figures[i])
      {
        if i < n - 1 {
          assert articles[..n - 1][i] == articles[i] && figures[..n - 1][i] == figures[i];
        }
      }
    }
  }

  /** Adding the next article with its figures extends a feed's figures. */
  lemma FeedFiguresStep(svc: Services, articles: seq<Article>, figures: seq<map<Slot, Figure>>, fs: map<Slot, Figure>, i: nat)
    requires i < |articles| && |figures| == i
    requires forall j :: 0 <= j < |articles| ==> WellFormed(svc.nlp(articles[j].content))
    requires FeedFigures(svc, articles[..i], figures)
    requires ArticleFigures(svc, articles[i], fs)
    ensures FeedFigures(svc, articles[..i + 1], figures + [fs])
  {
    assert articles[..i + 1][..i] == articles[..i];
    assert articles[..i + 1][i] == articles[i];
    assert (figures + [fs])[..i] == figures;
  }

  /** `process_feed`: every article of the feed in turn, with the feed's source weight. */
  method ProcessFeed(svc: Services, cfg: Settings, weight: real, articles: seq<Article>)
    returns (saved: seq<Insight>, ghost figures: seq<map<Slot, Figure>>)
    requires forall i :: 0 <= i < |articles| ==> WellFormed(svc.nlp(articles[i].content))
    ensures |figures| == |articles|
    ensures forall i :: 0 <= i < |articles| ==> ArticleFigures(svc, articles[i], figures[i])
    ensures saved == FeedInsights(svc, cfg, weight, articles, figures)
  {
    saved := [];
    figures := [];
    for i := 0 to |articles|
      invariant |figures| == i
      invariant FeedFigures(svc, articles[..i], figures)
      invariant saved == FeedInsights(svc, cfg, weight, articles[..i], figures)
    {
      var rows, fs := ProcessArticle(svc, cfg, weight, articles[i]);
      FeedFiguresStep(svc, articles, figures, fs, i);
      assert articles[..i + 1][..i] == articles[..i];
      assert (figures + [fs])[..i] == figures;
      saved := saved + rows;
      figures := figures + [fs];
    }
    assert articles[..|articles|] == articles;
    FeedFiguresEach(svc, articles, figures);
  }
}
