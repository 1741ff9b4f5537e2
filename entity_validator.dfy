/**
 * Entity validation: from a text to the registry companies it names.
 *
 * Candidate organisation names come from the NER model (spans labelled
 * ORG) and from a capitalised-phrase pattern; the survivors of a
 * character-class filter are stripped, checked against a blocklist and
 * matched against every registry name with a fuzzy scorer.  A candidate
 * is accepted for the best-scoring registry name (ties go to the shorter
 * name) when that score is strictly above the threshold, and the result
 * is keyed by the registry name.  The NER model and the scorer are
 * parameters; the scorer answers in 0..100.
 *
 * Also here: the key-figure classifier, which sorts PERCENT and MONEY
 * spans into slots by the words around them.
 */
module EntityValidator {
  import opened Common
  import opened Strings

  /** A fuzzy similarity score, as `token_set_ratio` returns it. */
  type Score = x: int | 0 <= x <= 100

  /** One row of the ticker registry: `{official_name: ticker}`. */
  datatype TickerRecord = TickerRecord(officialName: string, ticker: string)

  /** A token of the NER model's document, with the whitespace that follows it. */
  datatype Token = Token(text: string, ws: string)

  /** A labelled span of tokens `start..end` of the document, and its text. */
  datatype Span = Span(start: int, end: int, kind: string, text: string)

  /** What the NER model returns for a text: tokens, entity spans and sentences. */
  datatype Doc = Doc(tokens: seq<Token>, ents: seq<Span>, sents: seq<string>)

  /** One accepted entry of the result: `{"ticker": ..., "ner_name": ...}`. */
  datatype Validated = Validated(ticker: string, nerName: string)

  predicate DistinctNames(registry: seq<TickerRecord>)
  {
    forall i, j :: 0 <= i < j < |registry| ==> registry[i].officialName != registry[j].officialName
  }

  // ---------------------------------------------------------------------
  // The capitalised-phrase pattern  \b([A-Z][a-zA-Z.&\s]{2,})\b
  // ---------------------------------------------------------------------

  /** The character class `[a-zA-Z.&\s]`. */
  predicate PhraseChar(c: char)
  {
    IsLetter(c) || c == '.' || c == '&' || IsSpace(c)
  }

  predicate WordAt(text: string, i: int)
  {
    0 <= i < |text| && IsWordChar(text[i])
  }

  /** `\b` at position `i`: a word character on exactly one side. */
  predicate Boundary(text: string, i: int)
  {
    WordAt(text, i - 1) != WordAt(text, i)
  }

  /** Length of the longest run of `PhraseChar` characters starting at `i`. */
  function PhraseRun(text: string, i: nat): (n: nat)
    requires i <= |text|
    ensures i + n <= |text|
    ensures forall j :: i <= j < i + n ==> PhraseChar(text[j])
    ensures i + n < |text| ==> !PhraseChar(text[i + n])
    decreases |text| - i
  {
    if i < |text| && PhraseChar(text[i]) then 1 + PhraseRun(text, i + 1) else 0
  }

  /** The greedy repetition backs off from `hi` towards `lo` until `\b` holds. */
  function LastBoundary(text: string, lo: nat, hi: nat): (r: Option<nat>)
    requires hi <= |text|
    ensures r.Some? ==> lo <= r.value <= hi && Boundary(text, r.value)
    ensures r.Some? ==> forall e :: r.value < e <= hi ==> !Boundary(text, e)
    ensures r.None? ==> forall e :: lo <= e <= hi ==> !Boundary(text, e)
    decreases hi
  {
    if hi < lo then None
    else if Boundary(text, hi) then Some(hi)
    else if hi == 0 then None
    else LastBoundary(text, lo, hi - 1)
  }

  /** End of the pattern's match starting at `pos`, if there is one. */
  function MatchEnd(text: string, pos: nat): (r: Option<nat>)
    requires pos < |text|
    ensures r.Some? ==> pos + 3 <= r.value <= |text|
  {
    if Boundary(text, pos) && IsUpper(text[pos]) then
      LastBoundary(text, pos + 3, pos + 1 + PhraseRun(text, pos + 1))
    else None
  }

  /** `pattern.findall(text[pos:])`: the non-overlapping matches, left to right. */
  function FindAll(text: string, pos: nat): (ms: seq<string>)
    requires pos <= |text|
    ensures forall m :: m in ms ==> |m| >= 3 && IsUpper(m[0]) && forall c :: c in m ==> PhraseChar(c)
    decreases |text| - pos
  {
    if pos == |text| then []
    else match MatchEnd(text, pos)
      case Some(e) =>
        assert forall c :: c in text[pos + 1..e] ==> PhraseChar(c) by {
          forall c | c in text[pos + 1..e] ensures PhraseChar(c) {
            var j :| 0 <= j < e - pos - 1 && text[pos + 1..e][j] == c;
            assert text[pos + 1 + j] == c;
          }
        }
        assert text[pos..e] == [text[pos]] + text[pos + 1..e];
        [text[pos..e]] + FindAll(text, e)
      case None => FindAll(text, pos + 1)
  }

  // ---------------------------------------------------------------------
  // Candidate filter
  // ---------------------------------------------------------------------

  /** The character class of `^[a-zA-Z0-9\s.&-]+$`. */
  predicate SensibleChar(c: char)
  {
    IsLetter(c) || IsDigit(c) || IsSpace(c) || c == '.' || c == '&' || c == '-'
  }

  /** `sensible_pattern.match(name)`: non-empty and every character in the class. */
  predicate Sensible(name: string)
  {
    |name| > 0 && forall c :: c in name ==> SensibleChar(c)
  }

  /** The raw candidate set: stripped ORG spans (when a model is loaded) and pattern matches. */
  function RawCandidates(text: string, nlp: Option<string -> Doc>): set<string>
  {
    var fromNer := if nlp.Some? then (set e | e in nlp.value(text).ents && e.kind == "ORG" :: Strip(e.text)) else {};
    fromNer + set m | m in FindAll(text, 0)
  }

  /**
   * The filtered candidate set: a raw candidate survives only if it is
   * sensible and longer than two characters before stripping; it is then
   * stripped.
   */
  function Candidates(raw: set<string>): set<string>
  {
    set n | n in raw && Sensible(n) && |n| > 2 :: Strip(n)
  }

  /** Every candidate is made of sensible characters and has no whitespace at either end. */
  lemma CandidatesClean(raw: set<string>, c: string)
    requires c in Candidates(raw)
    ensures forall ch :: ch in c ==> SensibleChar(ch)
    ensures c != [] ==> !IsSpace(c[0]) && !IsSpace(c[|c| - 1])
  {
    var n :| n in raw && Sensible(n) && |n| > 2 && c == Strip(n);
  }

  // ---------------------------------------------------------------------
  // Best registry match for one candidate
  // ---------------------------------------------------------------------

  /** The score of registry row `i` for candidate `cand`, both lower-cased. */
  function ScoreAt(registry: seq<TickerRecord>, fuzz: (string, string) -> Score, cand: string, i: nat): Score
    requires i < |registry|
  {
    fuzz(Lower(cand), Lower(registry[i].officialName))
  }

  /**
   * `(highest, best)` is the outcome the source's best-match loop must
   * reach: `highest` is the largest score (0 when none is positive), a
   * row is chosen exactly when `highest > 0`, the chosen row has that
   * score and the shortest name among rows with that score, and every
   * earlier row with that score has a strictly longer name.
   */
  ghost predicate IsBestMatch(registry: seq<TickerRecord>, fuzz: (string, string) -> Score, cand: string,
                              highest: int, best: Option<nat>)
  {
    && (forall j :: 0 <= j < |registry| ==> ScoreAt(registry, fuzz, cand, j) <= highest)
    && (best.Some? <==> highest > 0)
    && (best.None? ==> highest == 0)
    && (best.Some? ==>
          && best.value < |registry|
          && ScoreAt(registry, fuzz, cand, best.value) == highest
          && (forall j :: 0 <= j < |registry| && ScoreAt(registry, fuzz, cand, j) == highest ==>
                |registry[best.value].officialName| <= |registry[j].officialName|)
          && (forall j :: 0 <= j < best.value && ScoreAt(registry, fuzz, cand, j) == highest ==>
                |registry[best.value].officialName| < |registry[j].officialName|))
  }

  /** The best-match outcome is determined by the scores: the tie-break leaves no choice. */
  lemma BestMatchIsUnique(registry: seq<TickerRecord>, fuzz: (string, string) -> Score, cand: string,
                          h1: int, b1: Option<nat>, h2: int, b2: Option<nat>)
    requires IsBestMatch(registry, fuzz, cand, h1, b1)
    requires IsBestMatch(registry, fuzz, cand, h2, b2)
    ensures h1 == h2 && b1 == b2
  {
    if b1.Some? {
      assert ScoreAt(registry, fuzz, cand, b1.value) <= h2;
    }
    if b2.Some? {
      assert ScoreAt(registry, fuzz, cand, b2.value) <= h1;
    }
  }

  /**
   * The inner loop of the source: a running maximum over the registry in
   * order, replacing the current best on a strictly higher score, or on
   * an equal score with a strictly shorter name.
   */
  method FindBestMatch(cand: string, registry: seq<TickerRecord>, fuzz: (string, string) -> Score)
    returns (highest: Score, best: Option<nat>)
    ensures IsBestMatch(registry, fuzz, cand, highest, best)
  {
    highest, best := 0, None;
    var i := 0;
    while i < |registry|
      invariant 0 <= i <= |registry|
      invariant forall j :: 0 <= j < i ==> ScoreAt(registry, fuzz, cand, j) <= highest
      invariant best.Some? <==> highest > 0
      invariant best.Some? ==>
          && best.value < i
          && ScoreAt(registry, fuzz, cand, best.value) == highest
          && (forall j :: 0 <= j < i && ScoreAt(registry, fuzz, cand, j) == highest ==>
                |registry[best.value].officialName| <= |registry[j].officialName|)
          && (forall j :: 0 <= j < best.value && ScoreAt(registry, fuzz, cand, j) == highest ==>
                |registry[best.value].officialName| < |registry[j].officialName|)
    {
      var score := ScoreAt(registry, fuzz, cand, i);
      if score > highest {
        highest, best := score, Some(i);
      } else if score == highest && best.Some? && |registry[i].officialName| < |registry[best.value].officialName| {
        best := Some(i);
      }
      i := i + 1;
    }
  }

  // ---------------------------------------------------------------------
  // extract_tickers
  // ---------------------------------------------------------------------

  /**
   * Candidate `cand` validates to registry row `i`: it is not blocked,
   * row `i` is its best match, and the score is strictly above the threshold.
   */
  ghost predicate ValidatesTo(registry: seq<TickerRecord>, fuzz: (string, string) -> Score, threshold: nat,
                              blocklist: set<string>, cand: string, i: int)
  {
    && Lower(cand) !in blocklist
    && 0 <= i < |registry|
    && IsBestMatch(registry, fuzz, cand, ScoreAt(registry, fuzz, cand, i), Some(i))
    && ScoreAt(registry, fuzz, cand, i) > threshold
  }

  /** Result entry `name -> v` is backed by a candidate that validates to the row named `name`. */
  ghost predicate Justified(registry: seq<TickerRecord>, fuzz: (string, string) -> Score, threshold: nat,
                            blocklist: set<string>, cands: set<string>, name: string, v: Validated)
  {
    && v.nerName in cands
    && exists i :: 0 <= i < |registry| && registry[i] == TickerRecord(name, v.ticker)
                   && ValidatesTo(registry, fuzz, threshold, blocklist, v.nerName, i)
  }

  /**
   * Stage 3 of `extract_tickers`: every candidate is looked up in turn, in
   * an arbitrary order (Python set iteration), so the result is stated up
   * to that order: every key is the registry name of a candidate that
   * validates to it, with that row's ticker; every candidate that
   * validates gives its registry name a key; when two candidates validate
   * to the same name, whichever is visited last is the recorded `ner_name`.
   */
  method ValidateCandidates(cands: set<string>, registry: seq<TickerRecord>,
                            fuzz: (string, string) -> Score, threshold: nat, blocklist: set<string>)
    returns (found: map<string, Validated>)
    ensures forall name :: name in found ==> Justified(registry, fuzz, threshold, blocklist, cands, name, found[name])
    ensures forall c, i :: c in cands && ValidatesTo(registry, fuzz, threshold, blocklist, c, i) ==>
              registry[i].officialName in found
  {
    found := map[];
    var remaining := cands;
    while remaining != {}
      invariant remaining <= cands
      invariant forall name :: name in found ==> Justified(registry, fuzz, threshold, blocklist, cands, name, found[name])
      invariant forall c, i :: c in cands - remaining && ValidatesTo(registry, fuzz, threshold, blocklist, c, i) ==>
                  registry[i].officialName in found
      decreases remaining
    {
      var nerName :| nerName in remaining;
      remaining := remaining - {nerName};
      if Lower(nerName) in blocklist {
        continue;
      }
      var highest, best := FindBestMatch(nerName, registry, fuzz);
      if highest > threshold {
        var row := registry[best.value];
        assert ValidatesTo(registry, fuzz, threshold, blocklist, nerName, best.value);
        found := found[row.officialName := Validated(row.ticker, nerName)];
      }
      forall i | ValidatesTo(registry, fuzz, threshold, blocklist, nerName, i)
        ensures registry[i].officialName in found
      {
        BestMatchIsUnique(registry, fuzz, nerName, highest, best, ScoreAt(registry, fuzz, nerName, i), Some(i));
      }
    }
  }

  /**
   * `extract_tickers(text)`: nothing when the registry is empty; otherwise
   * the candidates of the text, validated as `ValidateCandidates` states.
   */
  method ExtractTickers(text: string, registry: seq<TickerRecord>, nlp: Option<string -> Doc>,
                        fuzz: (string, string) -> Score, threshold: nat, blocklist: set<string>)
    returns (found: map<string, Validated>)
    ensures registry == [] ==> found == map[]
    ensures forall name :: name in found ==>
              Justified(registry, fuzz, threshold, blocklist, Candidates(RawCandidates(text, nlp)), name, found[name])
    ensures forall c, i :: c in Candidates(RawCandidates(text, nlp)) && ValidatesTo(registry, fuzz, threshold, blocklist, c, i) ==>
              registry[i].officialName in found
  {
    if registry == [] {
      return map[];
    }
    var cands := Candidates(RawCandidates(text, nlp));
    found := ValidateCandidates(cands, registry, fuzz, threshold, blocklist);
  }

  /**
   * What a key of the result carries: the name's own registry ticker, a
   * `ner_name` that is not blocked, and a score strictly above the threshold.
   */
  lemma JustifiedEntry(registry: seq<TickerRecord>, fuzz: (string, string) -> Score, threshold: nat,
                       blocklist: set<string>, cands: set<string>, name: string, v: Validated, i: nat)
    requires DistinctNames(registry)
    requires Justified(registry, fuzz, threshold, blocklist, cands, name, v)
    requires i < |registry| && registry[i].officialName == name
    ensures v.ticker == registry[i].ticker
    ensures Lower(v.nerName) !in blocklist
    ensures ScoreAt(registry, fuzz, v.nerName, i) > threshold
  {
  }
}
