/**
 * `extract_key_figures`: PERCENT and MONEY spans found by the NER model are
 * sorted into slots by the words in a window of seven tokens on each side
 * of the span.  A named slot keeps the last span sent to it; the "other"
 * lists keep the first three spans sent to them and appear only when
 * non-empty.  Without a loaded model the result is empty.
 */
module KeyFigures {
  import opened Common
  import opened Strings
  import opened EntityValidator

  /** Tokens of context taken on each side of a span. */
  const ContextTokens: nat := 7

  /** `LIMIT_OTHER_FIGURES` */
  const OtherLimit: nat := 3

  datatype Slot =
    | ProfitPercent | RevenuePercent | OtherPercent
    | ProfitAmount | RevenueAmount | DealSize | OtherMoney
    | Unused

  /** A value of the result dictionary: one span text, or a list of them. */
  datatype Figure = One(text: string) | Several(texts: seq<string>)

  predicate IsNamedSlot(s: Slot)
  {
    s.ProfitPercent? || s.RevenuePercent? || s.ProfitAmount? || s.RevenueAmount? || s.DealSize?
  }

  /**
   * The key of the result dictionary that a slot fills.  The result is
   * modelled as a map keyed by `Slot`; this is the Python key it stands for.
   */
  function SlotKey(s: Slot): string
    requires !s.Unused?
  {
    match s
    case ProfitPercent => "profit_change_percent"
    case RevenuePercent => "revenue_change_percent"
    case OtherPercent => "other_noteworthy_percents"
    case ProfitAmount => "profit_amount"
    case RevenueAmount => "revenue_amount"
    case DealSize => "deal_size"
    case OtherMoney => "other_noteworthy_figures"
  }

  /** Every span lies inside the document, as the NER model produces them. */
  predicate WellFormed(doc: Doc)
  {
    forall e :: e in doc.ents ==> 0 <= e.start <= e.end <= |doc.tokens|
  }

  /** `Span.text`: the tokens with the whitespace between them, none after the last. */
  function SpanText(tokens: seq<Token>): string
  {
    if tokens == [] then ""
    else if |tokens| == 1 then tokens[0].text
    else tokens[0].text + tokens[0].ws + SpanText(tokens[1..])
  }

  /**
   * Token bounds of the context window of a span: up to seven tokens on
   * each side, clipped to the document; exactly seven on a side that is
   * not clipped.
   */
  function Window(doc: Doc, e: Span): (w: (nat, nat))
    requires 0 <= e.start <= e.end <= |doc.tokens|
    ensures w.0 <= e.start && e.end <= w.1 <= |doc.tokens|
    ensures e.start - w.0 <= ContextTokens && w.1 - e.end <= ContextTokens
    ensures w.0 > 0 ==> e.start - w.0 == ContextTokens
    ensures w.1 < |doc.tokens| ==> w.1 - e.end == ContextTokens
  {
    var lo := if e.start - ContextTokens > 0 then e.start - ContextTokens else 0;
    var hi := if e.end + ContextTokens < |doc.tokens| then e.end + ContextTokens else |doc.tokens|;
    (lo, hi)
  }

  /** The lower-cased text of the context window. */
  function Context(doc: Doc, e: Span): string
    requires 0 <= e.start <= e.end <= |doc.tokens|
  {
    var w := Window(doc, e);
    Lower(SpanText(doc.tokens[w.0..w.1]))
  }

  /**
   * The slot of a span, by priority: for PERCENT, profit before
   * revenue/topline before other; for MONEY, profit/pat before revenue
   * before deal/wins before other; any other label is not used.
   */
  function SlotOf(kind: string, ctx: string): (s: Slot)
    ensures s.ProfitPercent? <==> kind == "PERCENT" && Contains(ctx, "profit")
    ensures s.RevenuePercent? <==>
              kind == "PERCENT" && !Contains(ctx, "profit") && (Contains(ctx, "revenue") || Contains(ctx, "topline"))
    ensures s.OtherPercent? <==>
              kind == "PERCENT" && !Contains(ctx, "profit") && !Contains(ctx, "revenue") && !Contains(ctx, "topline")
    ensures s.ProfitAmount? <==> kind == "MONEY" && (Contains(ctx, "profit") || Contains(ctx, "pat"))
    ensures s.RevenueAmount? <==>
              kind == "MONEY" && !Contains(ctx, "profit") && !Contains(ctx, "pat") && Contains(ctx, "revenue")
    ensures s.DealSize? <==>
              kind == "MONEY" && !Contains(ctx, "profit") && !Contains(ctx, "pat") && !Contains(ctx, "revenue")
              && (Contains(ctx, "deal") || Contains(ctx, "wins"))
    ensures s.OtherMoney? <==>
              kind == "MONEY" && !Contains(ctx, "profit") && !Contains(ctx, "pat") && !Contains(ctx, "revenue")
              && !Contains(ctx, "deal") && !Contains(ctx, "wins")
    ensures s.Unused? <==> kind != "PERCENT" && kind != "MONEY"
  {
    if kind == "PERCENT" then
      if Contains(ctx, "profit") then ProfitPercent
      else if Contains(ctx, "revenue") || Contains(ctx, "topline") then RevenuePercent
      else OtherPercent
    else if kind == "MONEY" then
      if Contains(ctx, "profit") || Contains(ctx, "pat") then ProfitAmount
      else if Contains(ctx, "revenue") then RevenueAmount
      else if Contains(ctx, "deal") || Contains(ctx, "wins") then DealSize
      else OtherMoney
    else Unused
  }

  /** The slot and text of every entity of the document, in document order. */
  function Labels(doc: Doc): (ls: seq<(Slot, string)>)
    requires WellFormed(doc)
    ensures |ls| == |doc.ents|
    ensures forall i :: 0 <= i < |ls| ==>
              ls[i] == (SlotOf(doc.ents[i].kind, Context(doc, doc.ents[i])), doc.ents[i].text)
  {
    seq(|doc.ents|, i requires 0 <= i < |doc.ents| =>
      assert doc.ents[i] in doc.ents;
      (SlotOf(doc.ents[i].kind, Context(doc, doc.ents[i])), doc.ents[i].text))
  }

  /** Text of the last span sent to slot `s`. */
  function LastIn(ls: seq<(Slot, string)>, s: Slot): Option<string>
  {
    if ls == [] then None
    else if ls[|ls| - 1].0 == s then Some(ls[|ls| - 1].1)
    else LastIn(ls[..|ls| - 1], s)
  }

  /** Texts of all spans sent to slot `s`, in order. */
  function AllIn(ls: seq<(Slot, string)>, s: Slot): seq<string>
  {
    if ls == [] then []
    else AllIn(ls[..|ls| - 1], s) + (if ls[|ls| - 1].0 == s then [ls[|ls| - 1].1] else [])
  }

  function FirstN(xs: seq<string>, n: nat): seq<string>
  {
    if |xs| <= n then xs else xs[..n]
  }

  /** The named slots of `figures` hold the last span sent to each, and only those keys are present. */
  ghost predicate NamedSlotsFrom(ls: seq<(Slot, string)>, figures: map<Slot, Figure>)
  {
    forall s :: IsNamedSlot(s) ==>
      && (s in figures <==> LastIn(ls, s).Some?)
      && (s in figures ==> figures[s] == One(LastIn(ls, s).value))
  }

  /** The "other" list under `key`: present iff some span went to `s`, holding the first three. */
  ghost predicate OtherListFrom(ls: seq<(Slot, string)>, figures: map<Slot, Figure>, s: Slot)
  {
    && (s in figures <==> AllIn(ls, s) != [])
    && (s in figures ==> figures[s] == Several(FirstN(AllIn(ls, s), OtherLimit)))
  }

  lemma LastInStep(ls: seq<(Slot, string)>, x: (Slot, string), s: Slot)
    ensures LastIn(ls + [x], s) == if x.0 == s then Some(x.1) else LastIn(ls, s)
    ensures AllIn(ls + [x], s) == AllIn(ls, s) + (if x.0 == s then [x.1] else [])
  {
    assert (ls + [x])[..|ls|] == ls;
  }

  /** Sending one more span keeps the named slots describing the prefix. */
  lemma NamedSlotsStep(ls: seq<(Slot, string)>, x: (Slot, string), figures: map<Slot, Figure>)
    requires NamedSlotsFrom(ls, figures)
    ensures NamedSlotsFrom(ls + [x], if IsNamedSlot(x.0) then figures[x.0 := One(x.1)] else figures)
  {
    forall s | IsNamedSlot(s) {
      LastInStep(ls, x, s);
    }
  }

  /** The bounded "other" list grows only while it holds fewer than three texts. */
  lemma FirstNStep(xs: seq<string>, y: string, n: nat)
    ensures FirstN(xs + [y], n) == if |FirstN(xs, n)| < n then FirstN(xs, n) + [y] else FirstN(xs, n)
  {
    if |xs| >= n {
      assert (xs + [y])[..n] == xs[..n];
    }
  }

  /** One more span extends the bounded "other" list of slot `s` while it holds fewer than three texts. */
  lemma OtherStep(ls: seq<(Slot, string)>, x: (Slot, string), s: Slot, others: seq<string>)
    requires others == FirstN(AllIn(ls, s), OtherLimit)
    ensures FirstN(AllIn(ls + [x], s), OtherLimit) == if x.0 == s && |others| < OtherLimit then others + [x.1] else others
  {
    LastInStep(ls, x, s);
    FirstNStep(AllIn(ls, s), x.1, OtherLimit);
  }

  /** The loop of `extract_key_figures` over the entities of the document. */
  method ClassifyEntities(doc: Doc) returns (figures: map<Slot, Figure>, otherPercents: seq<string>, otherMonies: seq<string>)
    requires WellFormed(doc)
    ensures NamedSlotsFrom(Labels(doc), figures)
    ensures Unused !in figures && OtherPercent !in figures && OtherMoney !in figures
    ensures otherPercents == FirstN(AllIn(Labels(doc), OtherPercent), OtherLimit)
    ensures otherMonies == FirstN(AllIn(Labels(doc), OtherMoney), OtherLimit)
  {
    ghost var ls := Labels(doc);
    figures := map[];
    otherPercents, otherMonies := [], [];
    for i := 0 to |doc.ents|
      invariant NamedSlotsFrom(ls[..i], figures)
      invariant Unused !in figures && OtherPercent !in figures && OtherMoney !in figures
      invariant otherPercents == FirstN(AllIn(ls[..i], OtherPercent), OtherLimit)
      invariant otherMonies == FirstN(AllIn(ls[..i], OtherMoney), OtherLimit)
    {
      var e := doc.ents[i];
      assert e in doc.ents;
      var slot := SlotOf(e.kind, Context(doc, e));
      assert ls[..i + 1] == ls[..i] + [(slot, e.text)];
      NamedSlotsStep(ls[..i], (slot, e.text), figures);
      OtherStep(ls[..i], (slot, e.text), OtherPercent, otherPercents);
      OtherStep(ls[..i], (slot, e.text), OtherMoney, otherMonies);
      if IsNamedSlot(slot) {
        figures := figures[slot := One(e.text)];
      } else if slot == OtherPercent && |otherPercents| < OtherLimit {
        otherPercents := otherPercents + [e.text];
      } else if slot == OtherMoney && |otherMonies| < OtherLimit {
        otherMonies := otherMonies + [e.text];
      }
    }
    assert ls[..|doc.ents|] == ls;
  }

  /**
   * `extract_key_figures(text)`: each named slot holds the last span sent
   * to it; each "other" list holds the first three spans sent to it and is
   * present only when non-empty; with no model the result is empty.
   */
  method ExtractKeyFigures(text: string, nlp: Option<string -> Doc>) returns (figures: map<Slot, Figure>)
    requires nlp.Some? ==> WellFormed(nlp.value(text))
    ensures nlp.None? ==> figures == map[]
    ensures nlp.Some? ==> NamedSlotsFrom(Labels(nlp.value(text)), figures)
    ensures nlp.Some? ==> OtherListFrom(Labels(nlp.value(text)), figures, OtherPercent)
    ensures nlp.Some? ==> OtherListFrom(Labels(nlp.value(text)), figures, OtherMoney)
    ensures Unused !in figures
    ensures OtherPercent in figures ==> figures[OtherPercent].Several? && 0 < |figures[OtherPercent].texts| <= OtherLimit
    ensures OtherMoney in figures ==> figures[OtherMoney].Several? && 0 < |figures[OtherMoney].texts| <= OtherLimit
  {
    if nlp.None? {
      return map[];
    }
    var doc := nlp.value(text);
    var otherPercents, otherMonies;
    figures, otherPercents, otherMonies := ClassifyEntities(doc);
    if otherPercents != [] {
      figures := figures[OtherPercent := Several(otherPercents)];
    }
    if otherMonies != [] {
      figures := figures[OtherMoney := Several(otherMonies)];
    }
  }
}
