/**
 * The language-model-first ticker extraction: the model's `{company:
 * ticker}` object is ordered by name length, longest first, each name is
 * looked up case-insensitively in the map of known companies, and a single
 * entry is returned — the first validated company, or else the model's
 * first entry when its ticker is truthy.
 */
module LlmValidation {
  import opened Common
  import opened Strings
  import opened Dicts

  /**
   * The model's JSON object, in the order the object lists its members; a
   * `None` ticker is a JSON `null`.
   */
  type LlmResult = Dict<string, Option<string>>

  /**
   * One completion for the article text: the parsed object, or `Raised`
   * for a failed request, an unparsable reply or a reply that is not an
   * object.  `None` stands for a client without an API key.
   */
  type Llm = string -> Outcome<LlmResult>

  /** Python truthiness of a ticker value: neither `null` nor the empty string. */
  predicate Truthy(ticker: Option<string>)
  {
    ticker.Some? && ticker.value != []
  }

  /* ---------------- the stable sort by name length ---------------- */

  /**
   * Entry `i` precedes entry `j` after `sorted(..., key=len(name),
   * reverse=True)`: a longer name first, and for names of equal length the
   * one the model listed first, because the sort is stable.
   */
  predicate Before(items: LlmResult, i: nat, j: nat)
    requires i < |items| && j < |items|
  {
    |items[i].0| > |items[j].0| || (|items[i].0| == |items[j].0| && i < j)
  }

  /** A sequence of positions of `items` in strictly increasing `Before` order. */
  predicate Ordered(items: LlmResult, order: seq<nat>)
  {
    && (forall k :: 0 <= k < |order| ==> order[k] < |items|)
    && (forall k, l :: 0 <= k < l < |order| ==> Before(items, order[k], order[l]))
  }

  /** How many leading positions of `order` have a name at least as long as entry `i`'s. */
  function InsertAt(items: LlmResult, order: seq<nat>, i: nat): (k: nat)
    requires i < |items|
    requires Ordered(items, order)
    ensures k <= |order|
    ensures forall j :: 0 <= j < k ==> |items[order[j]].0| >= |items[i].0|
    ensures forall j :: k <= j < |order| ==> |items[order[j]].0| < |items[i].0|
  {
    if order == [] then 0
    else if |items[order[0]].0| < |items[i].0| then
      assert forall j :: 0 < j < |order| ==> Before(items, order[0], order[j]);
      0
    else
      var tail := order[1..];
      assert forall j :: 0 <= j < |tail| ==> tail[j] == order[j + 1];
      1 + InsertAt(items, tail, i)
  }

  /**
   * Inserts position `i`, which is larger than every position in `order`,
   * behind every position whose name is at least as long.
   */
  function Insert(items: LlmResult, order: seq<nat>, i: nat): (r: seq<nat>)
    requires i < |items|
    requires Ordered(items, order)
    requires forall k :: 0 <= k < |order| ==> order[k] < i
    ensures |r| == |order| + 1
    ensures forall p :: p in r <==> p in order || p == i
    ensures Ordered(items, r)
  {
    var k := InsertAt(items, order, i);
    InsertKeepsOrder(items, order, i, k);
    assert order == order[..k] + order[k..];
    order[..k] + [i] + order[k..]
  }

  lemma InsertKeepsOrder(items: LlmResult, order: seq<nat>, i: nat, k: nat)
    requires i < |items| && k <= |order|
    requires Ordered(items, order)
    requires forall j :: 0 <= j < |order| ==> order[j] < i
    requires forall j :: 0 <= j < k ==> |items[order[j]].0| >= |items[i].0|
    requires forall j :: k <= j < |order| ==> |items[order[j]].0| < |items[i].0|
    ensures Ordered(items, order[..k] + [i] + order[k..])
  {
    var r := order[..k] + [i] + order[k..];
    forall a, b | 0 <= a < b < |r|
      ensures Before(items, r[a], r[b])
    {
      if b == k {
        assert r[a] == order[a];
      } else if a == k {
        assert r[b] == order[b - 1];
      } else {
        var a' := if a < k then a else a - 1;
        var b' := if b < k then b else b - 1;
        assert r[a] == order[a'] && r[b] == order[b'];
      }
    }
  }

  /** The positions `0 .. n-1` in the order the stable descending sort puts them. */
  function SortedPositions(items: LlmResult, n: nat): (r: seq<nat>)
    requires n <= |items|
    ensures |r| == n
    ensures forall p: nat :: p in r <==> p < n
    ensures Ordered(items, r)
  {
    if n == 0 then []
    else
      var prefix := SortedPositions(items, n - 1);
      assert forall k :: 0 <= k < |prefix| ==> prefix[k] in prefix;
      Insert(items, prefix, n - 1)
  }

  /** The entries at the given positions, in that order. */
  function Picked<T>(items: seq<T>, order: seq<nat>): (r: seq<T>)
    requires forall k :: 0 <= k < |order| ==> order[k] < |items|
    ensures |r| == |order|
    ensures forall k :: 0 <= k < |order| ==> r[k] == items[order[k]]
  {
    seq(|order|, k requires 0 <= k < |order| => items[order[k]])
  }

  /** `sorted(llm_results.items(), key=lambda item: len(item[0]), reverse=True)` */
  function SortByLength(items: LlmResult): (sorted: LlmResult)
    ensures |sorted| == |items|
  {
    Picked(items, SortedPositions(items, |items|))
  }

  /** Picking with one more position inserted adds that position's entry to the multiset. */
  lemma PickedInsert<T>(items: seq<T>, order: seq<nat>, k: nat, x: nat)
    requires k <= |order| && x < |items|
    requires forall j :: 0 <= j < |order| ==> order[j] < |items|
    ensures multiset(Picked(items, order[..k] + [x] + order[k..])) == multiset(Picked(items, order)) + multiset{items[x]}
  {
    var picked := Picked(items, order);
    assert Picked(items, order[..k] + [x] + order[k..]) == picked[..k] + [items[x]] + picked[k..];
    assert picked == picked[..k] + picked[k..];
  }

  /** Inserting the next position into an ordering that permutes a prefix yields one that permutes the longer prefix. */
  lemma PermuteStep<T>(items: seq<T>, prefix: seq<nat>, order: seq<nat>, k: nat, n: nat)
    requires 0 < n <= |items| && k <= |prefix|
    requires forall j :: 0 <= j < |prefix| ==> prefix[j] < |items|
    requires order == prefix[..k] + [n - 1] + prefix[k..]
    requires multiset(Picked(items, prefix)) == multiset(items[..n - 1])
    ensures forall j :: 0 <= j < |order| ==> order[j] < |items|
    ensures multiset(Picked(items, order)) == multiset(items[..n])
  {
    PickedInsert(items, prefix, k, n - 1);
    assert items[..n] == items[..n - 1] + [items[n - 1]];
  }

  /** The sorted positions of a prefix pick a permutation of that prefix. */
  lemma {:induction false} SortedPositionsPermute(items: LlmResult, n: nat)
    requires n <= |items|
    ensures multiset(Picked(items, SortedPositions(items, n))) == multiset(items[..n])
  {
    if n > 0 {
      var prefix := SortedPositions(items, n - 1);
      SortedPositionsPermute(items, n - 1);
      var k := InsertAt(items, prefix, n - 1);
      PermuteStep(items, prefix, SortedPositions(items, n), k, n);
    }
  }

  /** The sort only reorders: it yields a permutation of the model's entries. */
  lemma SortIsPermutation(items: LlmResult)
    ensures multiset(SortByLength(items)) == multiset(items)
  {
    SortedPositionsPermute(items, |items|);
    assert items[..|items|] == items;
  }

  /** The sorted entries are in non-increasing order of name length. */
  lemma SortIsDescending(items: LlmResult)
    ensures forall k, l :: 0 <= k < l < |items| ==> |SortByLength(items)[k].0| >= |SortByLength(items)[l].0|
  {
    var order := SortedPositions(items, |items|);
    forall k, l | 0 <= k < l < |items|
      ensures |SortByLength(items)[k].0| >= |SortByLength(items)[l].0|
    {
      assert Before(items, order[k], order[l]);
    }
  }

  /* ---------------- validation against the known companies ---------------- */

  /** `company.lower() == known_company.lower()` */
  predicate SameName(company: string, known: string)
  {
    Lower(company) == Lower(known)
  }

  /** The entries among the first `n` of the known map whose name equals `company` up to case, in map order. */
  function KnownMatches(known: Dict<string, string>, company: string, n: nat): (r: seq<(string, string)>)
    requires n <= |known|
    ensures forall e :: e in r ==> e in known && SameName(company, e.0)
    ensures r == [] <==> forall i :: 0 <= i < n ==> !SameName(company, known[i].0)
  {
    if n == 0 then []
    else
      var prev := KnownMatches(known, company, n - 1);
      if SameName(company, known[n - 1].0) then
        assert known[n - 1] in known;
        prev + [known[n - 1]]
      else prev
  }

  /** `company` names some known company, up to case. */
  predicate IsKnown(known: Dict<string, string>, company: string)
  {
    exists i :: 0 <= i < |known| && SameName(company, known[i].0)
  }

  /** The first known company, in map order, whose name equals `company` up to case. */
  function FirstKnown(known: Dict<string, string>, company: string): (e: (string, string))
    requires IsKnown(known, company)
    ensures e in known && SameName(company, e.0)
  {
    KnownMatches(known, company, |known|)[0]
  }

  /** `validated_companies` after the outer loop has visited the first `n` sorted entries. */
  function Validations(sorted: LlmResult, known: Dict<string, string>, n: nat): seq<(string, string)>
    requires n <= |sorted|
  {
    if n == 0 then []
    else Validations(sorted, known, n - 1) + KnownMatches(known, sorted[n - 1].0, |known|)
  }

  /** The validations of a prefix are empty exactly when no name in it is known. */
  lemma {:induction false} ValidationsEmpty(sorted: LlmResult, known: Dict<string, string>, n: nat)
    requires n <= |sorted|
    ensures Validations(sorted, known, n) == [] <==> forall p :: 0 <= p < n ==> !IsKnown(known, sorted[p].0)
  {
    if n > 0 {
      ValidationsEmpty(sorted, known, n - 1);
      var last := KnownMatches(known, sorted[n - 1].0, |known|);
      assert last == [] <==> !IsKnown(known, sorted[n - 1].0);
      assert Validations(sorted, known, n) == Validations(sorted, known, n - 1) + last;
    }
  }

  /** The validations of a prefix begin with the first known match of its first known name. */
  lemma {:induction false} ValidationsHead(sorted: LlmResult, known: Dict<string, string>, n: nat, p: nat)
    requires p < n <= |sorted|
    requires IsKnown(known, sorted[p].0)
    requires forall q :: 0 <= q < p ==> !IsKnown(known, sorted[q].0)
    ensures Validations(sorted, known, n) != []
    ensures Validations(sorted, known, n)[0] == FirstKnown(known, sorted[p].0)
  {
    var last := KnownMatches(known, sorted[n - 1].0, |known|);
    assert Validations(sorted, known, n) == Validations(sorted, known, n - 1) + last;
    if p < n - 1 {
      ValidationsHead(sorted, known, n - 1, p);
    } else {
      ValidationsEmpty(sorted, known, n - 1);
      assert last == KnownMatches(known, sorted[p].0, |known|);
      assert last != [];
    }
  }

  /** The inner loop of the validation step: every known entry whose name equals `company` up to case, in map order. */
  method MatchKnown(known: Dict<string, string>, company: string) returns (matches: seq<(string, string)>)
    ensures matches == KnownMatches(known, company, |known|)
  {
    matches := [];
    for i := 0 to |known|
      invariant matches == KnownMatches(known, company, i)
    {
      var (knownCompany, knownTicker) := known[i];
      if Lower(company) == Lower(knownCompany) {
        matches := matches + [(knownCompany, knownTicker)];
      }
    }
  }

  /** The nested loops of the validation step, appending every case-insensitive match. */
  method Validate(sorted: LlmResult, known: Dict<string, string>) returns (validated: seq<(string, string)>)
    ensures validated == Validations(sorted, known, |sorted|)
  {
    validated := [];
    for p := 0 to |sorted|
      invariant validated == Validations(sorted, known, p)
    {
      var matches := MatchKnown(known, sorted[p].0);
      validated := validated + matches;
    }
  }

  /**
   * Entry `j` is the one validation prefers: its name is known, and every
   * other known name is shorter, or as long and listed later by the model.
   */
  predicate Preferred(items: LlmResult, known: Dict<string, string>, j: nat)
  {
    && j < |items|
    && IsKnown(known, items[j].0)
    && forall i :: 0 <= i < |items| && i != j && IsKnown(known, items[i].0) ==> Before(items, j, i)
  }

  /** The sorted entries before position `p` name no known company, read back in the model's object. */
  lemma SkippedAreUnknown(items: LlmResult, known: Dict<string, string>, p: nat)
    requires p <= |items|
    requires forall q :: 0 <= q < p ==> !IsKnown(known, SortByLength(items)[q].0)
    ensures forall q :: 0 <= q < p ==> !IsKnown(known, items[SortedPositions(items, |items|)[q]].0)
  {
    forall q | 0 <= q < p
      ensures !IsKnown(known, items[SortedPositions(items, |items|)[q]].0)
    {
      assert SortByLength(items)[q] == items[SortedPositions(items, |items|)[q]];
    }
  }

  /**
   * In an ordering of all positions, the first position whose name is
   * known comes before every other position whose name is known.
   */
  lemma FirstInOrderIsBefore(items: LlmResult, order: seq<nat>, known: Dict<string, string>, p: nat)
    requires Ordered(items, order) && p < |order|
    requires forall i :: 0 <= i < |items| ==> i in order
    requires forall q :: 0 <= q < p ==> !IsKnown(known, items[order[q]].0)
    ensures forall i :: 0 <= i < |items| && i != order[p] && IsKnown(known, items[i].0) ==> Before(items, order[p], i)
  {
    forall i | 0 <= i < |items| && i != order[p] && IsKnown(known, items[i].0)
      ensures Before(items, order[p], i)
    {
      assert i in order;
      var q :| 0 <= q < |order| && order[q] == i;
      assert p < q;
    }
  }

  /** Among the sorted entries, the first known name is the preferred entry of the model's object. */
  lemma FirstKnownIsPreferred(items: LlmResult, known: Dict<string, string>, sorted: LlmResult, p: nat)
    requires sorted == SortByLength(items) && p < |items|
    requires IsKnown(known, sorted[p].0)
    requires forall q :: 0 <= q < p ==> !IsKnown(known, sorted[q].0)
    ensures sorted[p] == items[SortedPositions(items, |items|)[p]]
    ensures Preferred(items, known, SortedPositions(items, |items|)[p])
  {
    var order := SortedPositions(items, |items|);
    assert sorted[p] == items[order[p]];
    SkippedAreUnknown(items, known, p);
    FirstInOrderIsBefore(items, order, known, p);
  }

  /** A preferred entry is unique: `Before` is a strict order. */
  lemma PreferredIsUnique(items: LlmResult, known: Dict<string, string>, j1: nat, j2: nat)
    requires Preferred(items, known, j1) && Preferred(items, known, j2)
    ensures j1 == j2
  {
  }

  /** Some entry of the model's object names a known company. */
  predicate AnyKnown(items: LlmResult, known: Dict<string, string>)
  {
    exists i :: 0 <= i < |items| && IsKnown(known, items[i].0)
  }

  /**
   * `extract_tickers` of the language-model path: nothing without a
   * client, on a failure or for an empty object; otherwise the known name
   * and known ticker of the preferred entry, or, when no entry is known,
   * the model's first entry if its ticker is truthy.
   */
  method ExtractTickers(llm: Option<Llm>, known: Dict<string, string>, text: string) returns (r: Dict<string, string>)
    ensures |r| <= 1
    ensures llm.None? ==> r == []
    ensures llm.Some? && llm.value(text).Raised? ==> r == []
    ensures llm.Some? && llm.value(text).Answered? ==>
      var items := llm.value(text).value;
      && (items == [] ==> r == [])
      && (AnyKnown(items, known) ==> exists j: nat :: Preferred(items, known, j) && r == [FirstKnown(known, items[j].0)])
      && (items != [] && !AnyKnown(items, known) ==>
            r == if Truthy(items[0].1) then [(items[0].0, items[0].1.value)] else [])
  {
    if llm.None? {
      return [];
    }
    var reply := llm.value(text);
    if reply.Raised? {
      return [];
    }
    var items := reply.value;
    if items == [] {
      return [];
    }
    var sorted := SortByLength(items);
    var validated := Validate(sorted, known);
    ValidationsEmpty(sorted, known, |sorted|);
    if validated != [] {
      FirstKnownPosition(sorted, known);
      ghost var p :| 0 <= p < |sorted| && IsKnown(known, sorted[p].0) && (forall q :: 0 <= q < p ==> !IsKnown(known, sorted[q].0));
      ValidationsHead(sorted, known, |sorted|, p);
      FirstKnownIsPreferred(items, known, sorted, p);
      r := [validated[0]];
      assert Preferred(items, known, SortedPositions(items, |items|)[p]);
      return;
    }
    KnownSurvivesSort(items, known);
    var (firstCompany, firstTicker) := items[0];
    if firstTicker.Some? && firstTicker.value != [] {
      return [(firstCompany, firstTicker.value)];
    }
    return [];
  }

  /** When some name is known, there is a first known name. */
  lemma FirstKnownPosition(sorted: LlmResult, known: Dict<string, string>)
    requires exists p :: 0 <= p < |sorted| && IsKnown(known, sorted[p].0)
    ensures exists p :: 0 <= p < |sorted| && IsKnown(known, sorted[p].0) && (forall q :: 0 <= q < p ==> !IsKnown(known, sorted[q].0))
  {
    var p := 0;
    while !IsKnown(known, sorted[p].0)
      invariant 0 <= p < |sorted|
      invariant forall q :: 0 <= q < p ==> !IsKnown(known, sorted[q].0)
      invariant exists p' :: p <= p' < |sorted| && IsKnown(known, sorted[p'].0)
      decreases |sorted| - p
    {
      p := p + 1;
    }
  }

  /** The sort neither adds nor loses a known name. */
  lemma KnownSurvivesSort(items: LlmResult, known: Dict<string, string>)
    ensures AnyKnown(items, known) <==> exists p :: 0 <= p < |items| && IsKnown(known, SortByLength(items)[p].0)
  {
    var order := SortedPositions(items, |items|);
    if AnyKnown(items, known) {
      var i :| 0 <= i < |items| && IsKnown(known, items[i].0);
      assert i in order;
      var q :| 0 <= q < |order| && order[q] == i;
      assert SortByLength(items)[q] == items[i];
    }
  }
}
