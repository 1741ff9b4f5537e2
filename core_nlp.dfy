/**
 * Normalisation of the language model's replies: the sentiment label and
 * confidence derived from a one-word reply, and the event category taken
 * from a headline classification, each with its safe default.
 */
module CoreNlp {
  import opened Common
  import opened Strings

  /**
   * One chat completion: the system prompt and the user message go in, the
   * reply text or an exception comes out.  `None` stands for a client that
   * could not be created because no API key was configured.
   */
  type Chat = (Prompt, string) -> Outcome<string>

  /**
   * The two fixed system prompts.  The first asks for a single word,
   * Positive, Negative or Neutral; the second asks for the name of one of
   * eight event categories (earnings report, merger or acquisition, analyst
   * update, product launch, legal or regulatory issue, partnership,
   * executive change, general news).
   */
  datatype Prompt = SentimentPrompt | EventPrompt

  datatype Sentiment = Sentiment(sentiment: string, confidence: real)

  /** Only this many leading characters of the text reach the classifier. */
  const InputLimit: nat := 1500
  const Default := Sentiment("Neutral", 0.5)
  const AnsweredConfidence := 0.9
  const GeneralNews := "General News"

  /** The label read off a reply: `strip().capitalize()`, then substring tests for "Positive" and "Negative". */
  function LabelOf(reply: string): (verdict: string)
    ensures verdict == "Positive" || verdict == "Negative" || verdict == "Neutral"
  {
    var r := Capitalize(Strip(reply));
    if Contains(r, "Positive") then "Positive"
    else if Contains(r, "Negative") then "Negative"
    else "Neutral"
  }

  /** `analyze_sentiment_core` */
  function AnalyzeSentimentCore(client: Option<Chat>, text: string): (r: Sentiment)
    ensures client.None? || text == [] ==> r == Default
    ensures r.sentiment == "Positive" || r.sentiment == "Negative" || r.sentiment == "Neutral"
    ensures r.confidence == AnsweredConfidence || r == Default
    ensures r.confidence == AnsweredConfidence <==>
      client.Some? && text != [] && client.value(SentimentPrompt, Take(text, InputLimit)).Answered?
  {
    if client.None? || text == [] then Default
    else
      match client.value(SentimentPrompt, Take(text, InputLimit))
      case Raised => Default
      case Answered(reply) => Sentiment(LabelOf(reply), AnsweredConfidence)
  }

  /** `s` begins with `word`, compared without regard to case. */
  predicate StartsWithWord(s: string, word: string)
  {
    |s| >= |word| && Lower(s[..|word|]) == word
  }

  /** An upper-case letter followed only by lower-case letters, as "Positive" is. */
  predicate IsCapitalWord(word: string)
  {
    |word| > 0 && IsUpper(word[0]) && forall i :: 0 < i < |word| ==> IsLower(word[i])
  }

  /** Lower-casing a capital word changes only its first letter. */
  lemma LowerCapitalWord(word: string, lower: string)
    requires IsCapitalWord(word) && |lower| == |word|
    requires lower[0] == LowerChar(word[0]) && forall i :: 0 < i < |word| ==> lower[i] == word[i]
    ensures Lower(word) == lower
  {
    forall i | 0 <= i < |word|
      ensures Lower(word)[i] == lower[i]
    {
    }
  }

  lemma PositiveWord()
    ensures IsCapitalWord("Positive") && Lower("Positive") == "positive"
  {
    LowerCapitalWord("Positive", "positive");
  }

  lemma NegativeWord()
    ensures IsCapitalWord("Negative") && Lower("Negative") == "negative"
  {
    LowerCapitalWord("Negative", "negative");
  }

  /**
   * Because `capitalize()` lower-cases everything after the first character,
   * an upper-case word can only be found at position 0 of the capitalized reply.
   */
  lemma {:induction false} CapitalizedContains(s: string, word: string)
    requires IsCapitalWord(word)
    ensures Contains(Capitalize(s), word) <==> StartsWithWord(s, Lower(word))
  {
    var r := Capitalize(s);
    ContainsAt(r, word);
    if Contains(r, word) {
      var k :| OccursAt(r, word, k);
      if k > 0 {
        assert false;
      }
      assert r[..|word|] == word;
      forall i | 0 <= i < |word|
        ensures Lower(s[..|word|])[i] == Lower(word)[i]
      {
        assert r[i] == word[i];
      }
    }
    if StartsWithWord(s, Lower(word)) {
      forall i | 0 <= i < |word|
        ensures r[i] == word[i]
      {
        assert LowerChar(s[i]) == LowerChar(word[i]);
      }
      assert OccursAt(r, word, 0);
    }
  }

  /**
   * The reply is read as Positive exactly when, stripped, it begins with
   * "positive" in any mix of case; otherwise as Negative exactly when it
   * begins with "negative"; otherwise as Neutral.
   */
  lemma LabelOfReply(reply: string)
    ensures LabelOf(reply) == "Positive" <==> StartsWithWord(Strip(reply), "positive")
    ensures LabelOf(reply) == "Negative" <==>
      !StartsWithWord(Strip(reply), "positive") && StartsWithWord(Strip(reply), "negative")
  {
    PositiveWord();
    NegativeWord();
    CapitalizedContains(Strip(reply), "Positive");
    CapitalizedContains(Strip(reply), "Negative");
  }

  /**
   * A reply that names the label somewhere other than at its start leaves the
   * verdict Neutral: "It is Positive", say, opens with neither "p" nor "n".
   */
  lemma LateLabelIsNeutral(reply: string)
    requires reply != [] && !IsSpace(reply[0]) && !IsSpace(reply[|reply| - 1])
    requires LowerChar(reply[0]) != 'p' && LowerChar(reply[0]) != 'n'
    ensures LabelOf(reply) == "Neutral"
  {
    assert StripLeft(reply) == reply;
    assert StripRight(reply) == reply;
    assert Strip(reply) == reply;
    if |reply| >= 8 {
      assert Lower(reply[..8])[0] == LowerChar(reply[0]);
    }
    assert !StartsWithWord(reply, "positive") && !StartsWithWord(reply, "negative");
    LabelOfReply(reply);
  }

  /** `classify_event_type_core` */
  function ClassifyEventTypeCore(client: Option<Chat>, text: string): (r: string)
    ensures client.None? ==> r == GeneralNews
    ensures r == GeneralNews || (client.Some? && client.value(EventPrompt, "'" + text + "'").Answered?)
    ensures r != [] ==> !IsSpace(r[0]) && !IsSpace(r[|r| - 1])
  {
    if client.None? then GeneralNews
    else
      match client.value(EventPrompt, "'" + text + "'")
      case Raised => GeneralNews
      case Answered(reply) => Strip(reply)
  }

  /** The stripped reply is returned as it is, whether or not it names one of the categories. */
  lemma ReplyIsTrusted(client: Chat, text: string, reply: string)
    requires client(EventPrompt, "'" + text + "'") == Answered(reply)
    ensures ClassifyEventTypeCore(Some(client), text) == Strip(reply)
  {
  }
}
