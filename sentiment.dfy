/** The two sentiment analysers: the rule-based one counts positive and negative words
    among the tokens of a text, the learned one cleans the text before handing it to a
    classifier. Tokenisation and stop-word removal come from a foreign library, so the
    rule-based analyser takes the tokens as input; the classifier is a function
    parameter. */
module Sentiment {
  import opened Wrappers
  import opened Text
  import opened Lists
  import opened Numbers

  // ---- rule-based analyser ----

  const PositiveWords: set<string> := {
    "good", "great", "excellent", "amazing", "wonderful", "fantastic",
    "awesome", "brilliant", "outstanding", "perfect", "love", "like",
    "enjoy", "happy", "pleased", "satisfied", "delighted", "impressed"
  }

  const NegativeWords: set<string> := {
    "bad", "terrible", "awful", "horrible", "worst", "hate", "dislike",
    "disappointed", "angry", "frustrated", "annoyed", "sad", "upset",
    "disgusting", "pathetic", "useless", "boring", "confused"
  }

  /** Length, first and last letter of a word, as far as they tell the positive words
      from the negative ones. */
  predicate PositiveShape(w: string) {
    |w| > 0 &&
    var n, first, last := |w|, w[0], w[|w| - 1];
    || (n == 4 && (first == 'g' || first == 'l'))
    || (n == 5 && (first == 'g' || first == 'e' || first == 'h'))
    || (n == 7 && (first == 'p' || (first == 'a' && last != 'd')))
    || n == 9 || n == 11
  }

  predicate NegativeShape(w: string) {
    |w| > 0 &&
    var n, first, last := |w|, w[0], w[|w| - 1];
    || n == 3 || n == 6 || n == 8 || n == 10 || n == 12
    || (n == 4 && first == 'h')
    || (n == 5 && (first == 'a' || first == 'w' || first == 'u'))
    || (n == 7 && (first == 'd' || first == 'u' || (first == 'a' && last == 'd')))
  }

  /** No word is both positive and negative. */
  lemma WordSetsDisjoint()
    ensures PositiveWords !! NegativeWords
  {
    forall w | w in PositiveWords ensures PositiveShape(w) {}
    forall w | w in NegativeWords ensures NegativeShape(w) {}
  }

  function InSet(words: set<string>): string -> bool {
    w => w in words
  }

  /** With two predicates that never hold together, the two counts add up to at most
      the length: each token adds to at most one of them. */
  lemma {:induction false} CountDisjoint<T>(s: seq<T>, p: T -> bool, q: T -> bool)
    requires forall x :: !(p(x) && q(x))
    ensures Count(s, p) + Count(s, q) <= |s|
  {
    if s != [] {
      CountDisjoint(s[1..], p, q);
      assert Count(s, p) == (if p(s[0]) then 1 else 0) + Count(s[1..], p);
      assert Count(s, q) == (if q(s[0]) then 1 else 0) + Count(s[1..], q);
    }
  }

  datatype Label = Positive | Negative | Neutral

  class RuleBasedAnalyzer {
    const positiveWords: set<string>
    const negativeWords: set<string>

    /** `__init__`: the two fixed word lists, which share no word. */
    constructor()
      ensures positiveWords == PositiveWords && negativeWords == NegativeWords
      ensures positiveWords !! negativeWords
    {
      positiveWords := PositiveWords;
      negativeWords := NegativeWords;
      WordSetsDisjoint();
    }

    /** `analyze_sentiment` on the tokens: the side with more words wins, with
        confidence its count over the total plus one; a tie is neutral with confidence
        one half. */
    function AnalyzeSentiment(tokens: seq<string>): (r: (Label, real))
      ensures var pos, neg := Count(tokens, InSet(positiveWords)), Count(tokens, InSet(negativeWords));
        && (r.0 == Positive <==> pos > neg)
        && (r.0 == Negative <==> neg > pos)
        && (r.0 == Neutral <==> pos == neg)
        && (r.0 == Neutral ==> r.1 == 0.5)
        && (r.0 == Positive ==> r.1 == Share(pos, pos + neg + 1))
        && (r.0 == Negative ==> r.1 == Share(neg, pos + neg + 1))
        && 0.0 < r.1 < 1.0
    {
      var pos, neg := Count(tokens, InSet(positiveWords)), Count(tokens, InSet(negativeWords));
      if pos > neg then (Positive, Share(pos, pos + neg + 1))
      else if neg > pos then (Negative, Share(neg, pos + neg + 1))
      else (Neutral, 0.5)
    }

    /** The two counts behind a verdict add up to at most the number of tokens. */
    lemma CountsWithinTokens(tokens: seq<string>)
      requires positiveWords !! negativeWords
      ensures Count(tokens, InSet(positiveWords)) + Count(tokens, InSet(negativeWords)) <= |tokens|
    {
      CountDisjoint(tokens, InSet(positiveWords), InSet(negativeWords));
    }
  }

  // ---- learned analyser ----

  /** What `[^a-zA-Z\s]` does not remove. */
  predicate Kept(c: char) {
    IsAsciiLetter(c) || IsSpace(c)
  }

  function KeptChar(): char -> bool {
    c => Kept(c)
  }

  /** `preprocess_text` of the learned analyser: lower-case, then drop everything but
      letters and white space. */
  function CleanText(text: string): (r: string)
    ensures forall i :: 0 <= i < |r| ==> IsLowerAscii(r[i]) || IsSpace(r[i])
    ensures |r| <= |text|
  {
    var lowered := Lower(text);
    LowerHasNoUpper(text);
    FilterMembers(lowered, KeptChar());
    Filter(lowered, KeptChar())
  }

  /** Cleaning a cleaned text changes nothing. */
  lemma CleanTextIdempotent(text: string)
    ensures CleanText(CleanText(text)) == CleanText(text)
  {
    var once := CleanText(text);
    assert NoUpper(once);
    LowerOfNoUpper(once);
    FilterAll(once, KeptChar());
  }

  /** Cleaning works character by character: the cleaning of a concatenation is the
      concatenation of the cleanings. */
  lemma CleanTextAppend(a: string, b: string)
    ensures CleanText(a + b) == CleanText(a) + CleanText(b)
  {
    LowerAppend(a, b);
    FilterAppend(Lower(a), Lower(b), KeptChar());
  }

  /** What cleaning does to one character: a letter is lower-cased, white space is
      kept, anything else is dropped. */
  lemma CleanTextChar(c: char)
    ensures CleanText([c]) == if Kept(c) then [LowerChar(c)] else []
  {
    assert Lower([c]) == [LowerChar(c)];
    assert [LowerChar(c)][1..] == [];
  }

  /** Letters and white space survive cleaning, letters lower-cased. */
  lemma CleanTextKeepsLetters(text: string)
    requires forall i :: 0 <= i < |text| ==> Kept(text[i])
    ensures CleanText(text) == Lower(text)
  {
    FilterAll(Lower(text), KeptChar());
  }

  class LearnedAnalyzer {
    var isTrained: bool

    /** `__init__`: untrained. */
    constructor()
      ensures !isTrained
    {
      isTrained := false;
    }

    /** `train`: the texts are cleaned before fitting, and the analyser is trained
        afterwards; the fitting itself is not modelled. */
    method Train(texts: seq<string>) returns (processedTexts: seq<string>)
      modifies this
      ensures isTrained
      ensures |processedTexts| == |texts| && forall i :: 0 <= i < |texts| ==> processedTexts[i] == CleanText(texts[i])
    {
      processedTexts := seq(|texts|, i requires 0 <= i < |texts| => CleanText(texts[i]));
      isTrained := true;
    }

    /** `predict`: refused before training; otherwise the classifier's answer on the
        cleaned text. */
    method Predict(text: string, classify: string -> (string, real)) returns (r: Result<(string, real)>)
      ensures r.Err? <==> !isTrained
      ensures r.Ok? ==> r.value == classify(CleanText(text))
    {
      if !isTrained {
        return Err("Model must be trained before making predictions");
      }
      var processedText := CleanText(text);
      r := Ok(classify(processedText));
    }
  }
}
