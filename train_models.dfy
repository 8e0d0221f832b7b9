/** The text handling of the sentiment training script: the cleaning of one text
    (missing value, lower case, letters and white space only, single spaces), the file
    names a model is saved under, and the choice of the model to save. Training and
    evaluation belong to a foreign library; their accuracies are an input. */
module TrainModels {
  import opened Wrappers
  import opened Text
  import opened Lists
  import opened Ranking
  import Sentiment

  // ---- white space ----

  function NotSpace(): char -> bool {
    c => !IsSpace(c)
  }

  /** The non-space characters of `s`, in order. */
  function NonSpace(s: string): string {
    Filter(s, NotSpace())
  }

  /** Leading white space holds no other character. */
  lemma {:induction false} NonSpaceTrimStart(s: string)
    ensures NonSpace(TrimStart(s)) == NonSpace(s)
  {
    if s != [] && IsSpace(s[0]) {
      NonSpaceTrimStart(s[1..]);
    }
  }

  /** Every white-space character is `' '`, none follows another, and none ends the
      string. */
  predicate SpacesSingle(r: string) {
    && (forall i :: 0 <= i < |r| && IsSpace(r[i]) ==> r[i] == ' ')
    && (forall i :: 0 <= i < |r| - 1 && IsSpace(r[i]) ==> !IsSpace(r[i + 1]))
    && (r == [] || !IsSpace(r[|r| - 1]))
  }

  /** A string in the form `' '.join(...)` produces: single spaces between words and no
      white space at either end. */
  predicate SingleSpaced(r: string) {
    (r == [] || !IsSpace(r[0])) && SpacesSingle(r)
  }

  /** Putting a character in front keeps the spacing single when the character is not
      white space, or is one `' '` before a word. */
  lemma ConsSpacesSingle(c: char, t: string)
    requires SpacesSingle(t)
    requires IsSpace(c) ==> c == ' ' && t != [] && !IsSpace(t[0])
    ensures SpacesSingle([c] + t)
  {
    var r := [c] + t;
    assert forall i :: 1 <= i < |r| ==> r[i] == t[i - 1];
  }

  /** The converse: the tail of a single-spaced string, and how it starts. */
  lemma TailSpacesSingle(s: string)
    requires SingleSpaced(s) && s != []
    ensures SpacesSingle(s[1..])
    ensures |s| > 1 && IsSpace(s[1]) ==> s[1] == ' ' && |s| > 2 && SingleSpaced(s[2..])
  {
    var t := s[1..];
    assert forall i :: 0 <= i < |t| ==> t[i] == s[i + 1];
    if |s| > 1 && IsSpace(s[1]) {
      var u := s[2..];
      assert forall i :: 0 <= i < |u| ==> u[i] == s[i + 2];
    }
  }

  /** Each run of white space becomes one `' '`, except a run at the end, which is
      dropped: the second half of `' '.join(text.split())`. */
  function Squeeze(s: string): (r: string)
    ensures s != [] && !IsSpace(s[0]) ==> r != [] && r[0] == s[0]
    decreases |s|
  {
    if s == [] then []
    else if !IsSpace(s[0]) then [s[0]] + Squeeze(s[1..])
    else
      var rest := TrimStart(s);
      if rest == [] then [] else [' '] + Squeeze(rest)
  }

  /** The output of `Squeeze` is single-spaced apart from its first character. */
  lemma {:induction false} SqueezeSpacesSingle(s: string)
    ensures SpacesSingle(Squeeze(s))
    decreases |s|
  {
    if s == [] {
    } else if !IsSpace(s[0]) {
      SqueezeSpacesSingle(s[1..]);
      ConsSpacesSingle(s[0], Squeeze(s[1..]));
    } else {
      var rest := TrimStart(s);
      if rest != [] {
        SqueezeSpacesSingle(rest);
        ConsSpacesSingle(' ', Squeeze(rest));
      }
    }
  }

  /** `Squeeze` keeps the non-space characters, in order. */
  lemma {:induction false} SqueezeNonSpace(s: string)
    ensures NonSpace(Squeeze(s)) == NonSpace(s)
    decreases |s|
  {
    if s == [] {
    } else if !IsSpace(s[0]) {
      SqueezeNonSpace(s[1..]);
      var r := [s[0]] + Squeeze(s[1..]);
      assert r[1..] == Squeeze(s[1..]);
    } else {
      var rest := TrimStart(s);
      NonSpaceTrimStart(s);
      if rest != [] {
        SqueezeNonSpace(rest);
        var r := [' '] + Squeeze(rest);
        assert r[1..] == Squeeze(rest);
      }
    }
  }

  /** What cleaning leaves: lower-case letters and white space. */
  predicate LowerOrSpace(s: string) {
    forall i :: 0 <= i < |s| ==> IsLowerAscii(s[i]) || IsSpace(s[i])
  }

  lemma LowerOrSpaceCons(c: char, t: string)
    requires IsLowerAscii(c) || IsSpace(c)
    requires LowerOrSpace(t)
    ensures LowerOrSpace([c] + t)
  {
    assert forall i :: 1 <= i < |[c] + t| ==> ([c] + t)[i] == t[i - 1];
  }

  /** `Squeeze` introduces no other character. */
  lemma {:induction false} SqueezeLowerOrSpace(s: string)
    requires LowerOrSpace(s)
    ensures LowerOrSpace(Squeeze(s))
    decreases |s|
  {
    if s == [] {
    } else if !IsSpace(s[0]) {
      assert LowerOrSpace(s[1..]);
      SqueezeLowerOrSpace(s[1..]);
      LowerOrSpaceCons(s[0], Squeeze(s[1..]));
    } else {
      var rest := TrimStart(s);
      if rest != [] {
        assert LowerOrSpace(rest);
        SqueezeLowerOrSpace(rest);
        LowerOrSpaceCons(' ', Squeeze(rest));
      }
    }
  }

  /** Squeezing a single-spaced string changes nothing. */
  lemma {:induction false} SqueezeSingleSpaced(s: string)
    requires SingleSpaced(s)
    ensures Squeeze(s) == s
    decreases |s|
  {
    if s != [] {
      TailSpacesSingle(s);
      var t := s[1..];
      if t != [] && IsSpace(t[0]) {
        var u := s[2..];
        assert t == [' '] + u;
        assert TrimStart(t) == u;
        SqueezeSingleSpaced(u);
      } else {
        SqueezeSingleSpaced(t);
      }
    }
  }

  /** `' '.join(text.split())`: words separated by single spaces, with no white space
      at either end and the non-space characters unchanged. */
  function Normalise(s: string): (r: string)
    ensures SingleSpaced(r)
    ensures NonSpace(r) == NonSpace(s)
  {
    var t := TrimStart(s);
    NonSpaceTrimStart(s);
    SqueezeSpacesSingle(t);
    SqueezeNonSpace(t);
    Squeeze(t)
  }

  // ---- words ----

  /** A word: at least one character, none of them white space. */
  predicate IsWord(w: string) {
    w != [] && forall i :: 0 <= i < |w| ==> !IsSpace(w[i])
  }

  /** The longest prefix of `s` holding no white space. */
  function WordPrefix(s: string): (w: string)
    ensures |w| <= |s| && w == s[..|w|]
    ensures forall i :: 0 <= i < |w| ==> !IsSpace(w[i])
    ensures |w| < |s| ==> IsSpace(s[|w|])
    ensures s != [] && !IsSpace(s[0]) ==> |w| > 0
    decreases |s|
  {
    if s == [] || IsSpace(s[0]) then [] else [s[0]] + WordPrefix(s[1..])
  }

  /** `s.split()`: the maximal runs of characters other than white space, in order. */
  function Words(s: string): seq<string>
    decreases |s|
  {
    var t := TrimStart(s);
    if t == [] then []
    else
      var w := WordPrefix(t);
      [w] + Words(t[|w|..])
  }

  /** A word in front of a list of words. */
  lemma AllWordsCons(w: string, ws: seq<string>)
    requires IsWord(w)
    requires forall k :: 0 <= k < |ws| ==> IsWord(ws[k])
    ensures forall k :: 0 <= k < |[w] + ws| ==> IsWord(([w] + ws)[k])
  {
    forall k | 0 <= k < |[w] + ws|
      ensures IsWord(([w] + ws)[k])
    {
      if k > 0 {
        assert ([w] + ws)[k] == ws[k - 1];
      }
    }
  }

  /** Every piece `Words` returns is a word: non-empty and free of white space. */
  lemma {:induction false} WordsAreWords(s: string)
    ensures forall k :: 0 <= k < |Words(s)| ==> IsWord(Words(s)[k])
    decreases |s|
  {
    var t := TrimStart(s);
    if t != [] {
      var w := WordPrefix(t);
      WordsAreWords(t[|w|..]);
      AllWordsCons(w, Words(t[|w|..]));
    }
  }

  /** One step of `SqueezeWord`: a word character in front of a word. */
  lemma SqueezeWordCons(t: string)
    requires |t| > 1 && !IsSpace(t[0]) && !IsSpace(t[1])
    requires Squeeze(t[1..]) == WordPrefix(t[1..]) + Squeeze(t[1..][|WordPrefix(t[1..])|..])
    ensures Squeeze(t) == WordPrefix(t) + Squeeze(t[|WordPrefix(t)|..])
  {
    var u := t[1..];
    var w, wu := WordPrefix(t), WordPrefix(u);
    assert w == [t[0]] + wu;
    assert u[|wu|..] == t[|w|..];
    assert Squeeze(t) == [t[0]] + Squeeze(u);
    AppendAssoc([t[0]], wu, Squeeze(t[|w|..]));
  }

  /** Joining a word in front of a non-empty list of words. */
  lemma JoinCons(w: string, ws: seq<string>)
    requires ws != []
    ensures Join([w] + ws, ' ') == w + [' '] + Join(ws, ' ')
  {
    assert ([w] + ws)[1..] == ws;
  }

  /** `Squeeze` copies a leading word unchanged. */
  lemma {:induction false} SqueezeWord(t: string)
    requires t != [] && !IsSpace(t[0])
    ensures Squeeze(t) == WordPrefix(t) + Squeeze(t[|WordPrefix(t)|..])
    decreases |t|
  {
    var u := t[1..];
    if u != [] && !IsSpace(u[0]) {
      SqueezeWord(u);
      SqueezeWordCons(t);
    } else {
      assert WordPrefix(u) == [];
      assert t[|WordPrefix(t)|..] == u;
    }
  }

  /** From a string that does not start with white space, `Squeeze` joins its words
      with single spaces. */
  lemma {:induction false} SqueezeWords(t: string)
    requires t == [] || !IsSpace(t[0])
    ensures Squeeze(t) == Join(Words(t), ' ')
    decreases |t|
  {
    if t != [] {
      var w := WordPrefix(t);
      var rest := t[|w|..];
      var u := TrimStart(rest);
      assert TrimStart(t) == t;
      assert Words(t) == [w] + Words(rest);
      assert u == [] || TrimStart(u) == u;
      assert Words(rest) == Words(u);
      SqueezeWord(t);
      if u == [] {
        assert Squeeze(rest) == [];
        assert Join([w], ' ') == w + [];
      } else {
        SqueezeWords(u);
        assert Squeeze(rest) == [' '] + Squeeze(u);
        JoinCons(w, Words(u));
        AppendAssoc(w, [' '], Squeeze(u));
      }
    }
  }

  /** `' '.join(text.split())` is what `Normalise` computes: the words of the text,
      joined by single spaces. */
  lemma NormaliseWords(s: string)
    ensures Normalise(s) == Join(Words(s), ' ')
  {
    var t := TrimStart(s);
    SqueezeWords(t);
    assert t == [] || TrimStart(t) == t;
  }

  /** Normalising a cleaned text leaves lower-case letters and single `' '`s. */
  lemma NormaliseLowerOrSpace(s: string)
    requires LowerOrSpace(s)
    ensures forall i :: 0 <= i < |Normalise(s)| ==> IsLowerAscii(Normalise(s)[i]) || Normalise(s)[i] == ' '
  {
    var t := TrimStart(s);
    assert LowerOrSpace(t);
    SqueezeLowerOrSpace(t);
  }

  /** Normalising twice is normalising once. */
  lemma NormaliseIdempotent(s: string)
    ensures Normalise(Normalise(s)) == Normalise(s)
  {
    var n := Normalise(s);
    assert TrimStart(n) == n;
    SqueezeSingleSpaced(n);
  }

  // ---- preprocess_text ----

  function IsLetter(): char -> bool {
    c => IsAsciiLetter(c)
  }

  /** `preprocess_text`: a missing value (`NaN`) gives the empty string; otherwise the
      lower-cased letters of the text, in order, with single spaces between words. */
  function PreprocessText(text: Option<string>): (r: string)
    ensures text.None? ==> r == ""
    ensures forall i :: 0 <= i < |r| ==> IsLowerAscii(r[i]) || r[i] == ' '
    ensures SingleSpaced(r)
    ensures text.Some? ==> NonSpace(r) == Filter(Lower(text.value), IsLetter())
    ensures text.Some? ==> r == Join(Words(Sentiment.CleanText(text.value)), ' ')
  {
    match text
    case None => ""
    case Some(t) =>
      var cleaned := Sentiment.CleanText(t);
      LettersOfCleanText(t);
      NormaliseLowerOrSpace(cleaned);
      NormaliseWords(cleaned);
      Normalise(cleaned)
  }

  /** The non-space characters that cleaning keeps are the letters of the lowered text. */
  lemma LettersOfCleanText(t: string)
    ensures NonSpace(Sentiment.CleanText(t)) == Filter(Lower(t), IsLetter())
  {
    FilterFilter(Lower(t), Sentiment.KeptChar(), NotSpace(), IsLetter());
  }

  /** `preprocess_text` of its own output changes nothing. */
  lemma PreprocessTextIdempotent(text: Option<string>)
    ensures PreprocessText(Some(PreprocessText(text))) == PreprocessText(text)
  {
    var r := PreprocessText(text);
    assert forall i :: 0 <= i < |r| ==> Sentiment.Kept(r[i]);
    Sentiment.CleanTextKeepsLetters(r);
    assert NoUpper(r);
    LowerOfNoUpper(r);
    SqueezeSingleSpaced(r);
    assert TrimStart(r) == r;
  }

  // ---- file names ----

  /** `s.replace(" ", "_")`. */
  function Underscored(s: string): (r: string)
    ensures |r| == |s|
    ensures forall i :: 0 <= i < |s| ==> r[i] == (if s[i] == ' ' then '_' else s[i])
  {
    seq(|s|, i requires 0 <= i < |s| => if s[i] == ' ' then '_' else s[i])
  }

  /** The part of both file names that comes from the model name. */
  function Stem(modelName: string): (r: string)
    ensures |r| == |modelName|
    ensures ' ' !in r && NoUpper(r)
    ensures forall i :: 0 <= i < |modelName| ==> r[i] == (if modelName[i] == ' ' then '_' else LowerChar(modelName[i]))
  {
    LowerHasNoUpper(modelName);
    Underscored(Lower(modelName))
  }

  /** `models/<name>_model.pkl`. */
  function ModelPath(modelName: string): string {
    "models/" + Stem(modelName) + "_model.pkl"
  }

  /** `models/<name>_vectorizer.pkl`. */
  function VectorizerPath(modelName: string): string {
    "models/" + Stem(modelName) + "_vectorizer.pkl"
  }

  /** Both files sit in `models/`, share the stem, which has no space and no capital,
      and differ only in their suffix; so the two names never coincide. */
  lemma SavePaths(modelName: string)
    ensures ModelPath(modelName)[..7] == VectorizerPath(modelName)[..7] == "models/"
    ensures ModelPath(modelName)[7..7 + |modelName|] == VectorizerPath(modelName)[7..7 + |modelName|] == Stem(modelName)
    ensures ModelPath(modelName)[7 + |modelName|..] == "_model.pkl"
    ensures VectorizerPath(modelName)[7 + |modelName|..] == "_vectorizer.pkl"
    ensures ModelPath(modelName) != VectorizerPath(modelName)
  {
    var stem := Stem(modelName);
    assert |ModelPath(modelName)| != |VectorizerPath(modelName)|;
  }

  // ---- the model to save ----

  /** One entry of `results`: a model name and its test accuracy. */
  datatype Evaluation = Evaluation(name: string, accuracy: real)

  /** Entry `k` has the highest accuracy, and every earlier entry a lower one. */
  predicate IsBest(results: seq<Evaluation>, k: int) {
    && 0 <= k < |results|
    && (forall j :: 0 <= j < |results| ==> results[j].accuracy <= results[k].accuracy)
    && (forall j :: 0 <= j < k ==> results[j].accuracy < results[k].accuracy)
  }

  function AccuracyOf(): Evaluation -> real {
    (e: Evaluation) => e.accuracy
  }

  /** `max(results.keys(), key=accuracy)`: the first model, in insertion order, with the
      highest accuracy; `max` of nothing is a `ValueError`. */
  function BestModelName(results: seq<Evaluation>): (r: Option<string>)
    ensures r.None? <==> results == []
    ensures r.Some? ==> exists k :: IsBest(results, k) && results[k].name == r.value
  {
    if results == [] then None
    else
      var k := FirstMax(results, AccuracyOf());
      Some(results[k].name)
  }
}
