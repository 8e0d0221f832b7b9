/** The data handling of the character-level text generator: the sorted vocabulary and
    its two index maps, the training windows cut from a text, the normalisation of the
    seed and the sliding window of the generation loop. The network itself (creation,
    fitting, prediction) is a foreign library: only whether a model exists is kept, and
    each predicted character is a nondeterministic choice from the vocabulary. */
module TextGeneration {
  import opened Wrappers

  // ---- vocabulary ----

  predicate StrictlySorted(chars: seq<char>) {
    forall i, j :: 0 <= i < j < |chars| ==> chars[i] < chars[j]
  }

  /** `c` placed into a strictly sorted sequence, unless already there. */
  function InsertChar(c: char, chars: seq<char>): (r: seq<char>)
    requires StrictlySorted(chars)
    ensures StrictlySorted(r)
    ensures forall d :: d in r <==> d == c || d in chars
  {
    if chars == [] then [c]
    else if c == chars[0] then chars
    else if c < chars[0] then [c] + chars
    else
      var rest := InsertChar(c, chars[1..]);
      assert forall d :: d in rest ==> chars[0] < d;
      [chars[0]] + rest
  }

  /** `sorted(list(set(text)))`: the distinct characters of the text in increasing order. */
  function Vocabulary(text: string): (chars: seq<char>)
    ensures StrictlySorted(chars)
    ensures forall c :: c in chars <==> c in text
  {
    if text == [] then []
    else InsertChar(text[|text| - 1], Vocabulary(text[..|text| - 1]))
  }

  /** A strictly sorted sequence has as many elements as distinct values. */
  lemma {:induction false} DistinctSize(chars: seq<char>)
    requires StrictlySorted(chars)
    ensures |set c | c in chars| == |chars|
  {
    if chars != [] {
      DistinctSize(chars[1..]);
      assert (set c | c in chars) == {chars[0]} + (set c | c in chars[1..]);
      assert chars[0] !in chars[1..];
    } else {
      assert (set c | c in chars) == {};
    }
  }

  /** `vocab_size` is the number of distinct characters of the text. */
  lemma VocabularySize(text: string)
    ensures |Vocabulary(text)| == |set c | c in text|
  {
    var chars := Vocabulary(text);
    assert (set c | c in chars) == (set c | c in text);
    DistinctSize(chars);
  }

  /** `{char: idx for idx, char in enumerate(chars)}`. */
  function CharToIndex(chars: seq<char>): (r: map<char, nat>)
    requires StrictlySorted(chars)
    ensures forall c :: c in r <==> c in chars
    ensures forall i :: 0 <= i < |chars| ==> r[chars[i]] == i
  {
    map i | 0 <= i < |chars| :: chars[i] := i
  }

  /** `{idx: char for idx, char in enumerate(chars)}`. */
  function IndexToChar(chars: seq<char>): (r: map<nat, char>)
    ensures forall i :: i in r ==> i < |chars|
    ensures forall i :: 0 <= i < |chars| ==> i in r && r[i] == chars[i]
  {
    map i | 0 <= i < |chars| :: chars[i]
  }

  /** The table's lookups undo each other in the direction the generation loop uses. */
  ghost predicate Inverse(charToIdx: map<char, nat>, idxToChar: map<nat, char>) {
    forall c :: c in charToIdx ==> charToIdx[c] in idxToChar && idxToChar[charToIdx[c]] == c
  }

  /** Every character of a vocabulary has the index of its position. */
  lemma IndexOfChar(chars: seq<char>, c: char)
    requires StrictlySorted(chars) && c in CharToIndex(chars)
    ensures CharToIndex(chars)[c] < |chars| && chars[CharToIndex(chars)[c]] == c
  {
    var i :| 0 <= i < |chars| && chars[i] == c;
    assert CharToIndex(chars)[chars[i]] == i;
  }

  /** Looking a character's index up again gives the character back. */
  lemma CharIndexRoundTrip(chars: seq<char>)
    requires StrictlySorted(chars)
    ensures Inverse(CharToIndex(chars), IndexToChar(chars))
  {
    forall c | c in CharToIndex(chars)
      ensures CharToIndex(chars)[c] in IndexToChar(chars) && IndexToChar(chars)[CharToIndex(chars)[c]] == c
    {
      IndexOfChar(chars, c);
    }
  }

  /** The two maps of a vocabulary are mutually inverse. */
  lemma MappingsInverse(chars: seq<char>)
    requires StrictlySorted(chars)
    ensures Inverse(CharToIndex(chars), IndexToChar(chars))
    ensures forall i :: i in IndexToChar(chars) ==> IndexToChar(chars)[i] in CharToIndex(chars) && CharToIndex(chars)[IndexToChar(chars)[i]] == i
  {
    CharIndexRoundTrip(chars);
  }

  /** Indices follow the character order. */
  lemma IndicesFollowOrder(chars: seq<char>, c: char, d: char)
    requires StrictlySorted(chars) && c in CharToIndex(chars) && d in CharToIndex(chars)
    ensures c < d <==> CharToIndex(chars)[c] < CharToIndex(chars)[d]
  {
    IndexOfChar(chars, c);
    IndexOfChar(chars, d);
  }

  // ---- encoding ----

  /** `[char_to_idx[char] for char in text]`; `None` when a character has no index
      (a `KeyError`). */
  function Encode(charToIdx: map<char, nat>, text: string): (r: Option<seq<nat>>)
    ensures r.Some? <==> forall i :: 0 <= i < |text| ==> text[i] in charToIdx
    ensures r.Some? ==> |r.value| == |text| && forall i :: 0 <= i < |text| ==> r.value[i] == charToIdx[text[i]]
  {
    if forall i :: 0 <= i < |text| ==> text[i] in charToIdx then
      Some(seq(|text|, i requires 0 <= i < |text| => charToIdx[text[i]]))
    else None
  }

  /** The characters of a sequence of indices; `None` for an unknown index. */
  function Decode(idxToChar: map<nat, char>, indices: seq<nat>): (r: Option<string>)
    ensures r.Some? <==> forall i :: 0 <= i < |indices| ==> indices[i] in idxToChar
    ensures r.Some? ==> |r.value| == |indices| && forall i :: 0 <= i < |indices| ==> r.value[i] == idxToChar[indices[i]]
  {
    if forall i :: 0 <= i < |indices| ==> indices[i] in idxToChar then
      Some(seq(|indices|, i requires 0 <= i < |indices| => idxToChar[indices[i]]))
    else None
  }

  /** Encoding a text over its own vocabulary and decoding the indices gives the text
      back. */
  lemma DecodeEncode(text: string)
    ensures Encode(CharToIndex(Vocabulary(text)), text).Some?
    ensures Decode(IndexToChar(Vocabulary(text)), Encode(CharToIndex(Vocabulary(text)), text).value) == Some(text)
  {
    var chars := Vocabulary(text);
    MappingsInverse(chars);
    var indices := Encode(CharToIndex(chars), text).value;
    var back := Decode(IndexToChar(chars), indices);
    assert back.Some?;
    assert back.value == text;
  }

  // ---- training windows and seeds ----

  /** The training pairs: each window of `sequenceLength` indices and the index after it. */
  datatype Sequences = Sequences(inputs: seq<seq<nat>>, targets: seq<nat>)

  /** `n` spaces. */
  function Spaces(n: nat): (r: string)
    ensures |r| == n && forall k :: 0 <= k < n ==> r[k] == ' '
  {
    seq(n, k => ' ')
  }

  /** The seed of `generate_text`: padded on the right with spaces when shorter than the
      window, its last `sequenceLength` characters when longer. A zero window keeps the
      whole seed, because `seed[-0:]` is the whole string. */
  function NormaliseSeed(seed: string, sequenceLength: nat): (r: string)
    ensures sequenceLength > 0 || seed == [] ==> |r| == sequenceLength
    ensures |seed| <= sequenceLength ==> r[..|seed|] == seed && forall k :: |seed| <= k < |r| ==> r[k] == ' '
    ensures |seed| > sequenceLength ==> |r| <= |seed| && seed[|seed| - |r|..] == r
    ensures sequenceLength == 0 ==> r == seed
  {
    if |seed| < sequenceLength then seed + Spaces(sequenceLength - |seed|)
    else if |seed| > sequenceLength then
      (if sequenceLength == 0 then seed else seed[|seed| - sequenceLength..])
    else seed
  }

  class TextGenerator {
    var sequenceLength: nat
    /** Whether `self.model` is set; the network is not modelled. */
    var hasModel: bool
    /** The maps are empty before `preprocess_text`, where the original holds `None`:
        every lookup fails in both. */
    var charToIdx: map<char, nat>
    var idxToChar: map<nat, char>
    var vocabSize: Option<nat>

    ghost predicate Valid()
      reads this
    {
      Inverse(charToIdx, idxToChar)
    }

    /** `__init__`: no model and no vocabulary yet. */
    constructor(sequenceLength: nat)
      ensures this.sequenceLength == sequenceLength && !hasModel
      ensures charToIdx == map[] && idxToChar == map[] && vocabSize == None
      ensures Valid()
    {
      this.sequenceLength := sequenceLength;
      hasModel := false;
      charToIdx := map[];
      idxToChar := map[];
      vocabSize := None;
    }

    /** `preprocess_text`: the vocabulary of the text and its two maps. */
    method PreprocessText(text: string) returns (chars: seq<char>)
      modifies this
      ensures chars == Vocabulary(text)
      ensures vocabSize == Some(|chars|)
      ensures charToIdx == CharToIndex(chars) && idxToChar == IndexToChar(chars)
      ensures Valid()
      ensures sequenceLength == old(sequenceLength) && hasModel == old(hasModel)
    {
      chars := Vocabulary(text);
      CharIndexRoundTrip(chars);
      charToIdx, idxToChar, vocabSize := CharToIndex(chars), IndexToChar(chars), Some(|chars|);
    }

    /** `create_model`: the network is built; only its existence is kept. */
    method CreateModel()
      modifies this
      ensures hasModel
      ensures sequenceLength == old(sequenceLength) && charToIdx == old(charToIdx) && idxToChar == old(idxToChar) && vocabSize == old(vocabSize)
    {
      hasModel := true;
    }

    /** `train`: refused without a model; the fitting itself is not modelled. */
    method Train() returns (r: Result<()>)
      ensures r.Err? <==> !hasModel
    {
      if !hasModel {
        return Err("Model not created. Call create_model() first.");
      }
      r := Ok(());
    }

    /** `create_sequences`: for every start `i` with a full window after it, the
        window `idx[i..i+L)` and the next index `idx[i+L]`; a character without an
        index is a `KeyError`. */
    method CreateSequences(text: string) returns (r: Result<Sequences>)
      ensures r.Err? <==> Encode(charToIdx, text).None?
      ensures r.Ok? ==> var idx := Encode(charToIdx, text).value;
        && |r.value.inputs| == |r.value.targets| == (if |text| > sequenceLength then |text| - sequenceLength else 0)
        && (forall i :: 0 <= i < |r.value.inputs| ==> r.value.inputs[i] == idx[i..i + sequenceLength])
        && (forall i :: 0 <= i < |r.value.targets| ==> r.value.targets[i] == idx[i + sequenceLength])
    {
      var encoded := Encode(charToIdx, text);
      if encoded.None? {
        return Err("KeyError");
      }
      var textIndices := encoded.value;
      var sequences: seq<seq<nat>> := [];
      var nextChars: seq<nat> := [];
      var i := 0;
      while i < |textIndices| - sequenceLength
        invariant 0 <= i && (i == 0 || i <= |textIndices| - sequenceLength)
        invariant |sequences| == i && |nextChars| == i
        invariant forall k :: 0 <= k < i ==> sequences[k] == textIndices[k..k + sequenceLength]
        invariant forall k :: 0 <= k < i ==> nextChars[k] == textIndices[k + sequenceLength]
      {
        sequences := sequences + [textIndices[i..i + sequenceLength]];
        nextChars := nextChars + [textIndices[i + sequenceLength]];
        i := i + 1;
      }
      r := Ok(Sequences(sequences, nextChars));
    }

    /** `generate_text`: refused without a model; otherwise the normalised seed
        followed by exactly `length` characters of the vocabulary. The window of indices
        keeps its length and always spells the last characters of the output. An
        unknown seed character is a `KeyError`, and sampling from an empty vocabulary
        fails. */
    method GenerateText(seedText: string, length: nat) returns (r: Result<string>)
      requires Valid()
      ensures !hasModel ==> r.Err?
      ensures Encode(charToIdx, NormaliseSeed(seedText, sequenceLength)).None? ==> r.Err?
      ensures r.Ok? ==> var seed := NormaliseSeed(seedText, sequenceLength);
        && |r.value| == |seed| + length
        && r.value[..|seed|] == seed
        && forall k :: |seed| <= k < |r.value| ==> r.value[k] in idxToChar.Values
      ensures hasModel && Encode(charToIdx, NormaliseSeed(seedText, sequenceLength)).Some? && (length == 0 || idxToChar != map[]) ==> r.Ok?
    {
      if !hasModel {
        return Err("Model not trained. Train the model first.");
      }
      var seed := NormaliseSeed(seedText, sequenceLength);
      var encoded := Encode(charToIdx, seed);
      if encoded.None? {
        return Err("KeyError");
      }
      var generatedText := seed;
      var pattern := encoded.value;
      for step := 0 to length
        invariant |generatedText| == |seed| + step && generatedText[..|seed|] == seed
        invariant forall k :: |seed| <= k < |generatedText| ==> generatedText[k] in idxToChar.Values
        invariant |pattern| == |seed|
        invariant forall k :: 0 <= k < |pattern| ==> pattern[k] in idxToChar && idxToChar[pattern[k]] == generatedText[|generatedText| - |pattern| + k]
        invariant step > 0 ==> idxToChar != map[]
      {
        if idxToChar == map[] {
          return Err("cannot sample from an empty vocabulary");
        }
        var nextIdx :| nextIdx in idxToChar;
        var nextChar := idxToChar[nextIdx];
        generatedText := generatedText + [nextChar];
        pattern := pattern + [nextIdx];
        pattern := pattern[1..];
      }
      r := Ok(generatedText);
    }
  }
}
