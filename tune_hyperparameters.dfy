/** The hyperparameter search of the Q-learning demo: every combination of learning
    rate, discount factor and epsilon decay is trained and tested once, in nested order,
    and the combination with the best success rate is reported. Training and testing
    are random and foreign to this model: their outcome for a combination is the
    function `evaluate`. */
module TuneHyperparameters {
  import opened Wrappers
  import opened Ranking

  /** One combination of the three searched parameters. */
  datatype Hyper = Hyper(learningRate: real, discountFactor: real, epsilonDecay: real)

  /** What training and testing report for one combination. */
  datatype Metrics = Metrics(avgTrainingReward: real, avgTrainingSteps: real, avgTestReward: real, avgTestSteps: real, successRate: real)

  /** One entry of `results`: the combination and its metrics. */
  datatype Trial = Trial(params: Hyper, metrics: Metrics)

  /** The trials of one learning rate and one discount factor, over every epsilon decay. */
  function DecayBlock(lr: real, df: real, eds: seq<real>, evaluate: Hyper -> Metrics): (r: seq<Trial>)
    ensures |r| == |eds|
  {
    if eds == [] then []
    else
      var params := Hyper(lr, df, eds[|eds| - 1]);
      DecayBlock(lr, df, eds[..|eds| - 1], evaluate) + [Trial(params, evaluate(params))]
  }

  /** Position `k` of a decay block holds epsilon decay `k`. */
  lemma {:induction false} DecayBlockEntry(lr: real, df: real, eds: seq<real>, evaluate: Hyper -> Metrics, k: nat)
    requires k < |eds|
    ensures DecayBlock(lr, df, eds, evaluate)[k] == Trial(Hyper(lr, df, eds[k]), evaluate(Hyper(lr, df, eds[k])))
  {
    var m := |eds| - 1;
    if k < m {
      DecayBlockEntry(lr, df, eds[..m], evaluate, k);
    }
  }

  /** The trials of one learning rate: a decay block per discount factor, in order. */
  function RateBlock(lr: real, dfs: seq<real>, eds: seq<real>, evaluate: Hyper -> Metrics): seq<Trial> {
    if dfs == [] then []
    else RateBlock(lr, dfs[..|dfs| - 1], eds, evaluate) + DecayBlock(lr, dfs[|dfs| - 1], eds, evaluate)
  }

  /** All trials: a rate block per learning rate, in order. */
  function Trials(lrs: seq<real>, dfs: seq<real>, eds: seq<real>, evaluate: Hyper -> Metrics): seq<Trial> {
    if lrs == [] then []
    else Trials(lrs[..|lrs| - 1], dfs, eds, evaluate) + RateBlock(lrs[|lrs| - 1], dfs, eds, evaluate)
  }

  /** Multiplying by a natural number is monotone. */
  lemma {:induction false} MulMonotone(a: nat, b: nat, c: nat)
    requires a <= b
    ensures a * c <= b * c
    decreases b - a
  {
    if a < b {
      MulMonotone(a, b - 1, c);
      assert (b - 1) * c + c == b * c;
    }
  }

  /** Position `i·size + r` of `n` blocks of `size` lies in block `i`. */
  lemma BlockPosition(i: nat, r: nat, n: nat, size: nat)
    requires i < n && r < size
    ensures i * size + r < n * size
  {
    assert i * size + size == (i + 1) * size;
    MulMonotone(i + 1, n, size);
  }

  /** `n` blocks of `size` followed by one more: position `i·size + r` is in the
      prefix for `i < n`, and is entry `r` of the last block for `i == n`. */
  lemma BlockConcat<T>(prefix: seq<T>, block: seq<T>, n: nat, size: nat, i: nat, r: nat)
    requires |prefix| == n * size && |block| == size && i <= n && r < size
    ensures i * size + r < |prefix + block|
    ensures i < n ==> i * size + r < |prefix| && (prefix + block)[i * size + r] == prefix[i * size + r]
    ensures i == n ==> (prefix + block)[i * size + r] == block[r]
  {
    BlockPosition(i, r, n + 1, size);
    assert n * size + size == (n + 1) * size;
    if i < n {
      BlockPosition(i, r, n, size);
    }
  }

  /** `n - 1` blocks and one more make `n` blocks. */
  lemma OneMoreBlock(n: int, size: int)
    ensures (n - 1) * size + size == n * size
  {
  }

  /** Position `j·e + k` lies inside a block of `d` rows of `e`, and block `i` of such
      blocks starts at a position that is not negative. */
  lemma RowPosition(i: nat, j: nat, k: nat, d: nat, e: nat)
    requires j < d && k < e
    ensures 0 <= j * e + k < d * e
    ensures 0 <= i * (d * e)
  {
    BlockPosition(j, k, d, e);
    MulMonotone(0, i, d * e);
  }

  /** A rate block holds `|eds|` trials per discount factor. */
  lemma {:induction false} RateBlockSize(lr: real, dfs: seq<real>, eds: seq<real>, evaluate: Hyper -> Metrics)
    ensures |RateBlock(lr, dfs, eds, evaluate)| == |dfs| * |eds|
  {
    if dfs != [] {
      RateBlockSize(lr, dfs[..|dfs| - 1], eds, evaluate);
      OneMoreBlock(|dfs|, |eds|);
    }
  }

  /** Position `j·|eds| + k` of a rate block holds discount factor `j` with decay `k`. */
  lemma {:induction false} RateBlockEntry(lr: real, dfs: seq<real>, eds: seq<real>, evaluate: Hyper -> Metrics, j: nat, k: nat)
    requires j < |dfs| && k < |eds|
    ensures j * |eds| + k < |RateBlock(lr, dfs, eds, evaluate)|
    ensures RateBlock(lr, dfs, eds, evaluate)[j * |eds| + k] == Trial(Hyper(lr, dfs[j], eds[k]), evaluate(Hyper(lr, dfs[j], eds[k])))
  {
    var m, e := |dfs| - 1, |eds|;
    var front := dfs[..m];
    var prefix := RateBlock(lr, front, eds, evaluate);
    var block := DecayBlock(lr, dfs[m], eds, evaluate);
    RateBlockSize(lr, front, eds, evaluate);
    BlockConcat(prefix, block, |front|, e, j, k);
    if j < m {
      RateBlockEntry(lr, front, eds, evaluate, j, k);
      assert front[j] == dfs[j];
    } else {
      DecayBlockEntry(lr, dfs[m], eds, evaluate, k);
    }
  }

  /** `total_combinations`: one trial per combination. */
  lemma {:induction false} TrialsSize(lrs: seq<real>, dfs: seq<real>, eds: seq<real>, evaluate: Hyper -> Metrics)
    ensures |Trials(lrs, dfs, eds, evaluate)| == |lrs| * (|dfs| * |eds|)
  {
    if lrs != [] {
      TrialsSize(lrs[..|lrs| - 1], dfs, eds, evaluate);
      RateBlockSize(lrs[|lrs| - 1], dfs, eds, evaluate);
      OneMoreBlock(|lrs|, |dfs| * |eds|);
    }
  }

  /** Position `i·|dfs|·|eds| + r` of the trials is position `r` of the rate block of
      learning rate `i`. */
  lemma {:induction false} TrialsEntry(lrs: seq<real>, dfs: seq<real>, eds: seq<real>, evaluate: Hyper -> Metrics, i: nat, r: nat)
    requires i < |lrs| && r < |dfs| * |eds|
    ensures i * (|dfs| * |eds|) + r < |Trials(lrs, dfs, eds, evaluate)|
    ensures r < |RateBlock(lrs[i], dfs, eds, evaluate)| && Trials(lrs, dfs, eds, evaluate)[i * (|dfs| * |eds|) + r] == RateBlock(lrs[i], dfs, eds, evaluate)[r]
  {
    var n, size := |lrs| - 1, |dfs| * |eds|;
    var front := lrs[..n];
    var prefix := Trials(front, dfs, eds, evaluate);
    var block := RateBlock(lrs[n], dfs, eds, evaluate);
    TrialsSize(front, dfs, eds, evaluate);
    RateBlockSize(lrs[n], dfs, eds, evaluate);
    RateBlockSize(lrs[i], dfs, eds, evaluate);
    BlockConcat(prefix, block, |front|, size, i, r);
    if i < n {
      TrialsEntry(front, dfs, eds, evaluate, i, r);
      assert front[i] == lrs[i];
    }
  }

  /** The nested order: the trial at position `i·|dfs|·|eds| + j·|eds| + k` is learning
      rate `i`, discount factor `j` and epsilon decay `k`, with the metrics of that
      combination. */
  lemma TrialsAt(lrs: seq<real>, dfs: seq<real>, eds: seq<real>, evaluate: Hyper -> Metrics, i: nat, j: nat, k: nat)
    requires i < |lrs| && j < |dfs| && k < |eds|
    ensures 0 <= i * (|dfs| * |eds|) + j * |eds| + k < |Trials(lrs, dfs, eds, evaluate)|
    ensures Trials(lrs, dfs, eds, evaluate)[i * (|dfs| * |eds|) + j * |eds| + k] == Trial(Hyper(lrs[i], dfs[j], eds[k]), evaluate(Hyper(lrs[i], dfs[j], eds[k])))
  {
    RowPosition(i, j, k, |dfs|, |eds|);
    var r := j * |eds| + k;
    RateBlockEntry(lrs[i], dfs, eds, evaluate, j, k);
    TrialsEntry(lrs, dfs, eds, evaluate, i, r);
    var p := i * (|dfs| * |eds|) + r;
    assert p == i * (|dfs| * |eds|) + j * |eds| + k;
    assert Trials(lrs, dfs, eds, evaluate)[p] == RateBlock(lrs[i], dfs, eds, evaluate)[r];
  }

  /** One more learning rate adds its rate block at the end. */
  lemma TrialsSnoc(lrs: seq<real>, i: nat, dfs: seq<real>, eds: seq<real>, evaluate: Hyper -> Metrics)
    requires i < |lrs|
    ensures Trials(lrs[..i + 1], dfs, eds, evaluate) == Trials(lrs[..i], dfs, eds, evaluate) + RateBlock(lrs[i], dfs, eds, evaluate)
  {
    assert lrs[..i + 1][..i] == lrs[..i];
  }

  /** One more discount factor adds its decay block at the end. */
  lemma RateBlockSnoc(lr: real, dfs: seq<real>, j: nat, eds: seq<real>, evaluate: Hyper -> Metrics)
    requires j < |dfs|
    ensures RateBlock(lr, dfs[..j + 1], eds, evaluate) == RateBlock(lr, dfs[..j], eds, evaluate) + DecayBlock(lr, dfs[j], eds, evaluate)
  {
    assert dfs[..j + 1][..j] == dfs[..j];
  }

  /** One more epsilon decay adds its trial at the end. */
  lemma DecayBlockSnoc(lr: real, df: real, eds: seq<real>, k: nat, evaluate: Hyper -> Metrics)
    requires k < |eds|
    ensures DecayBlock(lr, df, eds[..k + 1], evaluate) == DecayBlock(lr, df, eds[..k], evaluate) + [Trial(Hyper(lr, df, eds[k]), evaluate(Hyper(lr, df, eds[k])))]
  {
    assert eds[..k + 1][..k] == eds[..k];
  }

  /** The innermost loop of `evaluate_hyperparameters`: one trial per epsilon decay, for
      a fixed learning rate and discount factor. */
  method EvaluateDecays(lr: real, df: real, eds: seq<real>, evaluate: Hyper -> Metrics) returns (block: seq<Trial>)
    ensures block == DecayBlock(lr, df, eds, evaluate)
  {
    block := [];
    for k := 0 to |eds|
      invariant block == DecayBlock(lr, df, eds[..k], evaluate)
    {
      var params := Hyper(lr, df, eds[k]);
      var result := Trial(params, evaluate(params));
      DecayBlockSnoc(lr, df, eds, k, evaluate);
      block := block + [result];
    }
    assert eds[..|eds|] == eds;
  }

  /** The middle loop: a decay block per discount factor, for a fixed learning rate. */
  method EvaluateDiscounts(lr: real, dfs: seq<real>, eds: seq<real>, evaluate: Hyper -> Metrics) returns (block: seq<Trial>)
    ensures block == RateBlock(lr, dfs, eds, evaluate)
  {
    block := [];
    for j := 0 to |dfs|
      invariant block == RateBlock(lr, dfs[..j], eds, evaluate)
    {
      var decays := EvaluateDecays(lr, dfs[j], eds, evaluate);
      RateBlockSnoc(lr, dfs, j, eds, evaluate);
      block := block + decays;
    }
    assert dfs[..|dfs|] == dfs;
  }

  /** `evaluate_hyperparameters`: every combination trained and tested once, appended in
      nested order, counting the combinations as it goes; `TrialsSize` and `TrialsAt`
      say how many there are and which is where. */
  method EvaluateHyperparameters(lrs: seq<real>, dfs: seq<real>, eds: seq<real>, evaluate: Hyper -> Metrics)
    returns (results: seq<Trial>, combinationCount: nat)
    ensures results == Trials(lrs, dfs, eds, evaluate)
    ensures combinationCount == |results|
  {
    results := [];
    combinationCount := 0;
    for i := 0 to |lrs|
      invariant results == Trials(lrs[..i], dfs, eds, evaluate)
      invariant combinationCount == |results|
    {
      var block := EvaluateDiscounts(lrs[i], dfs, eds, evaluate);
      TrialsSnoc(lrs, i, dfs, eds, evaluate);
      results := results + block;
      combinationCount := combinationCount + |block|;
    }
    assert lrs[..|lrs|] == lrs;
  }

  /** Result `k` has the highest success rate, and every earlier result a lower one. */
  predicate BestAt(results: seq<Trial>, k: int) {
    && 0 <= k < |results|
    && (forall j :: 0 <= j < |results| ==> results[j].metrics.successRate <= results[k].metrics.successRate)
    && (forall j :: 0 <= j < k ==> results[j].metrics.successRate < results[k].metrics.successRate)
  }

  function SuccessOf(): Trial -> real {
    (t: Trial) => t.metrics.successRate
  }

  /** `find_best_hyperparameters`: nothing for no results; otherwise the first result
      whose success rate no other result exceeds. */
  function FindBestHyperparameters(results: seq<Trial>): (r: Option<Trial>)
    ensures r.None? <==> results == []
    ensures r.Some? ==> exists k :: BestAt(results, k) && results[k] == r.value
  {
    if results == [] then None
    else Some(results[FirstMax(results, SuccessOf())])
  }
}
