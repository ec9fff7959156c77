/** The lexical scores of the evaluation harness: token-overlap F1 for one
    sample, its average over samples, and exact match. Scores are exact
    reals; the source computes them in floating point. */
module LexicalMetrics {
  import opened Wrappers
  import Tokens
  import Strings

  /** The one error the scoring functions raise: predictions and labels of
      different lengths ("The number of predictions and labels must be the
      same."). */
  datatype ScoreError = LengthMismatch

  /** `sum((Counter(label) & Counter(pred)).values())`: the size of the
      multiset intersection of the two token lists. */
  function NumSame(labelToks: seq<string>, predToks: seq<string>): nat {
    |multiset(labelToks) * multiset(predToks)|
  }

  /** `_compute_f1_single`. */
  function F1Single(labelToks: seq<string>, predToks: seq<string>): real {
    var numSame := NumSame(labelToks, predToks);
    if |labelToks| == 0 || |predToks| == 0 then
      if labelToks == predToks then 1.0 else 0.0
    else if numSame == 0 then
      0.0
    else
      var precision := numSame as real / |predToks| as real;
      var recall := numSame as real / |labelToks| as real;
      (2.0 * precision * recall) / (precision + recall)
  }

  lemma SubMultisetCard<T>(c: multiset<T>, a: multiset<T>)
    requires c <= a
    ensures |c| <= |a|
    ensures |c| == |a| ==> c == a
  {
    var d := a - c;
    assert a == c + d;
    if |c| == |a| {
      assert |d| == 0;
      assert d == multiset{};
    }
  }

  /** The overlap never exceeds either token list. */
  lemma NumSameBounds(labelToks: seq<string>, predToks: seq<string>)
    ensures NumSame(labelToks, predToks) <= |labelToks|
    ensures NumSame(labelToks, predToks) <= |predToks|
  {
    var l, p := multiset(labelToks), multiset(predToks);
    SubMultisetCard(l * p, l);
    SubMultisetCard(l * p, p);
  }

  lemma NumSameSymmetric(labelToks: seq<string>, predToks: seq<string>)
    ensures NumSame(labelToks, predToks) == NumSame(predToks, labelToks)
  {
    var l, p := multiset(labelToks), multiset(predToks);
    assert l * p == p * l;
  }

  /** The overlap is total exactly when the two token lists are permutations of
      each other. */
  lemma NumSameFull(labelToks: seq<string>, predToks: seq<string>)
    requires NumSame(labelToks, predToks) == |labelToks| == |predToks|
    ensures multiset(labelToks) == multiset(predToks)
  {
    var l, p := multiset(labelToks), multiset(predToks);
    SubMultisetCard(l * p, l);
    SubMultisetCard(l * p, p);
  }

  /** An empty side is a "no answer": the score is 1 when both sides are empty
      and 0 when only one is. */
  lemma F1NoAnswer(labelToks: seq<string>, predToks: seq<string>)
    requires |labelToks| == 0 || |predToks| == 0
    ensures F1Single(labelToks, predToks) == (if |labelToks| == 0 && |predToks| == 0 then 1.0 else 0.0)
  {
  }

  /** Non-empty answers sharing no token score 0. */
  lemma F1Disjoint(labelToks: seq<string>, predToks: seq<string>)
    requires |labelToks| > 0 && |predToks| > 0
    requires multiset(labelToks) !! multiset(predToks)
    ensures F1Single(labelToks, predToks) == 0.0
  {
    assert multiset(labelToks) * multiset(predToks) == multiset{};
  }

  lemma HarmonicMean(n: real, p: real, l: real)
    requires n > 0.0 && p > 0.0 && l > 0.0
    ensures (2.0 * (n / p) * (n / l)) / ((n / p) + (n / l)) == 2.0 * n / (p + l)
  {
    var pr, rc := n / p, n / l;
    assert pr * p == n;
    assert rc * l == n;
    assert pr > 0.0 && rc > 0.0;
    var lhs := (2.0 * pr * rc) / (pr + rc);
    assert lhs * (pr + rc) == 2.0 * pr * rc;
    assert (2.0 * pr * rc) * (p + l) == 2.0 * n * (pr + rc) by {
      assert pr * rc * p == n * rc;
      assert pr * rc * l == pr * n;
    }
    assert lhs * (pr + rc) * (p + l) == 2.0 * n * (pr + rc);
    assert lhs * (p + l) == 2.0 * n;
  }

  /** For non-empty token lists the score has the closed form
      2 * |common| / (|pred| + |label|). */
  lemma F1ClosedForm(labelToks: seq<string>, predToks: seq<string>)
    requires |labelToks| > 0 && |predToks| > 0
    ensures F1Single(labelToks, predToks)
         == 2.0 * NumSame(labelToks, predToks) as real / (|predToks| + |labelToks|) as real
  {
    var n := NumSame(labelToks, predToks);
    if n > 0 {
      HarmonicMean(n as real, |predToks| as real, |labelToks| as real);
    }
  }

  /** A count divided by a positive total it does not exceed. */
  lemma Fraction(c: nat, n: nat)
    requires 0 < n && c <= n
    ensures 0.0 <= c as real / n as real <= 1.0
    ensures c as real / n as real == 1.0 <==> c == n
    ensures c as real / n as real == 0.0 <==> c == 0
  {
    var q := c as real / n as real;
    assert q * n as real == c as real;
  }

  /** The score of one sample is between 0 and 1. */
  lemma F1Bounds(labelToks: seq<string>, predToks: seq<string>)
    ensures 0.0 <= F1Single(labelToks, predToks) <= 1.0
  {
    if |labelToks| > 0 && |predToks| > 0 {
      F1ClosedForm(labelToks, predToks);
      NumSameBounds(labelToks, predToks);
      var n := NumSame(labelToks, predToks);
      Fraction(2 * n, |predToks| + |labelToks|);
      assert (2 * n) as real == 2.0 * n as real;
    }
  }

  /** Swapping prediction and label does not change the score. */
  lemma F1Symmetric(labelToks: seq<string>, predToks: seq<string>)
    ensures F1Single(labelToks, predToks) == F1Single(predToks, labelToks)
  {
    if |labelToks| > 0 && |predToks| > 0 {
      F1ClosedForm(labelToks, predToks);
      F1ClosedForm(predToks, labelToks);
      NumSameSymmetric(labelToks, predToks);
    }
  }

  /** The score is 1 exactly when the two token lists hold the same tokens
      with the same multiplicities (order does not matter). */
  lemma F1PerfectIff(labelToks: seq<string>, predToks: seq<string>)
    ensures F1Single(labelToks, predToks) == 1.0 <==> multiset(labelToks) == multiset(predToks)
  {
    var l, p := |labelToks|, |predToks|;
    if l == 0 || p == 0 {
      assert |multiset(labelToks)| == l && |multiset(predToks)| == p;
    } else {
      var n := NumSame(labelToks, predToks);
      F1ClosedForm(labelToks, predToks);
      NumSameBounds(labelToks, predToks);
      Fraction(2 * n, p + l);
      assert (2 * n) as real == 2.0 * n as real;
      assert F1Single(labelToks, predToks) == 1.0 <==> n == l == p;
      if n == l == p {
        NumSameFull(labelToks, predToks);
      }
      if multiset(labelToks) == multiset(predToks) {
        assert multiset(labelToks) * multiset(predToks) == multiset(labelToks);
        assert |multiset(labelToks)| == l && |multiset(predToks)| == p;
      }
    }
  }

  // ---------------------------------------------------------------------
  // Averages

  function Sum(xs: seq<real>): real {
    if |xs| == 0 then 0.0 else Sum(xs[..|xs| - 1]) + xs[|xs| - 1]
  }

  /** `np.mean` of a non-empty list. */
  function Mean(xs: seq<real>): real
    requires |xs| > 0
  {
    Sum(xs) / |xs| as real
  }

  lemma {:induction false} SumBounds(xs: seq<real>, lo: real, hi: real)
    requires forall i :: 0 <= i < |xs| ==> lo <= xs[i] <= hi
    ensures |xs| as real * lo <= Sum(xs) <= |xs| as real * hi
  {
    if |xs| > 0 {
      SumBounds(xs[..|xs| - 1], lo, hi);
    }
  }

  /** A mean of values in [lo, hi] lies in [lo, hi]. */
  lemma MeanBounds(xs: seq<real>, lo: real, hi: real)
    requires |xs| > 0
    requires forall i :: 0 <= i < |xs| ==> lo <= xs[i] <= hi
    ensures lo <= Mean(xs) <= hi
  {
    SumBounds(xs, lo, hi);
    var n := |xs| as real;
    assert Mean(xs) * n == Sum(xs);
  }

  lemma {:induction false} SumConstant(xs: seq<real>, c: real)
    requires forall i :: 0 <= i < |xs| ==> xs[i] == c
    ensures Sum(xs) == |xs| as real * c
  {
    if |xs| > 0 {
      SumConstant(xs[..|xs| - 1], c);
    }
  }

  // ---------------------------------------------------------------------
  // Aggregate F1

  /** `[pred.split() for pred in predictions]`, after normalising each
      string. */
  function Tokenize(texts: seq<string>, normalize: string -> string): seq<seq<string>>
  {
    seq(|texts|, i requires 0 <= i < |texts| => Tokens.Split(normalize(texts[i])))
  }

  /** The per-sample scores, in sample order. */
  function F1Scores(labelToks: seq<seq<string>>, predToks: seq<seq<string>>): seq<real>
    requires |labelToks| == |predToks|
  {
    seq(|labelToks|, i requires 0 <= i < |labelToks| => F1Single(labelToks[i], predToks[i]))
  }

  /** The score part of `_calculate_f1`, on already-extracted answers:
      mismatched lengths are an error, no samples score 0.0, otherwise the
      per-sample scores of the normalised, tokenised texts are averaged. */
  function F1Score(predictions: seq<string>, labels: seq<string>, normalize: string -> string): (r: Result<real, ScoreError>)
    ensures r.Failure? <==> |predictions| != |labels|
    ensures r.Failure? ==> r.error == LengthMismatch
    ensures r.Success? && |predictions| == 0 ==> r.value == 0.0
    ensures r.Success? && |predictions| > 0 ==>
      r.value == Mean(F1Scores(Tokenize(labels, normalize), Tokenize(predictions, normalize)))
  {
    if |predictions| != |labels| then Failure(LengthMismatch)
    else if |predictions| == 0 then Success(0.0)
    else
      var scores := F1Scores(Tokenize(labels, normalize), Tokenize(predictions, normalize));
      Success(Mean(scores))
  }

  /** The aggregate F1 lies in [0, 1]. */
  lemma F1ScoreBounds(predictions: seq<string>, labels: seq<string>, normalize: string -> string)
    requires |predictions| == |labels|
    ensures F1Score(predictions, labels, normalize).Success?
    ensures 0.0 <= F1Score(predictions, labels, normalize).value <= 1.0
  {
    if |predictions| > 0 {
      var scores := F1Scores(Tokenize(labels, normalize), Tokenize(predictions, normalize));
      forall i | 0 <= i < |scores| ensures 0.0 <= scores[i] <= 1.0 {
        F1Bounds(Tokenize(labels, normalize)[i], Tokenize(predictions, normalize)[i]);
      }
      MeanBounds(scores, 0.0, 1.0);
    }
  }

  /** Predictions identical to their labels score 1.0 overall (blank answers
      included, since both sides are then "no answer"). */
  lemma F1ScoreIdentical(texts: seq<string>, normalize: string -> string)
    requires |texts| > 0
    ensures F1Score(texts, texts, normalize) == Success(1.0)
  {
    var toks := Tokenize(texts, normalize);
    var scores := F1Scores(toks, toks);
    forall i | 0 <= i < |scores| ensures scores[i] == 1.0 {
      F1PerfectIff(toks[i], toks[i]);
    }
    SumConstant(scores, 1.0);
    Fraction(|scores|, |scores|);
    assert Mean(scores) == 1.0;
  }

  // ---------------------------------------------------------------------
  // Exact match

  /** Number of positions where the prediction equals the label. */
  function MatchCount(predictions: seq<string>, labels: seq<string>): nat
    requires |predictions| == |labels|
  {
    if |predictions| == 0 then 0
    else
      var n := |predictions| - 1;
      MatchCount(predictions[..n], labels[..n]) + (if predictions[n] == labels[n] then 1 else 0)
  }

  /** `np.array(predictions) == np.array(labels)` as 0/1 scores. */
  function MatchScores(predictions: seq<string>, labels: seq<string>): seq<real>
    requires |predictions| == |labels|
  {
    seq(|predictions|, i requires 0 <= i < |predictions| => if predictions[i] == labels[i] then 1.0 else 0.0)
  }

  /** The score part of `_calculate_em`, on already-extracted answers. */
  function ExactMatch(predictions: seq<string>, labels: seq<string>, normalize: string -> string): (r: Result<real, ScoreError>)
    ensures r.Failure? <==> |predictions| != |labels|
    ensures r.Failure? ==> r.error == LengthMismatch
    ensures r.Success? && |predictions| == 0 ==> r.value == 0.0
  {
    if |predictions| != |labels| then Failure(LengthMismatch)
    else if |predictions| == 0 then Success(0.0)
    else
      Success(Mean(MatchScores(Normalized(predictions, normalize), Normalized(labels, normalize))))
  }

  lemma {:induction false} SumMatchScores(predictions: seq<string>, labels: seq<string>)
    requires |predictions| == |labels|
    ensures Sum(MatchScores(predictions, labels)) == MatchCount(predictions, labels) as real
  {
    if |predictions| > 0 {
      var n := |predictions| - 1;
      var scores := MatchScores(predictions, labels);
      assert scores[..n] == MatchScores(predictions[..n], labels[..n]);
      SumMatchScores(predictions[..n], labels[..n]);
    }
  }

  lemma {:induction false} MatchCountBounds(predictions: seq<string>, labels: seq<string>)
    requires |predictions| == |labels|
    ensures MatchCount(predictions, labels) <= |predictions|
    ensures MatchCount(predictions, labels) == |predictions| <==> forall i :: 0 <= i < |predictions| ==> predictions[i] == labels[i]
    ensures MatchCount(predictions, labels) == 0 <==> forall i :: 0 <= i < |predictions| ==> predictions[i] != labels[i]
  {
    if |predictions| > 0 {
      var n := |predictions| - 1;
      MatchCountBounds(predictions[..n], labels[..n]);
      assert forall i :: 0 <= i < n ==> predictions[..n][i] == predictions[i] && labels[..n][i] == labels[i];
    }
  }

  /** Exact match is the fraction of positions whose normalised prediction
      equals the normalised label. */
  lemma ExactMatchIsFraction(predictions: seq<string>, labels: seq<string>, normalize: string -> string)
    requires |predictions| == |labels| > 0
    ensures ExactMatch(predictions, labels, normalize)
         == Success(MatchCount(Normalized(predictions, normalize), Normalized(labels, normalize)) as real / |predictions| as real)
  {
    SumMatchScores(Normalized(predictions, normalize), Normalized(labels, normalize));
  }

  /** `preprocess_text`, applied string by string. */
  function Normalized(texts: seq<string>, normalize: string -> string): seq<string>
  {
    seq(|texts|, i requires 0 <= i < |texts| => normalize(texts[i]))
  }

  /** Exact match lies in [0, 1]; it is 1 exactly when every normalised pair
      matches and 0 exactly when none does. */
  lemma ExactMatchBounds(predictions: seq<string>, labels: seq<string>, normalize: string -> string)
    requires |predictions| == |labels| > 0
    ensures var em := ExactMatch(predictions, labels, normalize).value;
      && 0.0 <= em <= 1.0
      && (em == 1.0 <==> forall i :: 0 <= i < |predictions| ==> normalize(predictions[i]) == normalize(labels[i]))
      && (em == 0.0 <==> forall i :: 0 <= i < |predictions| ==> normalize(predictions[i]) != normalize(labels[i]))
  {
    var ps, ls := Normalized(predictions, normalize), Normalized(labels, normalize);
    assert forall i :: 0 <= i < |ps| ==> ps[i] == normalize(predictions[i]) && ls[i] == normalize(labels[i]);
    ExactMatchIsFraction(predictions, labels, normalize);
    MatchCountBounds(ps, ls);
    Fraction(MatchCount(ps, ls), |predictions|);
  }

  // ---------------------------------------------------------------------
  // Worked examples

  /** A three-token answer inside a six-token label: precision 1, recall
      1/2, F1 2/3. */
  lemma F1PartialOverlapExample()
    ensures F1Single(["the", "cat", "sat", "on", "the", "mat"], ["the", "cat", "sat"]) == 2.0 / 3.0
  {
    var lab, pred := ["the", "cat", "sat", "on", "the", "mat"], ["the", "cat", "sat"];
    assert multiset(lab) * multiset(pred) == multiset(pred);
    F1ClosedForm(lab, pred);
  }

  /** Comparison of answers as they are, with no normalisation step. */
  function Verbatim(s: string): string { s }

  /** Two samples, the first answered exactly and the second wrongly (as
      predictions ["Paris", "7"] against labels ["Paris", "seven"]): exact
      match is 1/2. */
  lemma ExactMatchOneOfTwo(a: string, b: string, c: string)
    requires b != c
    ensures ExactMatch([a, b], [a, c], Verbatim) == Success(0.5)
  {
    var preds, labels := [a, b], [a, c];
    ExactMatchIsFraction(preds, labels, Verbatim);
    assert Normalized(preds, Verbatim) == preds && Normalized(labels, Verbatim) == labels;
    assert MatchCount(preds, labels) == 1 by {
      assert preds[..1] == [a] && labels[..1] == [a];
      assert MatchCount([a], [a]) == 1 by {
        assert [a][..0] == [];
      }
      assert preds[1] != labels[1];
    }
  }

  /** Texts that are single tokens tokenise to themselves. */
  lemma TokenizeSingleTokens(texts: seq<string>)
    requires forall i :: 0 <= i < |texts| ==> Tokens.IsToken(texts[i])
    ensures forall i :: 0 <= i < |texts| ==> Tokenize(texts, Verbatim)[i] == [texts[i]]
  {
    forall i | 0 <= i < |texts| ensures Tokenize(texts, Verbatim)[i] == [texts[i]] {
      assert Tokenize(texts, Verbatim)[i] == Tokens.Split(texts[i]) by {
        assert Verbatim(texts[i]) == texts[i];
      }
      assert Strings.Join([texts[i]], ' ') == texts[i];
      Tokens.SplitJoinSpace([texts[i]]);
    }
  }

  /** The same two samples, each answer a single token: F1 is 1/2, since the
      first pair matches fully and the second shares no token. */
  lemma F1OneOfTwo(a: string, b: string, c: string)
    requires Tokens.IsToken(a) && Tokens.IsToken(b) && Tokens.IsToken(c)
    requires b != c
    ensures F1Score([a, b], [a, c], Verbatim) == Success(0.5)
  {
    var preds, labels := [a, b], [a, c];
    var lt, pt := Tokenize(labels, Verbatim), Tokenize(preds, Verbatim);
    TokenizeSingleTokens(labels);
    TokenizeSingleTokens(preds);
    var scores := F1Scores(lt, pt);
    assert scores[0] == 1.0 by {
      assert lt[0] == [a] && pt[0] == [a];
      F1PerfectIff([a], [a]);
    }
    assert scores[1] == 0.0 by {
      assert lt[1] == [c] && pt[1] == [b];
      assert multiset([c]) !! multiset([b]);
      F1Disjoint([c], [b]);
    }
    assert Sum(scores) == 1.0 by {
      assert scores == [1.0, 0.0];
      assert scores[..1] == [1.0] && [1.0][..0] == [];
    }
  }
}
