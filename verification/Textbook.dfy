/**
 The GPT-2 forward pass as equations between coordinates, with plain sums and none of the
 functions by which it is computed, and the proof that the computation satisfies them.
 */
module Textbook {
  import opened Basics
  import opened Transformer

  function Sum(n: nat, f: nat -> real): real { if n == 0 then 0.0 else Sum(n - 1, f) + f(n - 1) }

  /** `r` is the sum of two rows, the shorter one continued by zeros. */
  predicate IsAdded(r: Row, a: Row, b: Row) {
    && |r| == Max(|a|, |b|)
    && forall c :: 0 <= c < |r| ==> r[c] == (if c < |a| then a[c] else 0.0) + if c < |b| then b[c] else 0.0
  }

  function Coordinate(row: Row, c: nat): real { if c < |row| then row[c] else 0.0 }

  /** The products of the coordinates of two rows from `from` on. */
  function Products(a: Row, b: Row, from: nat): nat -> real {
    (d: nat) => Coordinate(a, from + d) * Coordinate(b, from + d)
  }

  /** The scaled inner product of a query and a key within head `h`. */
  function ScaledProduct(m: Gpt2, h: nat, q: Row, k: Row): real {
    m.scale * Sum(m.headDim, Products(q, k, h * m.headDim))
  }

  function Affinity(m: Gpt2, h: nat, q: Row, k: Row): real { m.exp(ScaledProduct(m, h, q, k)) }

  function Weights(m: Gpt2, h: nat, q: Row, ks: seq<Row>): nat -> real {
    (j: nat) => if j < |ks| then Affinity(m, h, q, ks[j]) else 0.0
  }

  /** The weighted values in coordinate `c`. */
  function WeightedValues(m: Gpt2, h: nat, c: nat, q: Row, ks: seq<Row>, vs: seq<Row>): nat -> real
    requires |ks| == |vs|
  {
    (j: nat) => if j < |ks| then Affinity(m, h, q, ks[j]) * Coordinate(vs[j], c) else 0.0
  }

  /**
   Softmax attention: in every head the context is the average of the values, each weighted
   by the affinity of its key to the query.
   */
  ghost predicate IsAttention(m: Gpt2, q: Row, ks: seq<Row>, vs: seq<Row>, context: Row)
    requires |ks| == |vs|
  {
    && |context| == m.heads * m.headDim
    && forall h, d :: 0 <= h < m.heads && 0 <= d < m.headDim ==> HeadAverages(m, h, d, q, ks, vs, context)
  }

  ghost predicate HeadAverages(m: Gpt2, h: nat, d: nat, q: Row, ks: seq<Row>, vs: seq<Row>, context: Row)
    requires |ks| == |vs|
  {
    Averages(m, h, h * m.headDim + d, q, ks, vs, context)
  }

  ghost predicate Averages(m: Gpt2, h: nat, c: nat, q: Row, ks: seq<Row>, vs: seq<Row>, context: Row)
    requires |ks| == |vs|
  {
    Coordinate(context, c) * Sum(|ks|, Weights(m, h, q, ks)) == Sum(|ks|, WeightedValues(m, h, c, q, ks, vs))
  }

  /** The query, key and value of a hidden row in a block. */
  function Projected(b: Block, x: Row): Qkv { b.attn(b.ln1(x)) }

  function KeysUpTo(b: Block, xs: seq<Row>, i: nat): (r: seq<Row>)
    requires i < |xs|
    ensures |r| == i + 1
  {
    seq(i + 1, j requires 0 <= j <= i => Projected(b, xs[j]).k)
  }

  function ValuesUpTo(b: Block, xs: seq<Row>, i: nat): (r: seq<Row>)
    requires i < |xs|
    ensures |r| == i + 1
  {
    seq(i + 1, j requires 0 <= j <= i => Projected(b, xs[j]).v)
  }

  /**
   Row `i` of a block: attention over the positions up to `i`, projected and added to the
   input, then the MLP of the normalised sum, added to that sum.
   */
  ghost predicate IsBlockRow(m: Gpt2, b: Block, xs: seq<Row>, i: nat, context: Row, mid: Row, out: Row)
    requires i < |xs|
  {
    && IsAttention(m, Projected(b, xs[i]).q, KeysUpTo(b, xs, i), ValuesUpTo(b, xs, i), context)
    && IsAdded(mid, b.proj(context), xs[i])
    && IsAdded(out, b.mlp(b.ln2(mid)), mid)
  }

  ghost predicate IsBlock(m: Gpt2, b: Block, xs: seq<Row>, ys: seq<Row>) {
    && |ys| == |xs|
    && forall i :: 0 <= i < |xs| ==> IsRowOf(m, b, xs, i, ys[i])
  }

  ghost predicate IsRowOf(m: Gpt2, b: Block, xs: seq<Row>, i: nat, out: Row)
    requires i < |xs|
  {
    exists context, mid :: IsBlockRow(m, b, xs, i, context, mid, out)
  }

  /** `rows[l]` are the hidden rows before layer `l`, `logits` those after the last token. */
  ghost predicate IsForward(m: Gpt2, tokens: seq<Token>, rows: seq<seq<Row>>, logits: Row) {
    && |rows| == |m.blocks| + 1 && |rows[0]| == |rows[|m.blocks|]| == |tokens| > 0
    && (forall i :: 0 <= i < |tokens| ==> IsAdded(rows[0][i], m.wte(tokens[i]), m.wpe(i)))
    && (forall l :: 0 <= l < |m.blocks| ==> IsBlock(m, m.blocks[l], rows[l], rows[l + 1]))
    && logits == m.unembed(m.lnF(rows[|m.blocks|][|tokens| - 1]))
  }

  // ----- The computation satisfies the equations -----

  lemma {:induction false} DotIsSum(a: Row, b: Row, from: nat, n: nat)
    ensures Dot(a, b, from, n) == Sum(n, Products(a, b, from))
  {
    if n > 0 {
      DotIsSum(a, b, from, n - 1);
      var d: nat := n - 1;
      assert Coordinate(a, from + d) == At(a, from + n - 1) && Coordinate(b, from + d) == At(b, from + n - 1);
      assert Products(a, b, from)(d) == Coordinate(a, from + d) * Coordinate(b, from + d);
    }
  }

  lemma ScoreIsAffinity(m: Gpt2, h: nat, q: Row, k: Row)
    ensures Weight(m, HeadScore(m, h, q, k)) == Affinity(m, h, q, k)
  {
    hide Dot, Sum;
    DotIsSum(q, k, h * m.headDim, m.headDim);
    Commutes(Dot(q, k, h * m.headDim, m.headDim), m.scale);
    var s := HeadScore(m, h, q, k);
    assert s.x == ScaledProduct(m, h, q, k);
    assert Weight(m, s) == m.exp(s.x);
  }

  lemma Commutes(a: real, b: real)
    ensures a * b == b * a
  {
  }

  lemma {:induction false} WeightSumIsSum(m: Gpt2, scores: seq<Score>, weight: nat -> real)
    requires forall j: nat :: j < |scores| ==> Weight(m, scores[j]) == weight(j)
    ensures WeightSum(m, scores) == Sum(|scores|, weight)
  {
    if scores != [] {
      WeightSumIsSum(m, scores[..|scores| - 1], weight);
    }
  }

  lemma ShareOfTotal(w: real, x: real, total: real)
    requires total != 0.0
    ensures w / total * x * total == w * x
  {
    var share := w / total;
    assert share * total == w;
    assert share * x * total == share * total * x;
  }

  lemma Distribute(a: real, b: real, total: real)
    ensures (a + b) * total == a * total + b * total
  {
  }

  lemma {:induction false} MixIsSum(m: Gpt2, scores: seq<Score>, total: real, vs: seq<Row>, c: nat,
                                    weighted: nat -> real)
    requires |scores| <= |vs| && total != 0.0
    requires forall j: nat :: j < |scores| ==> Weight(m, scores[j]) * Coordinate(vs[j], c) == weighted(j)
    ensures Mix(m, scores, total, vs, c) * total == Sum(|scores|, weighted)
  {
    hide Weight;
    if scores != [] {
      var n := |scores| - 1;
      MixIsSum(m, scores[..n], total, vs, c, weighted);
      ShareOfTotal(Weight(m, scores[n]), At(vs[n], c), total);
      Distribute(Mix(m, scores[..n], total, vs, c), Share(m, scores[n], total) * At(vs[n], c), total);
    }
  }

  lemma {:induction false} SumIsPositive(n: nat, f: nat -> real)
    requires 0 < n && forall j: nat :: j < n ==> f(j) > 0.0
    ensures Sum(n, f) > 0.0
  {
    if n > 1 {
      SumIsPositive(n - 1, f);
    }
  }

  lemma AtLeast(k: int, n: nat)
    requires k >= 1
    ensures k * n >= n
  {
  }

  lemma Minus(a: int, b: int, n: nat)
    ensures (a - b) * n == a * n - b * n
  {
  }

  lemma HeadOfCoordinate(h: nat, d: nat, heads: nat, headDim: nat)
    requires h < heads && d < headDim
    ensures h * headDim + d < heads * headDim && (h * headDim + d) / headDim == h
  {
    var c := h * headDim + d;
    var q := c / headDim;
    assert c == q * headDim + c % headDim;
    Minus(heads, h, headDim);
    AtLeast(heads - h, headDim);
    if h < q {
      Minus(q, h, headDim);
      AtLeast(q - h, headDim);
    } else if q < h {
      Minus(h, q, headDim);
      AtLeast(h - q, headDim);
    }
  }

  lemma ContextAverages(m: Gpt2, h: nat, c: nat, q: Row, ks: seq<Row>, vs: seq<Row>)
    requires forall x :: m.exp(x) > 0.0
    requires 0 < |ks| == |vs| && 0 < m.headDim && c < m.heads * m.headDim && c / m.headDim == h
    ensures Averages(m, h, c, q, ks, vs, OpenAttention(m, q, ks, vs))
  {
    hide Dot, Affinity, HeadScore;
    var scores := OpenScores(m, q, ks)(h);
    forall j: nat | j < |ks| ensures Weight(m, scores[j]) == Weights(m, h, q, ks)(j) > 0.0 {
      ScoreIsAffinity(m, h, q, ks[j]);
      assert scores[j] == HeadScore(m, h, q, ks[j]);
      AffinityIsPositive(m, h, q, ks[j]);
    }
    WeightSumIsSum(m, scores, Weights(m, h, q, ks));
    SumIsPositive(|ks|, Weights(m, h, q, ks));
    MixIsSum(m, scores, WeightSum(m, scores), vs, c, WeightedValues(m, h, c, q, ks, vs));
  }

  lemma AffinityIsPositive(m: Gpt2, h: nat, q: Row, k: Row)
    requires forall x :: m.exp(x) > 0.0
    ensures Affinity(m, h, q, k) > 0.0
  {
  }

  lemma NoCoordinates(m: Gpt2, q: Row, ks: seq<Row>, vs: seq<Row>)
    requires |ks| == |vs|
    ensures |OpenAttention(m, q, ks, vs)| == m.heads * m.headDim
  {
  }

  lemma OpenIsAttention(m: Gpt2, q: Row, ks: seq<Row>, vs: seq<Row>)
    requires forall x :: m.exp(x) > 0.0
    requires 0 < |ks| == |vs|
    ensures IsAttention(m, q, ks, vs, OpenAttention(m, q, ks, vs))
  {
    hide Averages, OpenScores;
    forall h, d | 0 <= h < m.heads && 0 <= d < m.headDim
      ensures HeadAverages(m, h, d, q, ks, vs, OpenAttention(m, q, ks, vs))
    {
      HeadOfCoordinate(h, d, m.heads, m.headDim);
      ContextAverages(m, h, h * m.headDim + d, q, ks, vs);
    }
    NoCoordinates(m, q, ks, vs);
  }

  lemma BlockIsTextbook(m: Gpt2, b: Block, xs: seq<Row>)
    requires forall x :: m.exp(x) > 0.0
    ensures IsBlock(m, b, xs, BlockRows(m, b, xs))
  {
    forall i | 0 <= i < |xs| ensures IsRowOf(m, b, xs, i, BlockRows(m, b, xs)[i]) {
      var q := Projected(b, xs[i]).q;
      MaskedIsOpenOnPrefix(m, i, q, Keys(b, xs), Values(b, xs));
      assert Keys(b, xs)[..i + 1] == KeysUpTo(b, xs, i) && Values(b, xs)[..i + 1] == ValuesUpTo(b, xs, i);
      OpenIsAttention(m, q, KeysUpTo(b, xs, i), ValuesUpTo(b, xs, i));
      var context := OpenAttention(m, q, KeysUpTo(b, xs, i), ValuesUpTo(b, xs, i));
      assert IsBlockRow(m, b, xs, i, context, Add(b.proj(context), xs[i]), BlockRows(m, b, xs)[i]);
    }
  }

  function HiddenLayers(m: Gpt2, tokens: seq<Token>): (rows: seq<seq<Row>>)
    ensures |rows| == |m.blocks| + 1 && forall l :: 0 <= l < |rows| ==> rows[l] == HiddenRows(m, tokens, l)
  {
    seq(|m.blocks| + 1, l requires 0 <= l <= |m.blocks| => HiddenRows(m, tokens, l))
  }

  /** The full forward pass is the textbook one, in every coordinate of every layer. */
  lemma FullForwardIsTextbook(m: Gpt2, tokens: seq<Token>)
    requires (forall x :: m.exp(x) > 0.0) && tokens != []
    ensures IsForward(m, tokens, HiddenLayers(m, tokens), FullLogits(m, tokens))
  {
    var rows := HiddenLayers(m, tokens);
    forall l | 0 <= l < |m.blocks| ensures IsBlock(m, m.blocks[l], rows[l], rows[l + 1]) {
      BlockIsTextbook(m, m.blocks[l], rows[l]);
    }
  }
}
