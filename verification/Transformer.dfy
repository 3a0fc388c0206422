/**
 The GPT-2 forward pass over exact reals. The per-row kernels (embeddings, layer
 norms, projections, MLP, `exp`) are arbitrary functions; the layer stack, the
 causal mask, the per-head attention and the positions are spelled out.
 */
module Transformer {
  import opened Basics

  type Row = seq<real>

  /** Query, key and value of one position, as cut out of the joint projection. */
  datatype Qkv = Qkv(q: Row, k: Row, v: Row)

  datatype Block = Block(ln1: Row -> Row, attn: Row -> Qkv, proj: Row -> Row, ln2: Row -> Row, mlp: Row -> Row)

  datatype Gpt2 = Gpt2(
    wte: Token -> Row,
    wpe: nat -> Row,
    blocks: seq<Block>,
    lnF: Row -> Row,
    unembed: Row -> Row,
    heads: nat,
    headDim: nat,
    scale: real,
    exp: real -> real,
    maxPositions: nat)

  /** The cached rows of one layer. */
  datatype LayerKv = LayerKv(k: seq<Row>, v: seq<Row>)

  function At(row: Row, i: nat): real { if i < |row| then row[i] else 0.0 }

  function Add(a: Row, b: Row): Row {
    seq(Max(|a|, |b|), i requires i >= 0 => At(a, i) + At(b, i))
  }

  // ----- Attention of one query -----

  /** A raw attention score, or minus infinity where the mask hides the key. */
  datatype Score = Hidden | Score(x: real)

  function Dot(a: Row, b: Row, from: nat, n: nat): real {
    if n == 0 then 0.0 else Dot(a, b, from, n - 1) + At(a, from + n - 1) * At(b, from + n - 1)
  }

  function HeadScore(m: Gpt2, h: nat, q: Row, k: Row): Score {
    Score(Dot(q, k, h * m.headDim, m.headDim) * m.scale)
  }

  function Weight(m: Gpt2, s: Score): real { if s.Hidden? then 0.0 else m.exp(s.x) }

  function WeightSum(m: Gpt2, scores: seq<Score>): real {
    if scores == [] then 0.0
    else WeightSum(m, scores[..|scores| - 1]) + Weight(m, scores[|scores| - 1])
  }

  function Share(m: Gpt2, s: Score, total: real): real {
    if total == 0.0 then 0.0 else Weight(m, s) / total
  }

  /** One coordinate of the softmax-weighted sum of the values. */
  function Mix(m: Gpt2, scores: seq<Score>, total: real, vs: seq<Row>, c: nat): real
    requires |scores| <= |vs|
  {
    if scores == [] then 0.0
    else
      var n := |scores| - 1;
      Mix(m, scores[..n], total, vs, c) + Share(m, scores[n], total) * At(vs[n], c)
  }

  /** The context row: coordinate `c` belongs to head `c / headDim`. `scores` gives each head's scores. */
  function ContextRow(m: Gpt2, scores: nat -> seq<Score>, vs: seq<Row>): Row
    requires forall h :: |scores(h)| <= |vs|
  {
    if m.headDim == 0 then []
    else
      seq(m.heads * m.headDim, c requires c >= 0 =>
        var s := scores(c / m.headDim);
        Mix(m, s, WeightSum(m, s), vs, c))
  }

  /** Scores of query `q` against all keys, without a mask. */
  function OpenScores(m: Gpt2, q: Row, ks: seq<Row>): nat -> seq<Score> {
    (h: nat) => seq(|ks|, j requires 0 <= j < |ks| => HeadScore(m, h, q, ks[j]))
  }

  /** Entry (i, j) of the causal mask: key `j` is hidden from query `i`. */
  predicate CausalMask(i: nat, j: nat) { j > i }

  /** Scores of the query at position `i` against all keys, masked causally. */
  function MaskedScores(m: Gpt2, i: nat, q: Row, ks: seq<Row>): nat -> seq<Score> {
    (h: nat) => seq(|ks|, j requires 0 <= j < |ks| => if CausalMask(i, j) then Hidden else HeadScore(m, h, q, ks[j]))
  }

  /** Attention as decoding does it: one query, every key visible. */
  function OpenAttention(m: Gpt2, q: Row, ks: seq<Row>, vs: seq<Row>): Row
    requires |ks| == |vs|
  {
    ContextRow(m, OpenScores(m, q, ks), vs)
  }

  /** Attention as prefill does it: the query of position `i` against every key under the mask. */
  function MaskedAttention(m: Gpt2, i: nat, q: Row, ks: seq<Row>, vs: seq<Row>): Row
    requires |ks| == |vs|
  {
    ContextRow(m, MaskedScores(m, i, q, ks), vs)
  }

  /** The rest of a block once the context row is known: projection and both residual additions. */
  function AfterAttention(b: Block, x: Row, context: Row): Row {
    var y := Add(b.proj(context), x);
    Add(b.mlp(b.ln2(y)), y)
  }

  // ----- The full causal forward pass -----

  function EmbedAt(m: Gpt2, token: Token, position: nat): Row { Add(m.wte(token), m.wpe(position)) }

  function Embed(m: Gpt2, tokens: seq<Token>): (r: seq<Row>)
    ensures |r| == |tokens|
  {
    seq(|tokens|, i requires 0 <= i < |tokens| => EmbedAt(m, tokens[i], i))
  }

  function Keys(b: Block, xs: seq<Row>): (r: seq<Row>)
    ensures |r| == |xs|
  {
    seq(|xs|, i requires 0 <= i < |xs| => b.attn(b.ln1(xs[i])).k)
  }

  function Values(b: Block, xs: seq<Row>): (r: seq<Row>)
    ensures |r| == |xs|
  {
    seq(|xs|, i requires 0 <= i < |xs| => b.attn(b.ln1(xs[i])).v)
  }

  function BlockRow(m: Gpt2, b: Block, xs: seq<Row>, i: nat): Row
    requires i < |xs|
  {
    AfterAttention(b, xs[i], MaskedAttention(m, i, b.attn(b.ln1(xs[i])).q, Keys(b, xs), Values(b, xs)))
  }

  function BlockRows(m: Gpt2, b: Block, xs: seq<Row>): (r: seq<Row>)
    ensures |r| == |xs|
  {
    seq(|xs|, i requires 0 <= i < |xs| => BlockRow(m, b, xs, i))
  }

  /** The hidden rows of all positions before layer `l`. */
  function HiddenRows(m: Gpt2, tokens: seq<Token>, l: nat): (r: seq<Row>)
    requires l <= |m.blocks|
    ensures |r| == |tokens|
  {
    if l == 0 then Embed(m, tokens) else BlockRows(m, m.blocks[l - 1], HiddenRows(m, tokens, l - 1))
  }

  /** The keys and values a full forward pass computes in layer `l`. */
  function FullKv(m: Gpt2, tokens: seq<Token>, l: nat): LayerKv
    requires l < |m.blocks|
  {
    var xs := HiddenRows(m, tokens, l);
    LayerKv(Keys(m.blocks[l], xs), Values(m.blocks[l], xs))
  }

  /** The logits after the last token, by recomputing the whole context. */
  function FullLogits(m: Gpt2, tokens: seq<Token>): Row
    requires tokens != []
  {
    m.unembed(m.lnF(HiddenRows(m, tokens, |m.blocks|)[|tokens| - 1]))
  }

  // ----- One cached decode row -----

  /** The cache of a layer with the row of a new position appended. */
  function Extend(past: LayerKv, qkv: Qkv): LayerKv { LayerKv(past.k + [qkv.k], past.v + [qkv.v]) }

  /** The hidden row of the new position before layer `l`, reading the cached rows of earlier layers. */
  function DecodeHidden(m: Gpt2, past: seq<LayerKv>, token: Token, position: nat, l: nat): Row
    requires l <= |m.blocks| == |past|
    requires forall j :: 0 <= j < |past| ==> |past[j].k| == |past[j].v|
  {
    if l == 0 then EmbedAt(m, token, position)
    else
      var b := m.blocks[l - 1];
      var x := DecodeHidden(m, past, token, position, l - 1);
      var qkv := b.attn(b.ln1(x));
      var total := Extend(past[l - 1], qkv);
      AfterAttention(b, x, OpenAttention(m, qkv.q, total.k, total.v))
  }

  function DecodeKv(m: Gpt2, past: seq<LayerKv>, token: Token, position: nat, l: nat): LayerKv
    requires l < |m.blocks| == |past|
    requires forall j :: 0 <= j < |past| ==> |past[j].k| == |past[j].v|
  {
    Extend(past[l], m.blocks[l].attn(m.blocks[l].ln1(DecodeHidden(m, past, token, position, l))))
  }

  function DecodeKvs(m: Gpt2, past: seq<LayerKv>, token: Token, position: nat): seq<LayerKv>
    requires |m.blocks| == |past|
    requires forall j :: 0 <= j < |past| ==> |past[j].k| == |past[j].v|
  {
    seq(|m.blocks|, l requires 0 <= l < |m.blocks| => DecodeKv(m, past, token, position, l))
  }

  function DecodeLogits(m: Gpt2, past: seq<LayerKv>, token: Token, position: nat): Row
    requires |m.blocks| == |past|
    requires forall j :: 0 <= j < |past| ==> |past[j].k| == |past[j].v|
  {
    m.unembed(m.lnF(DecodeHidden(m, past, token, position, |m.blocks|)))
  }

  // ----- Hidden keys add nothing -----

  lemma {:induction false} HiddenScoresAddNothing(m: Gpt2, short: seq<Score>, long: seq<Score>, total: real,
                                                  vs: seq<Row>, ws: seq<Row>, c: nat)
    requires |short| <= |long| <= |ws| && |short| <= |vs|
    requires short == long[..|short|]
    requires forall j :: |short| <= j < |long| ==> long[j].Hidden?
    requires forall j :: 0 <= j < |short| ==> vs[j] == ws[j]
    ensures WeightSum(m, long) == WeightSum(m, short)
    ensures Mix(m, long, total, ws, c) == Mix(m, short, total, vs, c)
    decreases |long|
  {
    if |short| < |long| {
      var n := |long| - 1;
      assert Share(m, long[n], total) == 0.0;
      HiddenScoresAddNothing(m, short, long[..n], total, vs, ws, c);
    } else if |long| > 0 {
      var n := |long| - 1;
      assert short == long;
      assert short[..n] == long[..n][..n];
      HiddenScoresAddNothing(m, short[..n], long[..n], total, vs, ws, c);
    }
  }

  /** A masked query sees only the keys up to its own position, so it equals an open query over those. */
  lemma MaskedIsOpenOnPrefix(m: Gpt2, i: nat, q: Row, ks: seq<Row>, vs: seq<Row>)
    requires i < |ks| == |vs|
    ensures MaskedAttention(m, i, q, ks, vs) == OpenAttention(m, q, ks[..i + 1], vs[..i + 1])
  {
    if m.headDim != 0 {
      forall c | 0 <= c < m.heads * m.headDim
        ensures MaskedAttention(m, i, q, ks, vs)[c] == OpenAttention(m, q, ks[..i + 1], vs[..i + 1])[c]
      {
        var h := c / m.headDim;
        var long, short := MaskedScores(m, i, q, ks)(h), OpenScores(m, q, ks[..i + 1])(h);
        assert short == long[..i + 1];
        HiddenScoresAddNothing(m, short, long, WeightSum(m, short), vs[..i + 1], vs, c);
      }
    }
  }

  // ----- Causality -----

  /** A block row depends only on the rows up to its own position. */
  lemma BlockRowIsCausal(m: Gpt2, b: Block, xs: seq<Row>, ys: seq<Row>, i: nat)
    requires i < |xs| && xs <= ys
    ensures BlockRow(m, b, xs, i) == BlockRow(m, b, ys, i)
  {
    assert xs[i] == ys[i];
    var q := b.attn(b.ln1(xs[i])).q;
    MaskedIsOpenOnPrefix(m, i, q, Keys(b, xs), Values(b, xs));
    MaskedIsOpenOnPrefix(m, i, q, Keys(b, ys), Values(b, ys));
    assert Keys(b, xs)[..i + 1] == Keys(b, ys)[..i + 1];
    assert Values(b, xs)[..i + 1] == Values(b, ys)[..i + 1];
  }

  /** Later tokens never change earlier hidden rows, in any layer. */
  lemma {:induction false} Causality(m: Gpt2, tokens: seq<Token>, more: seq<Token>, l: nat)
    requires l <= |m.blocks| && tokens <= more
    ensures HiddenRows(m, tokens, l) <= HiddenRows(m, more, l)
  {
    if l > 0 {
      Causality(m, tokens, more, l - 1);
      var b := m.blocks[l - 1];
      var xs, ys := HiddenRows(m, tokens, l - 1), HiddenRows(m, more, l - 1);
      forall i | 0 <= i < |tokens| ensures BlockRows(m, b, xs)[i] == BlockRows(m, b, ys)[i] {
        BlockRowIsCausal(m, b, xs, ys, i);
      }
    }
  }

  // ----- The cache agrees with full recomputation -----

  /** A full forward over one more token extends the cached rows of a layer by that token's row. */
  lemma OneMoreRow(m: Gpt2, tokens: seq<Token>, token: Token, l: nat)
    requires l < |m.blocks|
    ensures var b, xs := m.blocks[l], HiddenRows(m, tokens + [token], l);
            LayerKv(Keys(b, xs), Values(b, xs)) == Extend(FullKv(m, tokens, l), b.attn(b.ln1(xs[|tokens|])))
  {
    Causality(m, tokens, tokens + [token], l);
    var b, xs := m.blocks[l], HiddenRows(m, tokens + [token], l);
    var kv := Extend(FullKv(m, tokens, l), b.attn(b.ln1(xs[|tokens|])));
    assert kv.k == Keys(b, xs);
    assert kv.v == Values(b, xs);
  }

  lemma LastMaskedIsOpen(m: Gpt2, b: Block, xs: seq<Row>)
    requires xs != []
    ensures var x := xs[|xs| - 1];
            BlockRow(m, b, xs, |xs| - 1)
            == AfterAttention(b, x, OpenAttention(m, b.attn(b.ln1(x)).q, Keys(b, xs), Values(b, xs)))
  {
    var n := |xs| - 1;
    MaskedIsOpenOnPrefix(m, n, b.attn(b.ln1(xs[n])).q, Keys(b, xs), Values(b, xs));
    assert Keys(b, xs)[..n + 1] == Keys(b, xs) && Values(b, xs)[..n + 1] == Values(b, xs);
  }

  /** `past` holds, layer by layer, the rows of a full forward over `tokens`. */
  ghost predicate CachesFull(m: Gpt2, past: seq<LayerKv>, tokens: seq<Token>) {
    && |past| == |m.blocks|
    && (forall l :: 0 <= l < |past| ==> |past[l].k| == |past[l].v|)
    && (forall l :: 0 <= l < |past| ==> past[l] == FullKv(m, tokens, l))
  }

  /** One layer of a cached decode on the full cache is one layer of the full forward. */
  lemma DecodeLayerIsFull(m: Gpt2, past: seq<LayerKv>, tokens: seq<Token>, token: Token, l: nat)
    requires CachesFull(m, past, tokens) && l < |m.blocks|
    requires DecodeHidden(m, past, token, |tokens|, l) == HiddenRows(m, tokens + [token], l)[|tokens|]
    ensures DecodeHidden(m, past, token, |tokens|, l + 1) == HiddenRows(m, tokens + [token], l + 1)[|tokens|]
    ensures DecodeKv(m, past, token, |tokens|, l) == FullKv(m, tokens + [token], l)
  {
    OneMoreRow(m, tokens, token, l);
    LastMaskedIsOpen(m, m.blocks[l], HiddenRows(m, tokens + [token], l));
  }

  /** With the cache of a full forward over `tokens`, the new row is the last row of a full forward. */
  lemma {:induction false} DecodeHiddenIsFull(m: Gpt2, past: seq<LayerKv>, tokens: seq<Token>, token: Token, l: nat)
    requires CachesFull(m, past, tokens) && l <= |m.blocks|
    ensures DecodeHidden(m, past, token, |tokens|, l) == HiddenRows(m, tokens + [token], l)[|tokens|]
  {
    if l > 0 {
      DecodeHiddenIsFull(m, past, tokens, token, l - 1);
      DecodeLayerIsFull(m, past, tokens, token, l - 1);
    }
  }

  /** One cached decode step computes the logits of, and leaves the cache of, a full causal forward. */
  lemma CachedDecodeIsFullForward(m: Gpt2, past: seq<LayerKv>, tokens: seq<Token>, token: Token)
    requires CachesFull(m, past, tokens)
    ensures DecodeLogits(m, past, token, |tokens|) == FullLogits(m, tokens + [token])
    ensures CachesFull(m, DecodeKvs(m, past, token, |tokens|), tokens + [token])
  {
    DecodeHiddenIsFull(m, past, tokens, token, |m.blocks|);
    forall l | 0 <= l < |m.blocks|
      ensures DecodeKv(m, past, token, |tokens|, l) == FullKv(m, tokens + [token], l)
    {
      DecodeHiddenIsFull(m, past, tokens, token, l);
      DecodeLayerIsFull(m, past, tokens, token, l);
    }
  }

  /** Decode `suffix` one token at a time on top of a cache. */
  function DecodeAll(m: Gpt2, past: seq<LayerKv>, position: nat, suffix: seq<Token>): seq<LayerKv>
    requires |m.blocks| == |past|
    requires forall j :: 0 <= j < |past| ==> |past[j].k| == |past[j].v|
    decreases |suffix|
  {
    if suffix == [] then past
    else DecodeAll(m, DecodeKvs(m, past, suffix[0], position), position + 1, suffix[1..])
  }

  /** Prefilling any prefix and decoding the rest leaves, in every layer, the rows of one full forward. */
  lemma {:induction false} PrefillThenDecodeIsFull(m: Gpt2, past: seq<LayerKv>, prefix: seq<Token>, suffix: seq<Token>)
    requires CachesFull(m, past, prefix)
    ensures CachesFull(m, DecodeAll(m, past, |prefix|, suffix), prefix + suffix)
    decreases |suffix|
  {
    if suffix == [] {
      assert prefix + suffix == prefix;
    } else {
      CachedDecodeIsFullForward(m, past, prefix, suffix[0]);
      PrefillThenDecodeIsFull(m, DecodeKvs(m, past, suffix[0], |prefix|), prefix + [suffix[0]], suffix[1..]);
      assert prefix + [suffix[0]] + suffix[1..] == prefix + suffix;
    }
  }
}
