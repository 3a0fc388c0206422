/**
 The GPT-2 backend as it runs: prefill and batched decode write the slab cache
 layer by layer. Any tensor kernel may fail at any point.
 */
module Gpt2Backend {
  import opened Basics
  import opened Transformer
  import opened KvCache

  datatype ModelError = PromptTooLong | PositionTooLarge | Kernel | Cache(error: KvError)

  datatype DecodeInput = DecodeInput(seqId: Id, kvHandle: KvHandle, lastToken: Token, position: nat)

  /** How many kernels failed so far, and the requests they failed for. */
  datatype Faults = Faults(count: nat, hit: set<Id>)

  function Struck(f: Faults, failed: bool, ids: set<Id>): Faults {
    if failed then Faults(f.count + 1, f.hit + ids) else f
  }

  /** The tensor library: any kernel it is asked for may fail. */
  class Device {
    ghost var faults: Faults

    constructor ()
      ensures faults == Faults(0, {})
    {
      faults := Faults(0, {});
    }

    method Attempt(ghost ids: set<Id>) returns (ok: bool)
      modifies this
      ensures faults == Struck(old(faults), !ok, ids)
    {
      ok := *;
      faults := Struck(faults, !ok, ids);
    }
  }

  /** The cache was built from `kv_shape` of this model. */
  predicate Fits(m: Gpt2, s: Slab) {
    s.numLayers == |m.blocks| && s.nHeads == m.heads && s.headDim == m.headDim
  }

  /** Two cache states that differ at most in the rows stored for `slots`. */
  ghost predicate OnlyRowsDiffer(s: Slab, s': Slab, slots: set<nat>) {
    && s' == s.(layers := s'.layers)
    && s'.layers.Keys == s.layers.Keys
    && forall slot :: slot in s.layers && slot !in slots ==> Rows(s', slot) == Rows(s, slot)
  }

  lemma RowsBalanced(s: Slab, slot: nat)
    requires SlabOk(s) && slot in s.layers
    ensures |Rows(s, slot)| == s.numLayers
    ensures forall l :: 0 <= l < |Rows(s, slot)| ==> |Rows(s, slot)[l].k| == |Rows(s, slot)[l].v|
  {
    assert SlotOk(s, slot);
    forall l | 0 <= l < |Rows(s, slot)| ensures |Rows(s, slot)[l].k| == |Rows(s, slot)[l].v| {
      if s.layers[slot][l].Some? {
        assert PairFits(s, s.layers[slot][l].value, s.occupied[slot].capacityTokens);
      }
    }
  }

  lemma CurrentIsStored(s: Slab, h: KvHandle)
    requires SlabOk(s) && IsCurrent(s, h)
    ensures h.slot in s.layers && |s.layers[h.slot]| == s.numLayers == |Rows(s, h.slot)|
  {
    assert SlotOk(s, h.slot);
  }

  /** A successful write changes one layer of one slot. */
  lemma WriteChangesOneLayer(s: Slab, s': Slab, h: KvHandle, l: nat, k: Tensor, v: Tensor, slots: set<nat>)
    requires SlabOk(s') && OnlyRowsDiffer(s, s', slots) && h.slot in slots
    requires WriteError(s', h, l, k, v).None? && k.Consistent() && v.Consistent()
    ensures var s'' := SlabWrite(s', h, l, k, v);
            && SlabOk(s'') && OnlyRowsDiffer(s, s'', slots)
            && h.slot in s'.layers && l < |Rows(s', h.slot)|
            && Rows(s'', h.slot) == Rows(s', h.slot)[l := LayerKv(k.rows, v.rows)]
            && forall slot :: slot in s'.layers && slot != h.slot ==> Rows(s'', slot) == Rows(s', slot)
  {
    CurrentIsStored(s', h);
    WriteKeepsOk(s', h, l, k, v);
  }

  function RowTensor(m: Gpt2, rows: seq<Row>): (t: Tensor)
    ensures t.Consistent()
  {
    Tensor([m.heads, |rows|, m.headDim], rows)
  }

  /** The prompt tokens that prefill caches: all but the last. */
  function CachedPrompt(prompt: seq<Token>): seq<Token> { prompt[..SaturatingSub(|prompt|, 1)] }

  /** Prefill has cached the first `l` layers for `h`. */
  ghost predicate PrefilledTo(m: Gpt2, s: Slab, s': Slab, h: KvHandle, tokens: seq<Token>, l: nat) {
    && SlabOk(s') && OnlyRowsDiffer(s, s', {h.slot})
    && (Fits(m, s) && IsCurrent(s, h) ==>
          && h.slot in s'.layers
          && l <= |Rows(s', h.slot)| == |m.blocks|
          && forall j :: 0 <= j < l ==> Rows(s', h.slot)[j] == FullKv(m, tokens, j))
  }

  lemma PrefillStarts(m: Gpt2, s: Slab, h: KvHandle, tokens: seq<Token>)
    requires SlabOk(s)
    ensures PrefilledTo(m, s, s, h, tokens, 0)
  {
    if IsCurrent(s, h) {
      CurrentIsStored(s, h);
    }
  }

  lemma PrefillStep(m: Gpt2, s: Slab, s': Slab, h: KvHandle, tokens: seq<Token>, l: nat, keys: seq<Row>,
                    values: seq<Row>)
    requires l < |m.blocks| && PrefilledTo(m, s, s', h, tokens, l) && LayerKv(keys, values) == FullKv(m, tokens, l)
    ensures WriteError(s', h, l, RowTensor(m, keys), RowTensor(m, values)).None? ==>
              PrefilledTo(m, s, SlabWrite(s', h, l, RowTensor(m, keys), RowTensor(m, values)), h, tokens, l + 1)
    ensures Fits(m, s) && IsCurrent(s, h) && |tokens| <= h.capacityTokens ==>
              WriteError(s', h, l, RowTensor(m, keys), RowTensor(m, values)).None?
  {
    if WriteError(s', h, l, RowTensor(m, keys), RowTensor(m, values)).None? {
      WriteChangesOneLayer(s, s', h, l, RowTensor(m, keys), RowTensor(m, values), {h.slot});
    }
  }

  /** A prefill into fresh storage leaves the rows of a full forward over `tokens`. */
  ghost predicate PrefillResult(m: Gpt2, s: Slab, s': Slab, h: KvHandle, tokens: seq<Token>) {
    Fits(m, s) && IsCurrent(s, h) && h.slot in s.layers && Rows(s, h.slot) == seq(s.numLayers, _ => LayerKv([], [])) ==>
      h.slot in s'.layers && CachesFull(m, Rows(s', h.slot), tokens)
  }

  lemma PrefillSays(m: Gpt2, s: Slab, h: KvHandle, tokens: seq<Token>)
    requires SlabOk(s)
    ensures OnlyRowsDiffer(s, s, {h.slot})
    ensures tokens == [] ==> PrefillResult(m, s, s, h, tokens)
    ensures forall s' :: PrefilledTo(m, s, s', h, tokens, |m.blocks|) ==> PrefillResult(m, s, s', h, tokens)
    ensures forall s', l :: PrefilledTo(m, s, s', h, tokens, l) ==> SlabOk(s') && OnlyRowsDiffer(s, s', {h.slot})
  {
    if tokens == [] && h.slot in s.layers && Rows(s, h.slot) == seq(|m.blocks|, _ => LayerKv([], [])) {
      NothingCached(m, Rows(s, h.slot));
    }
  }

  method Prefill(m: Gpt2, prompt: seq<Token>, handle: KvHandle, cache: SlabKvCache, device: Device, ghost id: Id)
    returns (error: Option<ModelError>)
    requires cache.Valid()
    modifies cache, device
    ensures cache.Valid() && OnlyRowsDiffer(old(cache.View()), cache.View(), {handle.slot})
    ensures error.None? ==> PrefillResult(m, old(cache.View()), cache.View(), handle, CachedPrompt(prompt))
    ensures var s := old(cache.View());
            Fits(m, s) && IsCurrent(s, handle) && |prompt| <= m.maxPositions && |prompt| <= handle.capacityTokens ==>
              error in {None, Some(Kernel)}
    ensures device.faults == Struck(old(device.faults), error == Some(Kernel), {id})
    ensures error == Some(PromptTooLong) <==> |prompt| > m.maxPositions
  {
    if |prompt| > m.maxPositions {
      return Some(PromptTooLong);
    }
    ghost var s := cache.View();
    var cachedLen := SaturatingSub(|prompt|, 1);
    var tokens := prompt[..cachedLen];
    PrefillStarts(m, s, handle, tokens);
    PrefillSays(m, s, handle, tokens);
    if cachedLen == 0 {
      return None;
    }
    var xs := Embed(m, tokens);
    for l := 0 to |m.blocks|
      invariant xs == HiddenRows(m, tokens, l)
      invariant PrefilledTo(m, s, cache.View(), handle, tokens, l)
      invariant device.faults == old(device.faults)
    {
      xs, error := PrefillLayer(m, l, xs, handle, cache, device, s, tokens, id);
      if error.Some? {
        return error;
      }
    }
    var ok := device.Attempt({id});
    return if ok then None else Some(Kernel);
  }

  method PrefillLayer(m: Gpt2, l: nat, xs: seq<Row>, handle: KvHandle, cache: SlabKvCache, device: Device,
                      ghost s: Slab, ghost tokens: seq<Token>, ghost id: Id)
    returns (xs': seq<Row>, error: Option<ModelError>)
    requires l < |m.blocks| && xs == HiddenRows(m, tokens, l) && PrefilledTo(m, s, cache.View(), handle, tokens, l)
    modifies cache, device
    ensures error.None? ==> xs' == HiddenRows(m, tokens, l + 1)
    ensures PrefilledTo(m, s, cache.View(), handle, tokens, if error.None? then l + 1 else l)
    ensures Fits(m, s) && IsCurrent(s, handle) && |tokens| <= handle.capacityTokens ==> error in {None, Some(Kernel)}
    ensures device.faults == Struck(old(device.faults), error == Some(Kernel), {id})
    ensures error != Some(PromptTooLong)
  {
    var ok := device.Attempt({id});
    if !ok {
      return xs, Some(Kernel);
    }
    var b := m.blocks[l];
    var keys, values := Keys(b, xs), Values(b, xs);
    PrefillStep(m, s, cache.View(), handle, tokens, l, keys, values);
    var failed := cache.Write(handle, l, RowTensor(m, keys), RowTensor(m, values));
    if failed.Some? {
      return xs, Some(Cache(failed.value));
    }
    return BlockRows(m, b, xs), None;
  }

  lemma NothingCached(m: Gpt2, past: seq<LayerKv>)
    requires past == seq(|m.blocks|, _ => LayerKv([], []))
    ensures CachesFull(m, past, [])
  {
  }

  ghost predicate DistinctSlots(batch: seq<DecodeInput>) {
    forall i, j :: 0 <= i < j < |batch| ==> batch[i].kvHandle.slot != batch[j].kvHandle.slot
  }

  /** The cache belongs to this model, and every row of the batch has a slot of its own. */
  ghost predicate Servable(m: Gpt2, s: Slab, batch: seq<DecodeInput>) {
    Fits(m, s) && AllCurrent(s, batch) && DistinctSlots(batch)
  }

  function Ids(batch: seq<DecodeInput>): set<Id> { set i | 0 <= i < |batch| :: batch[i].seqId }

  ghost function Slots(batch: seq<DecodeInput>): set<nat> {
    set i | 0 <= i < |batch| :: batch[i].kvHandle.slot
  }

  ghost predicate AllCurrent(s: Slab, batch: seq<DecodeInput>) {
    forall i :: 0 <= i < |batch| ==> IsCurrent(s, batch[i].kvHandle)
  }

  /** The model knows the row's position and its slot has room for one more cached token. */
  ghost predicate RowHasHeadroom(m: Gpt2, s: Slab, input: DecodeInput) {
    && input.position < m.maxPositions
    && input.kvHandle.slot in s.layers
    && forall l :: 0 <= l < |Rows(s, input.kvHandle.slot)| ==>
         |Rows(s, input.kvHandle.slot)[l].k| < input.kvHandle.capacityTokens
  }

  ghost predicate HasHeadroom(m: Gpt2, s: Slab, batch: seq<DecodeInput>) {
    forall i :: 0 <= i < |batch| ==> RowHasHeadroom(m, s, batch[i])
  }

  /** The rows of one sequence after the first `n` layers of a decode step. */
  ghost function Partial(m: Gpt2, past: seq<LayerKv>, input: DecodeInput, n: nat): seq<LayerKv>
    requires |m.blocks| == |past|
    requires forall j :: 0 <= j < |past| ==> |past[j].k| == |past[j].v|
  {
    seq(|past|, l requires 0 <= l < |past| =>
      if l < n then DecodeKv(m, past, input.lastToken, input.position, l) else past[l])
  }

  /** One row of a decode step: its logits, and the rows left cached, given the rows cached before. */
  ghost predicate RowDecoded(m: Gpt2, s: Slab, s': Slab, input: DecodeInput, logits: Row)
    requires SlabOk(s) && Fits(m, s) && IsCurrent(s, input.kvHandle) && input.kvHandle.slot in s'.layers
  {
    var past := Rows(s, input.kvHandle.slot);
    RowsBalanced(s, input.kvHandle.slot);
    && logits == DecodeLogits(m, past, input.lastToken, input.position)
    && Rows(s', input.kvHandle.slot) == DecodeKvs(m, past, input.lastToken, input.position)
  }

  ghost predicate RowwiseDecoded(m: Gpt2, s: Slab, s': Slab, batch: seq<DecodeInput>, logits: seq<Row>)
    requires SlabOk(s) && Fits(m, s) && AllCurrent(s, batch) && s'.layers.Keys == s.layers.Keys
  {
    |logits| == |batch| && forall i :: 0 <= i < |batch| ==> RowDecoded(m, s, s', batch[i], logits[i])
  }

  /** The rows cached for one sequence after the first `n` layers of a decode step. */
  ghost predicate RowPartial(m: Gpt2, s: Slab, s': Slab, input: DecodeInput, n: nat)
    requires SlabOk(s) && Fits(m, s) && IsCurrent(s, input.kvHandle) && input.kvHandle.slot in s'.layers
  {
    RowsBalanced(s, input.kvHandle.slot);
    Rows(s', input.kvHandle.slot) == Partial(m, Rows(s, input.kvHandle.slot), input, n)
  }

  /** How many layers row `i` has passed when the first `done` rows of the batch have left layer `l`. */
  function LayerOf(i: nat, done: nat, l: nat): nat { if i < done then l + 1 else l }

  /** During layer `l`: the first `done` rows of the batch have this layer's new row cached. */
  ghost predicate MidLayer(m: Gpt2, s: Slab, s': Slab, batch: seq<DecodeInput>, l: nat, done: nat)
    requires SlabOk(s) && Fits(m, s) && AllCurrent(s, batch) && s'.layers.Keys == s.layers.Keys
  {
    forall i :: 0 <= i < |batch| ==> RowPartial(m, s, s', batch[i], LayerOf(i, done, l))
  }

  /** The hidden row of batch row `i` before layer `l`. */
  ghost function HiddenOf(m: Gpt2, s: Slab, input: DecodeInput, l: nat): Row
    requires SlabOk(s) && Fits(m, s) && IsCurrent(s, input.kvHandle) && l <= |m.blocks|
  {
    RowsBalanced(s, input.kvHandle.slot);
    DecodeHidden(m, Rows(s, input.kvHandle.slot), input.lastToken, input.position, l)
  }

  /** The rows of layer `l` for batch row `i` with its new row appended. */
  ghost function NewKv(m: Gpt2, s: Slab, input: DecodeInput, l: nat): LayerKv
    requires SlabOk(s) && Fits(m, s) && IsCurrent(s, input.kvHandle) && l < |m.blocks|
  {
    RowsBalanced(s, input.kvHandle.slot);
    DecodeKv(m, Rows(s, input.kvHandle.slot), input.lastToken, input.position, l)
  }

  /** State of a decode step in layer `l` after `done` rows: `xs` are still the rows entering the layer. */
  ghost predicate DecodedTo(m: Gpt2, s: Slab, s': Slab, batch: seq<DecodeInput>, l: nat, done: nat) {
    && SlabOk(s) && SlabOk(s') && OnlyRowsDiffer(s, s', Slots(batch))
    && (Servable(m, s, batch) ==> MidLayer(m, s, s', batch, l, done))
  }

  /** Rows before `done` have left layer `l`, the others are about to enter it. */
  ghost predicate RowsAt(m: Gpt2, s: Slab, batch: seq<DecodeInput>, xs: seq<Row>, l: nat, done: nat) {
    && SlabOk(s) && |xs| == |batch|
    && (Servable(m, s, batch) ==>
          forall i :: 0 <= i < |batch| ==>
            LayerOf(i, done, l) <= |m.blocks| && xs[i] == HiddenOf(m, s, batch[i], LayerOf(i, done, l)))
  }

  lemma DecodeStarts(m: Gpt2, s: Slab, batch: seq<DecodeInput>)
    requires SlabOk(s)
    ensures DecodedTo(m, s, s, batch, 0, 0)
  {
    if Servable(m, s, batch) {
      forall i | 0 <= i < |batch| ensures RowPartial(m, s, s, batch[i], LayerOf(i, 0, 0)) {
        RowsBalanced(s, batch[i].kvHandle.slot);
      }
    }
  }

  lemma NextLayer(m: Gpt2, s: Slab, s': Slab, batch: seq<DecodeInput>, xs: seq<Row>, l: nat)
    requires DecodedTo(m, s, s', batch, l, |batch|) && RowsAt(m, s, batch, xs, l, |batch|)
    ensures DecodedTo(m, s, s', batch, l + 1, 0) && RowsAt(m, s, batch, xs, l + 1, 0)
  {
    if Servable(m, s, batch) {
      forall i | 0 <= i < |batch| ensures RowPartial(m, s, s', batch[i], LayerOf(i, 0, l + 1)) {
        assert RowPartial(m, s, s', batch[i], LayerOf(i, |batch|, l));
      }
      forall i | 0 <= i < |batch|
        ensures LayerOf(i, 0, l + 1) <= |m.blocks| && xs[i] == HiddenOf(m, s, batch[i], LayerOf(i, 0, l + 1))
      {
        assert LayerOf(i, |batch|, l) == LayerOf(i, 0, l + 1);
      }
    }
  }

  lemma RowLeavesLayer(m: Gpt2, s: Slab, batch: seq<DecodeInput>, xs: seq<Row>, l: nat, row: nat, x: Row)
    requires RowsAt(m, s, batch, xs, l, row) && row < |batch| && l < |m.blocks|
    requires Servable(m, s, batch) ==> x == HiddenOf(m, s, batch[row], l + 1)
    ensures RowsAt(m, s, batch, xs[row := x], l, row + 1)
  {
    if Servable(m, s, batch) {
      forall i | 0 <= i < |batch| ensures xs[row := x][i] == HiddenOf(m, s, batch[i], LayerOf(i, row + 1, l)) {
        assert LayerOf(i, row, l) <= |m.blocks| && xs[i] == HiddenOf(m, s, batch[i], LayerOf(i, row, l));
      }
    }
  }

  /** Caching the new row of one sequence in one layer. */
  lemma DecodeRowStep(m: Gpt2, s: Slab, s': Slab, batch: seq<DecodeInput>, l: nat, row: nat, x: Row)
    requires DecodedTo(m, s, s', batch, l, row) && row < |batch| && l < |m.blocks|
    requires IsCurrent(s', batch[row].kvHandle) && l < s'.numLayers
    requires Servable(m, s, batch) ==> x == HiddenOf(m, s, batch[row], l)
    ensures var h := batch[row].kvHandle;
            var past := StoredPair(s', h.slot, l);
            var qkv := m.blocks[l].attn(m.blocks[l].ln1(x));
            var kTotal, vTotal := past.k.rows + [qkv.k], past.v.rows + [qkv.v];
            && |kTotal| == |vTotal|
            && (WriteError(s', h, l, RowTensor(m, kTotal), RowTensor(m, vTotal)).None? ==>
                  DecodedTo(m, s, SlabWrite(s', h, l, RowTensor(m, kTotal), RowTensor(m, vTotal)), batch, l, row + 1))
            && (Servable(m, s, batch) ==>
                  AfterAttention(m.blocks[l], x, OpenAttention(m, qkv.q, kTotal, vTotal))
                  == HiddenOf(m, s, batch[row], l + 1))
            && (Servable(m, s, batch) && HasHeadroom(m, s, batch) ==>
                  WriteError(s', h, l, RowTensor(m, kTotal), RowTensor(m, vTotal)).None?)
  {
    var h := batch[row].kvHandle;
    CurrentIsStored(s', h);
    RowsBalanced(s', h.slot);
    var past := StoredPair(s', h.slot, l);
    var qkv := m.blocks[l].attn(m.blocks[l].ln1(x));
    var kTotal, vTotal := past.k.rows + [qkv.k], past.v.rows + [qkv.v];
    assert LayerKv(past.k.rows, past.v.rows) == Rows(s', h.slot)[l];
    if Servable(m, s, batch) {
      RowsBalanced(s, h.slot);
      assert RowPartial(m, s, s', batch[row], LayerOf(row, row, l));
      assert Rows(s', h.slot)[l] == Rows(s, h.slot)[l];
      assert LayerKv(kTotal, vTotal) == NewKv(m, s, batch[row], l);
    }
    if WriteError(s', h, l, RowTensor(m, kTotal), RowTensor(m, vTotal)).None? {
      WriteChangesOneLayer(s, s', h, l, RowTensor(m, kTotal), RowTensor(m, vTotal), Slots(batch));
      if Servable(m, s, batch) {
        MidLayerStep(m, s, s', SlabWrite(s', h, l, RowTensor(m, kTotal), RowTensor(m, vTotal)), batch, l, row);
      }
    }
  }

  lemma MidLayerStep(m: Gpt2, s: Slab, s': Slab, s'': Slab, batch: seq<DecodeInput>, l: nat, row: nat)
    requires SlabOk(s) && Servable(m, s, batch) && s''.layers.Keys == s'.layers.Keys == s.layers.Keys
    requires MidLayer(m, s, s', batch, l, row) && row < |batch| && l < |m.blocks|
    requires var slot := batch[row].kvHandle.slot;
             l < |Rows(s', slot)| && Rows(s'', slot) == Rows(s', slot)[l := NewKv(m, s, batch[row], l)]
    requires forall slot :: slot in s'.layers && slot != batch[row].kvHandle.slot ==> Rows(s'', slot) == Rows(s', slot)
    ensures MidLayer(m, s, s'', batch, l, row + 1)
  {
    forall i | 0 <= i < |batch| ensures RowPartial(m, s, s'', batch[i], LayerOf(i, row + 1, l)) {
      assert RowPartial(m, s, s', batch[i], LayerOf(i, row, l));
      RowsBalanced(s, batch[i].kvHandle.slot);
      if i != row {
        assert batch[i].kvHandle.slot != batch[row].kvHandle.slot;
      }
    }
  }

  function EmbedBatch(m: Gpt2, batch: seq<DecodeInput>): seq<Row> {
    seq(|batch|, i requires 0 <= i < |batch| => EmbedAt(m, batch[i].lastToken, batch[i].position))
  }

  function UnembedRows(m: Gpt2, xs: seq<Row>): seq<Row> {
    seq(|xs|, i requires 0 <= i < |xs| => m.unembed(m.lnF(xs[i])))
  }

  lemma EmbeddedRows(m: Gpt2, s: Slab, batch: seq<DecodeInput>)
    requires SlabOk(s)
    ensures RowsAt(m, s, batch, EmbedBatch(m, batch), 0, 0)
  {
  }

  /** With a fitting cache, current handles and room to spare, only a kernel failure stops a decode step. */
  ghost predicate ForwardResult(m: Gpt2, s: Slab, s': Slab, batch: seq<DecodeInput>, r: Result<seq<Row>, ModelError>) {
    && SlabOk(s) && OnlyRowsDiffer(s, s', Slots(batch))
    && (Servable(m, s, batch) ==>
          && (r.Ok? ==> RowwiseDecoded(m, s, s', batch, r.value))
          && (HasHeadroom(m, s, batch) ==> r.Ok? || r.error == Kernel))
  }

  /** One decode step for the whole batch: layer by layer, and within a layer row by row. */
  method Forward(m: Gpt2, batch: seq<DecodeInput>, cache: SlabKvCache, device: Device)
    returns (r: Result<seq<Row>, ModelError>)
    requires cache.Valid()
    modifies cache, device
    ensures cache.Valid() && ForwardResult(m, old(cache.View()), cache.View(), batch, r)
    ensures device.faults == Struck(old(device.faults), r == Err(Kernel), Ids(batch))
    ensures r.Ok? ==> forall i :: 0 <= i < |batch| ==> batch[i].position < m.maxPositions
  {
    if exists i :: 0 <= i < |batch| && batch[i].position >= m.maxPositions {
      return Err(PositionTooLarge);
    }
    if batch == [] {
      return Ok([]);
    }
    r := ForwardLayers(m, batch, cache, device);
  }

  method ForwardLayers(m: Gpt2, batch: seq<DecodeInput>, cache: SlabKvCache, device: Device)
    returns (r: Result<seq<Row>, ModelError>)
    requires cache.Valid()
    modifies cache, device
    ensures cache.Valid() && ForwardResult(m, old(cache.View()), cache.View(), batch, r)
    ensures device.faults == Struck(old(device.faults), r == Err(Kernel), Ids(batch))
  {
    hide DecodedTo, RowsAt, ForwardResult, SlabOk;
    ghost var s := cache.View();
    DecodeStarts(m, s, batch);
    var xs := EmbedBatch(m, batch);
    EmbeddedRows(m, s, batch);
    for l := 0 to |m.blocks|
      invariant DecodedTo(m, s, cache.View(), batch, l, 0) && RowsAt(m, s, batch, xs, l, 0)
      invariant device.faults == old(device.faults)
    {
      var error;
      xs, error := DecodeLayer(m, l, batch, xs, cache, device, s);
      if error.Some? {
        return Err(error.value);
      }
    }
    var ok := device.Attempt(Ids(batch));
    if !ok {
      StoppedAt(m, s, cache.View(), batch, |m.blocks|, 0, Kernel);
      return Err(Kernel);
    }
    DecodeEnds(m, s, cache.View(), batch, xs);
    return Ok(UnembedRows(m, xs));
  }

  lemma DecodeEnds(m: Gpt2, s: Slab, s': Slab, batch: seq<DecodeInput>, xs: seq<Row>)
    requires DecodedTo(m, s, s', batch, |m.blocks|, 0) && RowsAt(m, s, batch, xs, |m.blocks|, 0)
    ensures SlabOk(s') && ForwardResult(m, s, s', batch, Ok(UnembedRows(m, xs)))
  {
    if !(Servable(m, s, batch)) {
      return;
    }
    forall i | 0 <= i < |batch| ensures RowDecoded(m, s, s', batch[i], UnembedRows(m, xs)[i]) {
      assert RowPartial(m, s, s', batch[i], LayerOf(i, 0, |m.blocks|));
      RowsBalanced(s, batch[i].kvHandle.slot);
      PartialIsDecoded(m, Rows(s, batch[i].kvHandle.slot), batch[i]);
    }
  }

  lemma PartialIsDecoded(m: Gpt2, past: seq<LayerKv>, input: DecodeInput)
    requires |m.blocks| == |past|
    requires forall j :: 0 <= j < |past| ==> |past[j].k| == |past[j].v|
    ensures Partial(m, past, input, |m.blocks|) == DecodeKvs(m, past, input.lastToken, input.position)
  {
  }

  lemma RowEnters(m: Gpt2, s: Slab, batch: seq<DecodeInput>, xs: seq<Row>, l: nat, row: nat)
    requires RowsAt(m, s, batch, xs, l, row) && l <= |m.blocks|
    ensures |xs| == |batch|
    ensures SlabOk(s)
    ensures Servable(m, s, batch) && row < |batch| ==> xs[row] == HiddenOf(m, s, batch[row], l)
  {
    assert LayerOf(row, row, l) == l;
  }

  lemma StoppedAt(m: Gpt2, s: Slab, s': Slab, batch: seq<DecodeInput>, l: nat, row: nat, error: ModelError)
    requires DecodedTo(m, s, s', batch, l, row)
    requires Servable(m, s, batch) && HasHeadroom(m, s, batch) ==> error == Kernel
    ensures SlabOk(s') && ForwardResult(m, s, s', batch, Err(error))
  {
  }

  method DecodeLayer(m: Gpt2, l: nat, batch: seq<DecodeInput>, xs: seq<Row>, cache: SlabKvCache, device: Device,
                     ghost s: Slab)
    returns (xs': seq<Row>, error: Option<ModelError>)
    requires l < |m.blocks|
    requires DecodedTo(m, s, cache.View(), batch, l, 0) && RowsAt(m, s, batch, xs, l, 0)
    modifies cache, device
    ensures error.None? ==> DecodedTo(m, s, cache.View(), batch, l + 1, 0) && RowsAt(m, s, batch, xs', l + 1, 0)
    ensures error.Some? ==> cache.Valid() && ForwardResult(m, s, cache.View(), batch, Err(error.value))
    ensures device.faults == Struck(old(device.faults), error == Some(Kernel), Ids(batch))
  {
    hide DecodedTo, RowsAt, ForwardResult, SlabOk, HasHeadroom;
    RowEnters(m, s, batch, xs, l, 0);
    xs', error := xs, None;
    for row := 0 to |batch|
      invariant |xs'| == |batch|
      invariant DecodedTo(m, s, cache.View(), batch, l, row) && RowsAt(m, s, batch, xs', l, row)
      invariant error.None? && device.faults == old(device.faults)
    {
      RowEnters(m, s, batch, xs', l, row);
      var x;
      x, error := DecodeRow(m, l, row, batch, xs'[row], cache, device, s);
      if error.Some? {
        StoppedAt(m, s, cache.View(), batch, l, row, error.value);
        return xs', error;
      }
      RowLeavesLayer(m, s, batch, xs', l, row, x);
      xs' := xs'[row := x];
    }
    NextLayer(m, s, cache.View(), batch, xs', l);
  }

  /** Attention of one row: read the past keys and values, append the new ones, write them back, attend. */
  method DecodeRow(m: Gpt2, l: nat, row: nat, batch: seq<DecodeInput>, x: Row, cache: SlabKvCache, device: Device,
                   ghost s: Slab)
    returns (x': Row, error: Option<ModelError>)
    requires l < |m.blocks| && row < |batch| && DecodedTo(m, s, cache.View(), batch, l, row)
    requires Servable(m, s, batch) ==> x == HiddenOf(m, s, batch[row], l)
    modifies cache, device
    ensures DecodedTo(m, s, cache.View(), batch, l, if error.None? then row + 1 else row)
    ensures Servable(m, s, batch) && error.None? ==> x' == HiddenOf(m, s, batch[row], l + 1)
    ensures Servable(m, s, batch) && HasHeadroom(m, s, batch) ==> error in {None, Some(Kernel)}
    ensures device.faults == Struck(old(device.faults), error == Some(Kernel), Ids(batch))
  {
    var ok := device.Attempt(Ids(batch));
    if !ok {
      return x, Some(Kernel);
    }
    var b := m.blocks[l];
    var handle := batch[row].kvHandle;
    var qkv := b.attn(b.ln1(x));
    var past := cache.Read(handle, l);
    if past.Err? {
      return x, Some(Cache(past.error));
    }
    DecodeRowStep(m, s, cache.View(), batch, l, row, x);
    var kTotal := past.value.k.rows + [qkv.k];
    var vTotal := past.value.v.rows + [qkv.v];
    var failed := cache.Write(handle, l, RowTensor(m, kTotal), RowTensor(m, vTotal));
    if failed.Some? {
      return x, Some(Cache(failed.value));
    }
    return AfterAttention(b, x, OpenAttention(m, qkv.q, kTotal, vTotal)), None;
  }
}
