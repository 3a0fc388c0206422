/**
 The slab of key/value storage: a fixed number of slots handed out under
 generation-stamped handles.
 */
module KvCache {
  import opened Basics
  import opened Transformer

  /** The number of distinct `u64` generation stamps. */
  const GENERATIONS: nat := 0x1_0000_0000_0000_0000

  datatype KvHandle = KvHandle(slot: nat, capacityTokens: nat, generation: nat)

  /** A tensor of dimensions `dims`; for rank three, `rows` are its slices along the token axis. */
  datatype Tensor = Tensor(dims: seq<nat>, rows: seq<Row>) {
    predicate Consistent() { |dims| == 3 ==> |rows| == dims[1] }
  }

  datatype KvPair = KvPair(k: Tensor, v: Tensor)

  datatype KvError =
    | NoRoom
    | StaleHandle
    | LayerOutOfRange
    | BadRank
    | ShapeMismatch
    | HeadMismatch
    | HeadDimMismatch
    | CapacityExceeded

  /** The state of the cache as a value; `issued` records every handle ever returned, slot by slot. */
  datatype Slab = Slab(
    maxSeqs: nat,
    maxSeqLen: nat,
    numLayers: nat,
    nHeads: nat,
    headDim: nat,
    free: seq<nat>,
    occupied: map<nat, KvHandle>,
    generations: seq<nat>,
    layers: map<nat, seq<Option<KvPair>>>,
    issued: seq<seq<KvHandle>>)

  predicate HasRoom(s: Slab, promptLen: nat, maxNew: nat) {
    CheckedAdd(promptLen, maxNew).Some? && promptLen + maxNew <= s.maxSeqLen && s.free != []
  }

  predicate IsCurrent(s: Slab, h: KvHandle) { h.slot in s.occupied && s.occupied[h.slot] == h }

  function NewHandle(s: Slab, promptLen: nat, maxNew: nat): KvHandle
    requires s.free != [] && s.free[0] < |s.generations|
  {
    KvHandle(s.free[0], promptLen + maxNew, (s.generations[s.free[0]] + 1) % GENERATIONS)
  }

  function SlabAllocate(s: Slab, promptLen: nat, maxNew: nat): Slab
    requires s.free != [] && s.free[0] < |s.generations| == |s.issued|
  {
    var h := NewHandle(s, promptLen, maxNew);
    s.(free := s.free[1..],
       occupied := s.occupied[h.slot := h],
       generations := s.generations[h.slot := h.generation],
       layers := s.layers[h.slot := seq(s.numLayers, _ => None)],
       issued := s.issued[h.slot := s.issued[h.slot] + [h]])
  }

  function SlabFree(s: Slab, h: KvHandle): Slab {
    if IsCurrent(s, h) then
      s.(free := s.free + [h.slot], occupied := s.occupied - {h.slot}, layers := s.layers - {h.slot})
    else s
  }

  /** The first check a write fails, in the order of the checks. */
  function WriteError(s: Slab, h: KvHandle, layer: nat, k: Tensor, v: Tensor): Option<KvError> {
    if !IsCurrent(s, h) then Some(StaleHandle)
    else if layer >= s.numLayers then Some(LayerOutOfRange)
    else if |k.dims| != 3 || |v.dims| != 3 then Some(BadRank)
    else if k.dims != v.dims then Some(ShapeMismatch)
    else if k.dims[0] != s.nHeads then Some(HeadMismatch)
    else if k.dims[2] != s.headDim then Some(HeadDimMismatch)
    else if k.dims[1] > h.capacityTokens then Some(CapacityExceeded)
    else None
  }

  predicate HasLayer(s: Slab, slot: nat, layer: nat) { slot in s.layers && layer < |s.layers[slot]| }

  function SlabWrite(s: Slab, h: KvHandle, layer: nat, k: Tensor, v: Tensor): Slab {
    if HasLayer(s, h.slot, layer) then
      s.(layers := s.layers[h.slot := s.layers[h.slot][layer := Some(KvPair(k, v))]])
    else s
  }

  function EmptyPair(s: Slab): KvPair {
    KvPair(Tensor([s.nHeads, 0, s.headDim], []), Tensor([s.nHeads, 0, s.headDim], []))
  }

  function StoredPair(s: Slab, slot: nat, layer: nat): KvPair {
    if HasLayer(s, slot, layer) && s.layers[slot][layer].Some? then s.layers[slot][layer].value else EmptyPair(s)
  }

  /** The cached rows of one slot, layer by layer. */
  function Rows(s: Slab, slot: nat): seq<LayerKv>
    requires slot in s.layers
  {
    seq(|s.layers[slot]|, l requires 0 <= l < |s.layers[slot]| =>
      LayerKv(StoredPair(s, slot, l).k.rows, StoredPair(s, slot, l).v.rows))
  }

  predicate PairFits(s: Slab, pair: KvPair, capacity: nat) {
    && pair.k.dims == pair.v.dims == [s.nHeads, |pair.k.rows|, s.headDim]
    && |pair.k.rows| == |pair.v.rows| <= capacity
  }

  // ----- The invariant -----

  predicate NoRepeats(xs: seq<nat>) { forall i, j :: 0 <= i < j < |xs| ==> xs[i] != xs[j] }

  /** The stamp of the c-th handle of a slot is c modulo 2^64. */
  ghost predicate StampsInOrder(s: Slab, slot: nat)
    requires slot < |s.generations| == |s.issued|
  {
    && s.generations[slot] == |s.issued[slot]| % GENERATIONS
    && forall c :: 0 <= c < |s.issued[slot]| ==>
         s.issued[slot][c].slot == slot && s.issued[slot][c].generation == (c + 1) % GENERATIONS
  }

  /** An occupied slot holds its newest handle and, per layer, only tensors that fit. */
  ghost predicate StorageFits(s: Slab, slot: nat)
    requires slot < |s.issued| && slot in s.occupied && slot in s.layers
  {
    && s.issued[slot] != [] && s.occupied[slot] == s.issued[slot][|s.issued[slot]| - 1]
    && |s.layers[slot]| == s.numLayers
    && forall l :: 0 <= l < |s.layers[slot]| && s.layers[slot][l].Some? ==>
         PairFits(s, s.layers[slot][l].value, s.occupied[slot].capacityTokens)
  }

  /** Every slot is either free or occupied, and nothing else is either. */
  ghost predicate SlotOk(s: Slab, slot: nat)
    requires |s.generations| == s.maxSeqs == |s.issued| && s.layers.Keys == s.occupied.Keys
  {
    if slot < s.maxSeqs then
      && (slot in s.free <==> slot !in s.occupied)
      && StampsInOrder(s, slot)
      && (slot in s.occupied ==> StorageFits(s, slot))
    else slot !in s.free && slot !in s.occupied
  }

  ghost predicate SlabOk(s: Slab) {
    && |s.generations| == s.maxSeqs == |s.issued|
    && s.layers.Keys == s.occupied.Keys
    && NoRepeats(s.free)
    && forall slot: nat :: SlotOk(s, slot)
  }

  function InitialSlab(maxSeqs: nat, maxSeqLen: nat, numLayers: nat, nHeads: nat, headDim: nat): Slab {
    Slab(maxSeqs, maxSeqLen, numLayers, nHeads, headDim,
         seq(maxSeqs, i requires 0 <= i => i), map[], seq(maxSeqs, _ => 0), map[], seq(maxSeqs, _ => []))
  }

  lemma InitialSlabOk(maxSeqs: nat, maxSeqLen: nat, numLayers: nat, nHeads: nat, headDim: nat)
    ensures SlabOk(InitialSlab(maxSeqs, maxSeqLen, numLayers, nHeads, headDim))
  {
    var s := InitialSlab(maxSeqs, maxSeqLen, numLayers, nHeads, headDim);
    forall slot: nat ensures SlotOk(s, slot) {
      if slot < maxSeqs {
        assert s.free[slot] == slot;
      }
    }
  }

  lemma FirstFree(s: Slab)
    requires SlabOk(s) && s.free != []
    ensures s.free[0] < s.maxSeqs && s.free[0] !in s.occupied
    ensures forall slot :: slot in s.free[1..] <==> slot in s.free && slot != s.free[0]
  {
    assert SlotOk(s, s.free[0]);
    assert s.free == [s.free[0]] + s.free[1..];
  }

  lemma AllocationKeepsSlot(s: Slab, promptLen: nat, maxNew: nat, slot: nat)
    requires SlabOk(s) && s.free != [] && s.free[0] < s.maxSeqs
    ensures var s' := SlabAllocate(s, promptLen, maxNew);
            |s'.generations| == s'.maxSeqs == |s'.issued| && s'.layers.Keys == s'.occupied.Keys && SlotOk(s', slot)
  {
    FirstFree(s);
    assert SlotOk(s, slot);
    if slot == s.free[0] {
      var s' := SlabAllocate(s, promptLen, maxNew);
      assert forall c :: 0 <= c < |s.issued[slot]| ==> s'.issued[slot][c] == s.issued[slot][c];
    }
  }

  /** A fresh handle is current, its storage is empty, and no other slot changes. */
  lemma AllocateKeepsOk(s: Slab, promptLen: nat, maxNew: nat)
    requires SlabOk(s) && s.free != []
    ensures s.free[0] < s.maxSeqs && SlabOk(SlabAllocate(s, promptLen, maxNew))
    ensures var s' := SlabAllocate(s, promptLen, maxNew); var h := NewHandle(s, promptLen, maxNew);
            IsCurrent(s', h) && h.slot !in s.occupied && h.slot in s'.layers
            && Rows(s', h.slot) == seq(s.numLayers, _ => LayerKv([], []))
            && forall slot :: slot in s.layers ==> slot in s'.layers && Rows(s', slot) == Rows(s, slot)
  {
    hide SlotOk;
    FirstFree(s);
    AllocationKeepsSlot(s, promptLen, maxNew, 0);
    forall slot: nat ensures SlotOk(SlabAllocate(s, promptLen, maxNew), slot) {
      AllocationKeepsSlot(s, promptLen, maxNew, slot);
    }
  }

  lemma FreeKeepsOk(s: Slab, h: KvHandle)
    requires SlabOk(s)
    ensures SlabOk(SlabFree(s, h))
    ensures forall slot :: slot in SlabFree(s, h).layers ==>
              slot in s.layers && Rows(SlabFree(s, h), slot) == Rows(s, slot)
  {
    if IsCurrent(s, h) {
      assert SlotOk(s, h.slot);
      var s' := SlabFree(s, h);
      forall slot: nat ensures SlotOk(s', slot) {
        assert SlotOk(s, slot);
        assert slot in s'.free <==> slot in s.free || slot == h.slot;
        if slot in s'.occupied {
          assert StorageFits(s, slot);
        }
      }
    }
  }

  /** Which writes are accepted, and what the others are told: the first check that fails. */
  lemma WriteErrorMeaning(s: Slab, h: KvHandle, layer: nat, k: Tensor, v: Tensor)
    ensures var e := WriteError(s, h, layer, k, v); var reached := IsCurrent(s, h) && layer < s.numLayers;
            && (e.None? <==> reached && k.dims == v.dims
                             && exists n :: n <= h.capacityTokens && k.dims == [s.nHeads, n, s.headDim])
            && (e == Some(CapacityExceeded) <==>
                  reached && k.dims == v.dims && exists n :: n > h.capacityTokens && k.dims == [s.nHeads, n, s.headDim])
            && (e == Some(StaleHandle) <==> !IsCurrent(s, h))
            && (e == Some(LayerOutOfRange) <==> IsCurrent(s, h) && layer >= s.numLayers)
            && (e == Some(BadRank) <==> reached && (|k.dims| != 3 || |v.dims| != 3))
            && (e == Some(ShapeMismatch) <==> reached && |k.dims| == 3 == |v.dims| && k.dims != v.dims)
            && (e == Some(HeadMismatch) <==> reached && |k.dims| == 3 && k.dims == v.dims && k.dims[0] != s.nHeads)
  {
    assert |k.dims| == 3 ==> k.dims == [k.dims[0], k.dims[1], k.dims[2]];
  }

  /** What was written is read, everything else reads as before, and fresh storage reads as empty tensors. */
  lemma ReadsWhatWasWritten(s: Slab, h: KvHandle, layer: nat, k: Tensor, v: Tensor)
    requires SlabOk(s) && WriteError(s, h, layer, k, v).None?
    ensures StoredPair(SlabWrite(s, h, layer, k, v), h.slot, layer) == KvPair(k, v)
    ensures forall slot, l: nat :: (slot != h.slot || l != layer) ==>
              StoredPair(SlabWrite(s, h, layer, k, v), slot, l) == StoredPair(s, slot, l)
    ensures s.free != [] && s.free[0] < |s.generations| == |s.issued| ==>
              forall promptLen, maxNew, l: nat :: StoredPair(SlabAllocate(s, promptLen, maxNew), s.free[0], l)
                == KvPair(Tensor([s.nHeads, 0, s.headDim], []), Tensor([s.nHeads, 0, s.headDim], []))
  {
    assert SlotOk(s, h.slot);
  }

  lemma WriteKeepsOk(s: Slab, h: KvHandle, layer: nat, k: Tensor, v: Tensor)
    requires SlabOk(s) && WriteError(s, h, layer, k, v).None? && k.Consistent() && v.Consistent()
    ensures HasLayer(s, h.slot, layer) && SlabOk(SlabWrite(s, h, layer, k, v))
    ensures var s' := SlabWrite(s, h, layer, k, v);
            && Rows(s', h.slot) == Rows(s, h.slot)[layer := LayerKv(k.rows, v.rows)]
            && forall slot :: slot in s.layers && slot != h.slot ==> Rows(s', slot) == Rows(s, slot)
  {
    assert SlotOk(s, h.slot);
    var s' := SlabWrite(s, h, layer, k, v);
    assert k.dims == [s.nHeads, |k.rows|, s.headDim];
    forall slot: nat ensures SlotOk(s', slot) {
      assert SlotOk(s, slot);
      if slot in s.occupied {
        assert StorageFits(s, slot);
      }
    }
  }

  // ----- Consequences -----

  ghost function Elements(s: seq<nat>): set<nat> { set x | x in s }

  lemma {:induction false} DistinctElements(s: seq<nat>)
    requires NoRepeats(s)
    ensures |Elements(s)| == |s|
  {
    if s != [] {
      var n := |s| - 1;
      var rest, last := s[..n], s[n];
      DistinctElements(rest);
      assert last !in rest && s == rest + [last];
      assert Elements(s) == Elements(rest) + {last};
    }
  }

  ghost function Below(n: nat): (r: set<nat>)
    ensures |r| == n && forall x :: x in r <==> 0 <= x < n
  {
    if n == 0 then {} else Below(n - 1) + {n - 1}
  }

  lemma PartitionSizes(free: seq<nat>, occupied: set<nat>, n: nat)
    requires NoRepeats(free)
    requires forall x: nat :: if x < n then (x in free <==> x !in occupied) else x !in free && x !in occupied
    ensures |free| + |occupied| == n
  {
    DistinctElements(free);
    assert Elements(free) + occupied == Below(n);
    assert Elements(free) * occupied == {};
  }

  /** Free and occupied slots partition the slots; so a slot is free exactly while fewer than all are occupied. */
  lemma FreeSlotIff(s: Slab)
    requires SlabOk(s)
    ensures |s.free| + |s.occupied| == s.maxSeqs
    ensures s.free != [] <==> |s.occupied| < s.maxSeqs
  {
    forall x: nat
      ensures if x < s.maxSeqs then (x in s.free <==> x !in s.occupied) else x !in s.free && x !in s.occupied
    {
      assert SlotOk(s, x);
    }
    PartitionSizes(s.free, s.occupied.Keys, s.maxSeqs);
    assert |s.occupied.Keys| == |s.occupied|;
  }

  /** An issued handle is current exactly when its slot is occupied and its stamp and capacity recur. */
  lemma IssuedHandleIsCurrentIff(s: Slab, slot: nat, c: nat)
    requires SlabOk(s) && slot < s.maxSeqs && c < |s.issued[slot]|
    ensures var n := |s.issued[slot]|;
            IsCurrent(s, s.issued[slot][c])
            <==> slot in s.occupied && (n - (c + 1)) % GENERATIONS == 0
                 && s.issued[slot][c].capacityTokens == s.issued[slot][n - 1].capacityTokens
  {
    var n := |s.issued[slot]|;
    assert SlotOk(s, slot);
    assert (c + 1) % GENERATIONS == n % GENERATIONS <==> (n - (c + 1)) % GENERATIONS == 0;
    assert s.issued[slot][n - 1].generation == n % GENERATIONS;
  }

  /** Below 2^64 allocations of a slot, every superseded or freed handle is inert. */
  lemma StaleHandleIsInert(s: Slab, slot: nat, c: nat)
    requires SlabOk(s) && slot < s.maxSeqs && c < |s.issued[slot]| <= GENERATIONS
    requires c + 1 < |s.issued[slot]| || slot !in s.occupied
    ensures var h := s.issued[slot][c];
            !IsCurrent(s, h) && SlabFree(s, h) == s
            && forall layer, k, v :: WriteError(s, h, layer, k, v) == Some(StaleHandle)
  {
    IssuedHandleIsCurrentIff(s, slot, c);
    var d := |s.issued[slot]| - (c + 1);
    if d > 0 {
      assert d < GENERATIONS && d % GENERATIONS == d;
    }
  }

  /** The slots that `n` allocations in a row take. */
  ghost function SlotsTaken(s: Slab, n: nat): seq<nat>
    requires SlabOk(s) && n <= |s.free|
    decreases n
  {
    if n == 0 then []
    else
      AllocateKeepsOk(s, 0, 0);
      [NewHandle(s, 0, 0).slot] + SlotsTaken(SlabAllocate(s, 0, 0), n - 1)
  }

  lemma {:induction false} SlotsTakenInOrder(s: Slab, n: nat)
    requires SlabOk(s) && n <= |s.free|
    ensures SlotsTaken(s, n) == s.free[..n]
    decreases n
  {
    hide SlotOk;
    if n > 0 {
      AllocateKeepsOk(s, 0, 0);
      SlotsTakenInOrder(SlabAllocate(s, 0, 0), n - 1);
      assert s.free[..n] == [s.free[0]] + s.free[1..][..n - 1];
    }
  }

  /** A freed slot is taken again only after all that were free before it, in the order in which they were freed. */
  lemma FreedSlotComesLast(s: Slab, h: KvHandle)
    requires SlabOk(s) && IsCurrent(s, h)
    ensures SlabOk(SlabFree(s, h)) && |SlabFree(s, h).free| == |s.free| + 1
    ensures SlotsTaken(SlabFree(s, h), |s.free| + 1) == SlotsTaken(s, |s.free|) + [h.slot]
  {
    FreeKeepsOk(s, h);
    SlotsTakenInOrder(s, |s.free|);
    SlotsTakenInOrder(SlabFree(s, h), |s.free| + 1);
  }

  /** A cache of one slot that was allocated, and then `n` times freed and allocated again. */
  ghost function Recycled(n: nat): (s: Slab)
    ensures SlabOk(s) && s.maxSeqs == 1 && 0 in s.occupied && |s.issued[0]| == n + 1
    ensures forall c :: 0 <= c <= n ==> s.issued[0][c].capacityTokens == 2
  {
    var before := if n == 0 then InitialSlab(1, 2, 1, 1, 1) else SlabFree(Recycled(n - 1), Recycled(n - 1).occupied[0]);
    InitialSlabOk(1, 2, 1, 1, 1);
    if n > 0 then FreeKeepsOk(Recycled(n - 1), Recycled(n - 1).occupied[0]); Reallocated(before)
    else Reallocated(before)
  }

  ghost function Reallocated(s: Slab): (s': Slab)
    requires SlabOk(s) && s.maxSeqs == 1 && 0 !in s.occupied
    ensures SlabOk(s') && s'.maxSeqs == 1 && 0 in s'.occupied
    ensures |s'.issued[0]| == |s.issued[0]| + 1 && s'.issued[0][..|s.issued[0]|] == s.issued[0]
    ensures s'.issued[0][|s.issued[0]|].capacityTokens == 2
  {
    FreeSlotIff(s);
    assert SlotOk(s, 0);
    FirstFree(s);
    AllocateKeepsOk(s, 1, 1);
    SlabAllocate(s, 1, 1)
  }

  /** After 2^64 more allocations of its slot a handle that was freed long ago is current again. */
  lemma FreedHandleComesBack()
    ensures var s := Recycled(0x1_0000_0000_0000_0000);
            && !IsCurrent(Recycled(1), s.issued[0][0]) && IsCurrent(s, s.issued[0][0])
            && s.issued[0][0] == Recycled(1).issued[0][0]
  {
    hide Recycled;
    var s := Recycled(GENERATIONS);
    assert SlotOk(s, 0) && SlotOk(Recycled(1), 0);
    IssuedHandleIsCurrentIff(s, 0, 0);
    IssuedHandleIsCurrentIff(Recycled(1), 0, 0);
  }

  // ----- The cache object -----

  class SlabKvCache {
    const maxSeqs: nat
    const maxSeqLen: nat
    const numLayers: nat
    const nHeads: nat
    const headDim: nat
    var freeSlots: seq<nat>
    var occupied: map<nat, KvHandle>
    var nextGenerations: seq<nat>
    var layers: map<nat, seq<Option<KvPair>>>
    ghost var issued: seq<seq<KvHandle>>

    ghost function View(): Slab
      reads this
    {
      Slab(maxSeqs, maxSeqLen, numLayers, nHeads, headDim, freeSlots, occupied, nextGenerations, layers, issued)
    }

    ghost predicate Valid()
      reads this
    {
      SlabOk(View())
    }

    constructor (maxSeqs: nat, maxSeqLen: nat, numLayers: nat, nHeads: nat, headDim: nat)
      ensures Valid() && View() == InitialSlab(maxSeqs, maxSeqLen, numLayers, nHeads, headDim)
    {
      this.maxSeqs, this.maxSeqLen, this.numLayers := maxSeqs, maxSeqLen, numLayers;
      this.nHeads, this.headDim := nHeads, headDim;
      freeSlots := seq(maxSeqs, i requires 0 <= i => i);
      occupied := map[];
      nextGenerations := seq(maxSeqs, _ => 0);
      layers := map[];
      issued := seq(maxSeqs, _ => []);
      new;
      InitialSlabOk(maxSeqs, maxSeqLen, numLayers, nHeads, headDim);
      var s0 := InitialSlab(maxSeqs, maxSeqLen, numLayers, nHeads, headDim);
      assert freeSlots == s0.free && nextGenerations == s0.generations && issued == s0.issued;
    }

    method HasRoomFor(promptLen: nat, maxNew: nat) returns (r: bool)
      ensures r == HasRoom(View(), promptLen, maxNew)
    {
      var tokens := CheckedAdd(promptLen, maxNew);
      r := tokens.Some? && tokens.value <= maxSeqLen && freeSlots != [];
    }

    /** Take the slot that has been free longest, under a fresh stamp and with empty storage. */
    method Allocate(promptLen: nat, maxNew: nat) returns (r: Result<KvHandle, KvError>)
      requires Valid()
      modifies this
      ensures Valid()
      ensures r.Ok? <==> HasRoom(old(View()), promptLen, maxNew)
      ensures r.Err? ==> View() == old(View())
      ensures r.Ok? ==> old(freeSlots[0] < maxSeqs)
                        && r.value == NewHandle(old(View()), promptLen, maxNew)
                        && View() == SlabAllocate(old(View()), promptLen, maxNew)
    {
      var room := HasRoomFor(promptLen, maxNew);
      if !room {
        return Err(NoRoom);
      }
      ghost var s := View();
      var slot := freeSlots[0];
      FirstFree(s);
      freeSlots := freeSlots[1..];
      var generation := (nextGenerations[slot] + 1) % GENERATIONS;
      nextGenerations := nextGenerations[slot := generation];
      var handle := KvHandle(slot, promptLen + maxNew, generation);
      occupied := occupied[slot := handle];
      layers := layers[slot := seq(numLayers, _ => None)];
      issued := issued[slot := issued[slot] + [handle]];
      assert handle == NewHandle(s, promptLen, maxNew);
      assert View() == SlabAllocate(s, promptLen, maxNew);
      AllocateKeepsOk(s, promptLen, maxNew);
      r := Ok(handle);
    }

    /** Give a slot back; a handle that is not current is ignored. */
    method Free(handle: KvHandle)
      requires Valid()
      modifies this
      ensures Valid() && View() == SlabFree(old(View()), handle)
    {
      FreeKeepsOk(View(), handle);
      if handle.slot in occupied && occupied[handle.slot] == handle {
        occupied := occupied - {handle.slot};
        layers := layers - {handle.slot};
        freeSlots := freeSlots + [handle.slot];
      }
    }

    method Write(handle: KvHandle, layer: nat, k: Tensor, v: Tensor) returns (error: Option<KvError>)
      requires Valid() && k.Consistent() && v.Consistent()
      modifies this
      ensures Valid() && error == WriteError(old(View()), handle, layer, k, v)
      ensures View() == if error.Some? then old(View()) else SlabWrite(old(View()), handle, layer, k, v)
    {
      if !(handle.slot in occupied && occupied[handle.slot] == handle) {
        return Some(StaleHandle);
      }
      if layer >= numLayers {
        return Some(LayerOutOfRange);
      }
      if |k.dims| != 3 || |v.dims| != 3 {
        return Some(BadRank);
      }
      if k.dims != v.dims {
        return Some(ShapeMismatch);
      }
      if k.dims[0] != nHeads || v.dims[0] != nHeads {
        return Some(HeadMismatch);
      }
      if k.dims[2] != headDim || v.dims[2] != headDim {
        return Some(HeadDimMismatch);
      }
      if k.dims[1] > handle.capacityTokens || v.dims[1] > handle.capacityTokens {
        return Some(CapacityExceeded);
      }
      WriteKeepsOk(View(), handle, layer, k, v);
      layers := layers[handle.slot := layers[handle.slot][layer := Some(KvPair(k, v))]];
      error := None;
    }

    method Read(handle: KvHandle, layer: nat) returns (r: Result<KvPair, KvError>)
      requires Valid()
      ensures r.Ok? <==> IsCurrent(View(), handle) && layer < numLayers
      ensures r.Ok? ==> r.value == StoredPair(View(), handle.slot, layer)
      ensures r.Err? ==> r.error == if IsCurrent(View(), handle) then LayerOutOfRange else StaleHandle
    {
      if !(handle.slot in occupied && occupied[handle.slot] == handle) {
        return Err(StaleHandle);
      }
      if layer >= numLayers {
        return Err(LayerOutOfRange);
      }
      ghost var s := View();
      assert SlotOk(s, handle.slot);
      match layers[handle.slot][layer]
      case Some(pair) => r := Ok(pair);
      case None => r := Ok(KvPair(Tensor([nHeads, 0, headDim], []), Tensor([nHeads, 0, headDim], [])));
    }
  }
}
