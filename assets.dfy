/**
  The reference-counted asset store (`AssetManager` and its `Asset<T>`
  handles). A handle is modelled by the id of its slot; the raw pointer it
  also carries is not modelled. The drop channel is the sequence `pending`
  of ids sent and not yet received.
 */
module Assets {
  import opened Erased

  /** An `Asset<T>` handle. */
  datatype Asset = Asset(id: nat)

  /** A slot of the store: the boxed value and its reference count. */
  type Entry<P> = (Boxed<P>, nat)

  /** Every stored reference count is at least one. */
  predicate CountsPositive<P>(m: map<nat, Entry<P>>)
  {
    forall id :: id in m ==> m[id].1 >= 1
  }

  /**
    One iteration of the drain loop of `drop_unused_assets`: decrement the
    count of `id` and remove the slot when the count reaches zero; an id
    that is no longer stored is ignored.
   */
  function ReleaseOne<P>(m: map<nat, Entry<P>>, id: nat): (r: map<nat, Entry<P>>)
    requires CountsPositive(m)
    ensures CountsPositive(r)
    ensures r.Keys <= m.Keys
  {
    if id !in m then m
    else if m[id].1 - 1 == 0 then m - {id}
    else m[id := (m[id].0, m[id].1 - 1)]
  }

  /** The effect of draining the queue `q`, applied in the order received. */
  function ApplyDrops<P>(m: map<nat, Entry<P>>, q: seq<nat>): (r: map<nat, Entry<P>>)
    requires CountsPositive(m)
    ensures CountsPositive(r)
    ensures r.Keys <= m.Keys
    decreases |q|
  {
    if q == [] then m else ApplyDrops(ReleaseOne(m, q[0]), q[1..])
  }

  /**
    What draining does to one slot: an absent id stays absent; a present id
    with count c that occurs k times in the queue survives iff k < c, and
    then holds the same value with count c - k.
   */
  lemma {:induction false} ApplyDropsCount<P>(m: map<nat, Entry<P>>, q: seq<nat>, id: nat)
    requires CountsPositive(m)
    ensures id !in m ==> id !in ApplyDrops(m, q)
    ensures id in m ==> (id in ApplyDrops(m, q) <==> multiset(q)[id] < m[id].1)
    ensures id in m && multiset(q)[id] < m[id].1 ==>
              ApplyDrops(m, q)[id] == (m[id].0, m[id].1 - multiset(q)[id])
    decreases |q|
  {
    if q != [] {
      assert q == [q[0]] + q[1..];
      assert multiset(q)[id] == multiset([q[0]])[id] + multiset(q[1..])[id];
      ApplyDropsCount(ReleaseOne(m, q[0]), q[1..], id);
    }
  }

  /** Slots whose id never appears in the queue are left exactly as they were. */
  lemma ApplyDropsUntouched<P>(m: map<nat, Entry<P>>, q: seq<nat>, id: nat)
    requires CountsPositive(m)
    requires id !in q
    ensures id in ApplyDrops(m, q) <==> id in m
    ensures id in m ==> ApplyDrops(m, q)[id] == m[id]
  {
    assert multiset(q)[id] == 0;
    ApplyDropsCount(m, q, id);
  }

  /** `AssetManager`. */
  class AssetManager<P> {
    var assets: map<nat, Entry<P>>
    var currentId: nat
    /** The ids sent on the drop channel and not yet received. */
    var pending: seq<nat>

    /** Counts are positive and every stored id was handed out already. */
    ghost predicate Valid()
      reads this
    {
      && CountsPositive(assets)
      && forall id :: id in assets ==> id < currentId
    }

    /** `AssetManager::new`. */
    constructor ()
      ensures Valid()
      ensures assets == map[] && currentId == 0 && pending == []
    {
      assets := map[];
      currentId := 0;
      pending := [];
    }

    /**
      `create_asset`: the id is the counter before the call, never used
      before; the value is stored with count one.
     */
    method CreateAsset(tag: TypeKey, value: P) returns (h: Asset)
      requires Valid()
      modifies this
      ensures Valid()
      ensures h.id == old(currentId) && currentId == old(currentId) + 1
      ensures h.id !in old(assets)
      ensures assets == old(assets)[h.id := (Boxed(tag, value), 1)]
      ensures pending == old(pending)
    {
      var id := currentId;
      currentId := currentId + 1;
      assets := assets[id := (Boxed(tag, value), 1)];
      h := Asset(id);
    }

    /** `Clone for Asset<T>`: copies the id; sends nothing and counts nothing. */
    method CloneHandle(h: Asset) returns (c: Asset)
      ensures c.id == h.id
    {
      c := Asset(h.id);
    }

    /** `Drop for Asset<T>`: posts the handle's id on the channel. */
    method DropHandle(h: Asset)
      requires Valid()
      modifies this
      ensures Valid()
      ensures pending == old(pending) + [h.id]
      ensures assets == old(assets) && currentId == old(currentId)
    {
      pending := pending + [h.id];
    }

    /** `drop_unused_assets`: drains the channel, applying each id in order. */
    method DropUnusedAssets()
      requires Valid()
      modifies this
      ensures Valid()
      ensures pending == [] && currentId == old(currentId)
      ensures assets == ApplyDrops(old(assets), old(pending))
    {
      while pending != []
        invariant Valid()
        invariant currentId == old(currentId)
        invariant ApplyDrops(assets, pending) == ApplyDrops(old(assets), old(pending))
        decreases |pending|
      {
        var id := pending[0];
        pending := pending[1..];
        if id in assets {
          var (value, count) := assets[id];
          if count - 1 == 0 {
            assets := assets - {id};
          } else {
            assets := assets[id := (value, count - 1)];
          }
        }
      }
    }
  }

  /**
    As written: create an asset, clone its handle, drop only the clone,
    drain. The original handle is still alive, yet its slot is gone.
   */
  method CloneDropFreesLiveAsset<P>(tag: TypeKey, value: P) returns (original: Asset, stillStored: bool)
    ensures !stillStored
  {
    var store := new AssetManager<P>();
    original := store.CreateAsset(tag, value);
    var copy := store.CloneHandle(original);
    store.DropHandle(copy);
    store.DropUnusedAssets();
    ApplyDropsCount(map[original.id := (Boxed(tag, value), 1)], [original.id], original.id);
    stillStored := original.id in store.assets;
  }

  /** A reference-count message of the intended design: a clone retains, a drop releases. */
  datatype RefMsg = Retain(id: nat) | Release(id: nat)

  /** The intended reconciliation: retains increment, releases decrement and free at zero. */
  function ReconcileCounted<P>(m: map<nat, Entry<P>>, msgs: seq<RefMsg>): (r: map<nat, Entry<P>>)
    requires CountsPositive(m)
    ensures CountsPositive(r)
    ensures r.Keys <= m.Keys
    decreases |msgs|
  {
    if msgs == [] then m
    else match msgs[0]
      case Retain(id) =>
        var m' := if id in m then m[id := (m[id].0, m[id].1 + 1)] else m;
        ReconcileCounted(m', msgs[1..])
      case Release(id) => ReconcileCounted(ReleaseOne(m, id), msgs[1..])
  }

  /**
    Corrected: when clone posts `Retain`, a clone that is created and
    dropped between two reconciliations leaves every slot as it was; in
    particular the original's slot survives with its count.
   */
  lemma CountedCloneDropIsNeutral<P>(m: map<nat, Entry<P>>, id: nat)
    requires CountsPositive(m)
    requires id in m
    ensures ReconcileCounted(m, [Retain(id), Release(id)]) == m
  {
    var m1 := m[id := (m[id].0, m[id].1 + 1)];
    assert ReconcileCounted(m, [Retain(id), Release(id)]) == ReconcileCounted(m1, [Release(id)]);
    assert ReleaseOne(m1, id) == m;
  }

  /** How a message changes the number of live handles of `id`. */
  function Delta(msg: RefMsg, id: nat): int
  {
    match msg
    case Retain(x) => if x == id then 1 else 0
    case Release(x) => if x == id then -1 else 0
  }

  /** Handles of `id` created minus handles of `id` dropped over `msgs`. */
  function Balance(msgs: seq<RefMsg>, id: nat): int
    decreases |msgs|
  {
    if msgs == [] then 0 else Delta(msgs[0], id) + Balance(msgs[1..], id)
  }

  /**
    Corrected, in general: as long as at no point more handles of `id`
    have been dropped than existed, the slot survives every reconciliation
    and its count is the number of live handles.
   */
  lemma {:induction false} CountedSlotTracksLiveHandles<P>(m: map<nat, Entry<P>>, msgs: seq<RefMsg>, id: nat)
    requires CountsPositive(m)
    requires id in m
    requires forall k :: 0 <= k <= |msgs| ==> m[id].1 + Balance(msgs[..k], id) >= 1
    ensures id in ReconcileCounted(m, msgs)
    ensures ReconcileCounted(m, msgs)[id] == (m[id].0, m[id].1 + Balance(msgs, id))
    decreases |msgs|
  {
    if msgs != [] {
      var m': map<nat, Entry<P>> := match msgs[0]
        case Retain(x) => if x in m then m[x := (m[x].0, m[x].1 + 1)] else m
        case Release(x) => ReleaseOne(m, x);
      assert ReconcileCounted(m, msgs) == ReconcileCounted(m', msgs[1..]);
      assert msgs[..1] == [msgs[0]];
      assert msgs[..1][1..] == [];
      assert m[id].1 + Balance(msgs[..1], id) >= 1;
      assert id in m' && m'[id] == (m[id].0, m[id].1 + Delta(msgs[0], id));
      forall k | 0 <= k <= |msgs[1..]|
        ensures m'[id].1 + Balance(msgs[1..][..k], id) >= 1
      {
        assert msgs[..k + 1][0] == msgs[0];
        assert msgs[..k + 1][1..] == msgs[1..][..k];
      }
      CountedSlotTracksLiveHandles(m', msgs[1..], id);
      assert msgs == msgs[..|msgs|];
    }
  }
}
