/**
 The informer's cache: how a stream of watch events is projected onto a
 store keyed by object identity. The pure functions here are the
 specification; the classes below update a store in place and are proved
 against it.
 */
module Cache {
  import opened Meta

  /** The identity under which the store keeps an object: (namespace, name). */
  datatype Identity = Identity(namespace: Option<string>, name: string)

  function Key<B>(o: MetadataObject<B>): Identity
  {
    Identity(o.metadata.namespace, o.metadata.name)
  }

  type Contents<B> = map<Identity, MetadataObject<B>>

  /** Every entry is filed under its own object's identity. */
  ghost predicate WellKeyed<B>(m: Contents<B>)
  {
    forall k :: k in m ==> Key(m[k]) == k
  }

  /** The entry at `k`, if any. */
  function Lookup<B>(m: Contents<B>, k: Identity): Option<MetadataObject<B>>
  {
    if k in m then Some(m[k]) else None
  }

  /** `store.store(o)`: insert or replace the entry at `o`'s identity. */
  function Upsert<B>(m: Contents<B>, o: MetadataObject<B>): (r: Contents<B>)
    ensures r.Keys == m.Keys + {Key(o)}
    ensures Lookup(r, Key(o)) == Some(o)
    ensures forall k :: k != Key(o) ==> Lookup(r, k) == Lookup(m, k)
    ensures WellKeyed(m) ==> WellKeyed(r)
  {
    m[Key(o) := o]
  }

  /** `store.pull(o)`: drop the entry at `o`'s identity if there is one. */
  function Remove<B>(m: Contents<B>, o: MetadataObject<B>): (r: Contents<B>)
    ensures r.Keys == m.Keys - {Key(o)}
    ensures Lookup(r, Key(o)) == None
    ensures forall k :: k != Key(o) ==> Lookup(r, k) == Lookup(m, k)
    ensures Key(o) !in m ==> r == m
    ensures WellKeyed(m) ==> WellKeyed(r)
  {
    m - {Key(o)}
  }

  /** Whether event `e` acts on identity `k`: an ERROR event acts on nothing. */
  predicate Touches<B>(e: WatchEvent<MetadataObject<B>>, k: Identity)
  {
    e.eventType != Error && Key(e.obj) == k
  }

  /** The informer's handler applied to one event. */
  function Step<B>(m: Contents<B>, e: WatchEvent<MetadataObject<B>>): (r: Contents<B>)
    ensures e.eventType in {Added, Modified} ==> Lookup(r, Key(e.obj)) == Some(e.obj)
    ensures e.eventType == Deleted ==> Lookup(r, Key(e.obj)) == None
    ensures e.eventType == Error ==> r == m
    ensures forall k :: !Touches(e, k) ==> Lookup(r, k) == Lookup(m, k)
    ensures WellKeyed(m) ==> WellKeyed(r)
  {
    match e.eventType
    case Added => Upsert(m, e.obj)
    case Modified => Upsert(m, e.obj)
    case Deleted => Remove(m, e.obj)
    case Error => m
  }

  /** The store after the handler has seen `es` in arrival order, starting from `m`. */
  function Fold<B>(m: Contents<B>, es: seq<WatchEvent<MetadataObject<B>>>): Contents<B>
  {
    if es == [] then m else Step(Fold(m, es[..|es| - 1]), es[|es| - 1])
  }

  /** The index of the last event in `es` that acts on `k`. */
  function LastTouch<B>(es: seq<WatchEvent<MetadataObject<B>>>, k: Identity): (r: Option<nat>)
    ensures r.Some? ==> r.value < |es| && Touches(es[r.value], k)
    ensures r.Some? ==> forall j :: r.value < j < |es| ==> !Touches(es[j], k)
    ensures r.None? ==> forall j :: 0 <= j < |es| ==> !Touches(es[j], k)
  {
    if es == [] then None
    else if Touches(es[|es| - 1], k) then Some(|es| - 1)
    else LastTouch(es[..|es| - 1], k)
  }

  /**
   Reference definition of the cache: the entry at `k` is decided by the last
   event acting on `k` (present with its object after ADDED or MODIFIED, absent
   after DELETED), and is the initial one if no event acts on `k`.
   */
  function ExpectedAt<B>(m: Contents<B>, es: seq<WatchEvent<MetadataObject<B>>>, k: Identity): Option<MetadataObject<B>>
  {
    match LastTouch(es, k)
    case None => Lookup(m, k)
    case Some(i) => if es[i].eventType == Deleted then None else Some(es[i].obj)
  }

  /** Folding the handler agrees with the reference definition at every identity. */
  lemma {:induction false} FoldAt<B>(m: Contents<B>, es: seq<WatchEvent<MetadataObject<B>>>, k: Identity)
    ensures Lookup(Fold(m, es), k) == ExpectedAt(m, es, k)
  {
    if es != [] {
      var init, last := es[..|es| - 1], es[|es| - 1];
      FoldAt(m, init, k);
      if !Touches(last, k) {
        assert LastTouch(es, k) == LastTouch(init, k);
        assert forall j :: 0 <= j < |init| ==> init[j] == es[j];
      }
    }
  }

  /** Two stores that agree at every identity are equal. */
  lemma {:induction false} LookupExtensional<B>(a: Contents<B>, b: Contents<B>)
    requires forall k :: Lookup(a, k) == Lookup(b, k)
    ensures a == b
  {
    forall k
      ensures k in a <==> k in b
    {
      assert Lookup(a, k) == Lookup(b, k);
    }
    forall k | k in a
      ensures a[k] == b[k]
    {
      assert Lookup(a, k) == Lookup(b, k);
    }
  }

  /** Delivering a stream in two parts is delivering it at once. */
  lemma {:induction false} FoldAppend<B>(m: Contents<B>, a: seq<WatchEvent<MetadataObject<B>>>, b: seq<WatchEvent<MetadataObject<B>>>)
    ensures Fold(m, a + b) == Fold(Fold(m, a), b)
  {
    if b == [] {
      assert a + b == a;
    } else {
      FoldAppend(m, a, b[..|b| - 1]);
      assert (a + b)[..|a + b| - 1] == a + b[..|b| - 1];
    }
  }

  /** Folding keeps every entry filed under its own identity. */
  lemma {:induction false} FoldWellKeyed<B>(m: Contents<B>, es: seq<WatchEvent<MetadataObject<B>>>)
    requires WellKeyed(m)
    ensures WellKeyed(Fold(m, es))
  {
    if es != [] {
      FoldWellKeyed(m, es[..|es| - 1]);
    }
  }

  /** MODIFIED has the same effect as ADDED. */
  lemma ModifiedIsAdded<B>(m: Contents<B>, o: MetadataObject<B>)
    ensures Step(m, WatchEvent(Modified, o)) == Step(m, WatchEvent(Added, o))
  {
  }

  /** ADDED `x` then MODIFIED `y` for the same identity leaves one entry there, equal to `y`. */
  lemma {:induction false} LastWriteWins<B>(m: Contents<B>, x: MetadataObject<B>, y: MetadataObject<B>)
    requires Key(x) == Key(y)
    ensures Fold(m, [WatchEvent(Added, x), WatchEvent(Modified, y)]) == Upsert(m, y)
  {
    var es := [WatchEvent(Added, x), WatchEvent(Modified, y)];
    assert es[..1][..0] == [];
    assert Fold(m, es[..1]) == Upsert(m, x);
    LookupExtensional(Fold(m, es), Upsert(m, y));
  }

  /** DELETED for an identity that is not cached changes nothing and creates nothing. */
  lemma DeleteAbsentIsNoop<B>(m: Contents<B>, o: MetadataObject<B>)
    requires Key(o) !in m
    ensures Step(m, WatchEvent(Deleted, o)) == m
  {
  }

  /** A stream with no event acting on `k` leaves the entry at `k` as it was. */
  lemma {:induction false} FoldFrame<B>(m: Contents<B>, es: seq<WatchEvent<MetadataObject<B>>>, k: Identity)
    requires forall j :: 0 <= j < |es| ==> !Touches(es[j], k)
    ensures Lookup(Fold(m, es), k) == Lookup(m, k)
  {
    FoldAt(m, es, k);
  }

  /** A stream of ERROR events only leaves the store unchanged. */
  lemma {:induction false} FoldErrorsIsNoop<B>(m: Contents<B>, es: seq<WatchEvent<MetadataObject<B>>>)
    requires forall j :: 0 <= j < |es| ==> es[j].eventType == Error
    ensures Fold(m, es) == m
  {
    forall k
      ensures Lookup(Fold(m, es), k) == Lookup(m, k)
    {
      FoldFrame(m, es, k);
    }
    LookupExtensional(Fold(m, es), m);
  }

  /** ADDED and MODIFIED events only, for pairwise distinct identities. */
  ghost predicate DistinctUpserts<B>(es: seq<WatchEvent<MetadataObject<B>>>)
  {
    && (forall j :: 0 <= j < |es| ==> es[j].eventType in {Added, Modified})
    && (forall i, j :: 0 <= i < j < |es| ==> Key(es[i].obj) != Key(es[j].obj))
  }

  /**
   After upserts of distinct identities each object is cached under its
   identity, and every other entry is the initial one.
   */
  lemma {:induction false} FoldDistinctUpserts<B>(m: Contents<B>, es: seq<WatchEvent<MetadataObject<B>>>, k: Identity)
    requires DistinctUpserts(es)
    ensures forall i :: 0 <= i < |es| && Key(es[i].obj) == k ==> Lookup(Fold(m, es), k) == Some(es[i].obj)
    ensures (forall i :: 0 <= i < |es| ==> Key(es[i].obj) != k) ==> Lookup(Fold(m, es), k) == Lookup(m, k)
  {
    FoldAt(m, es, k);
  }

  /**
   The order of upserts for distinct identities does not matter: any
   rearrangement of the same events yields the same store.
   */
  lemma {:induction false} UpsertOrderIrrelevant<B>(m: Contents<B>, es: seq<WatchEvent<MetadataObject<B>>>, ps: seq<WatchEvent<MetadataObject<B>>>)
    requires DistinctUpserts(es)
    requires multiset(es) == multiset(ps)
    ensures Fold(m, es) == Fold(m, ps)
  {
    forall k
      ensures Lookup(Fold(m, es), k) == Lookup(Fold(m, ps), k)
    {
      FoldAt(m, es, k);
      FoldAt(m, ps, k);
      match LastTouch(ps, k)
      case None =>
        forall i | 0 <= i < |es|
          ensures !Touches(es[i], k)
        {
          assert es[i] in multiset(ps);
        }
      case Some(j) =>
        assert ps[j] in multiset(es);
        var i :| 0 <= i < |es| && es[i] == ps[j];
        assert Touches(es[i], k);
    }
    LookupExtensional(Fold(m, es), Fold(m, ps));
  }

  /**
   The in-memory store the informer writes to: at most one entry per
   identity, each filed under its own object's identity.
   */
  class InMemoryStore<B> {
    var contents: Contents<B>

    ghost predicate Valid()
      reads this
    {
      WellKeyed(contents)
    }

    constructor ()
      ensures Valid() && contents == map[]
    {
      contents := map[];
    }

    /** Insert or replace the entry at `o`'s identity. */
    method Store(o: MetadataObject<B>)
      requires Valid()
      modifies this
      ensures Valid()
      ensures contents == Upsert(old(contents), o)
    {
      contents := contents[Key(o) := o];
    }

    /** Remove the entry at `o`'s identity; nothing happens if there is none. */
    method Pull(o: MetadataObject<B>)
      requires Valid()
      modifies this
      ensures Valid()
      ensures contents == Remove(old(contents), o)
    {
      if Key(o) in contents {
        contents := contents - {Key(o)};
      }
    }
  }
}
