/**
 * Building one aggregated catalog (tools, resources, resource templates or
 * prompts) from the catalogs that the upstream peers returned.
 *
 * The peers' fetches run concurrently, but their results are delivered as a
 * sequence in configured peer order, one entry per peer, and folded in that
 * order: precedence is a function of the configuration, not of which fetch
 * finished first.
 */
module Catalog {
  import opened Wrappers
  import opened PyDict

  /** A peer is identified by its position in the configured peer list. */
  type PeerIndex = nat

  /** What one peer's catalog fetch produced. */
  datatype FetchResult<V> =
    | Fetched(items: seq<(Key, V)>)   // a dict; `items` in its iteration order
    | Failed(isGroup: bool)           // an exception; `isGroup` when it carries `.exceptions`
    | Unexpected                      // any other value

  /** The errors the proxy raises. */
  datatype Fault =
    | McpError(message: string)
    | AttributeError(attribute: string)

  /** One key listed by one peer, with the descriptor the peer gave for it. */
  datatype Listing<V> = Listing(peer: PeerIndex, key: Key, desc: V)

  /** The two dicts a build produces: key to owning peer, and key to descriptor. */
  datatype Merged<V> = Merged(owners: map<Key, PeerIndex>, descs: Dict<V>)

  /** The keys of a peer's dict, in its iteration order. */
  function ItemKeys<V>(items: seq<(Key, V)>): seq<Key>
  {
    if items == [] then [] else ItemKeys(items[..|items| - 1]) + [items[|items| - 1].0]
  }

  /** A fetch that returned a dict containing `k`. */
  predicate Lists<V>(r: FetchResult<V>, k: Key)
  {
    r.Fetched? && k in ItemKeys(r.items)
  }

  /** The value of the last item with key `k`. */
  ghost function LastValue<V>(items: seq<(Key, V)>, k: Key): V
    requires k in ItemKeys(items)
  {
    var n := |items| - 1;
    if items[n].0 == k then items[n].1 else LastValue(items[..n], k)
  }

  /** The items of one peer's dict as listings by that peer. */
  function PeerListings<V>(peer: PeerIndex, items: seq<(Key, V)>): seq<Listing<V>>
  {
    if items == [] then []
    else
      var n := |items| - 1;
      PeerListings(peer, items[..n]) + [Listing(peer, items[n].0, items[n].1)]
  }

  /**
   * Every listing of every peer whose fetch returned a dict, in peer order.
   * Exceptions and non-dict results contribute nothing.
   */
  function Listings<V>(results: seq<FetchResult<V>>): seq<Listing<V>>
  {
    if results == [] then []
    else
      var n := |results| - 1;
      Listings(results[..n]) + (if results[n].Fetched? then PeerListings(n, results[n].items) else [])
  }

  function KeySeq<V>(ls: seq<Listing<V>>): seq<Key>
  {
    if ls == [] then [] else KeySeq(ls[..|ls| - 1]) + [ls[|ls| - 1].key]
  }

  /**
   * The fold of the build loops: every listing, in order, overwrites the
   * owner and the descriptor of its key.
   */
  function Merge<V>(ls: seq<Listing<V>>): (m: Merged<V>)
    ensures WellFormed(m.descs)
    ensures m.owners.Keys == m.descs.entries.Keys
    ensures forall k :: k in m.owners <==> k in KeySeq(ls)
  {
    if ls == [] then Merged(map[], Empty())
    else
      var n := |ls| - 1;
      var m := Merge(ls[..n]);
      assert KeySeq(ls) == KeySeq(ls[..n]) + [ls[n].key];
      Merged(m.owners[ls[n].key := ls[n].peer], Put(m.descs, ls[n].key, ls[n].desc))
  }

  /** Some fetch failed with an exception that is not an exception group. */
  ghost predicate HasPlainException<V>(results: seq<FetchResult<V>>)
  {
    exists i :: 0 <= i < |results| && results[i].Failed? && !results[i].isGroup
  }

  /**
   * The loop of the four build methods. With `readsSubExceptions` (the resource
   * build, which reads `result.exceptions` of every failed fetch) a plain
   * exception makes the loop raise an AttributeError and nothing is built.
   */
  method MergeCatalogs<V>(results: seq<FetchResult<V>>, readsSubExceptions: bool)
    returns (raised: Option<Fault>, owners: map<Key, PeerIndex>, descs: Dict<V>)
    ensures raised == if readsSubExceptions && HasPlainException(results)
                      then Some(AttributeError("exceptions")) else None
    ensures raised.None? ==> Merged(owners, descs) == Merge(Listings(results))
  {
    raised, owners, descs := None, map[], Empty();
    for i := 0 to |results|
      invariant !(readsSubExceptions && HasPlainException(results[..i]))
      invariant Merged(owners, descs) == Merge(Listings(results[..i]))
    {
      ListingsStep(results, i);
      PlainExceptionStep(results, i);
      match results[i]
      case Failed(isGroup) =>
        if readsSubExceptions && !isGroup {
          raised := Some(AttributeError("exceptions"));
          return;
        }
      case Fetched(items) =>
        owners, descs := MergePeer(owners, descs, i, items, Listings(results[..i]));
      case Unexpected =>
    }
    assert results[..|results|] == results;
  }

  /**
   * The inner loop: every item of one peer's dict, in its iteration order,
   * overwrites the owner and the descriptor of its key.
   */
  method MergePeer<V>(owners0: map<Key, PeerIndex>, descs0: Dict<V>, peer: PeerIndex, items: seq<(Key, V)>,
                      ghost done: seq<Listing<V>>)
    returns (owners: map<Key, PeerIndex>, descs: Dict<V>)
    requires Merged(owners0, descs0) == Merge(done)
    ensures Merged(owners, descs) == Merge(done + PeerListings(peer, items))
  {
    owners, descs := owners0, descs0;
    assert items[..0] == [] && done + [] == done;
    for j := 0 to |items|
      invariant Merged(owners, descs) == Merge(done + PeerListings(peer, items[..j]))
    {
      var (key, desc) := items[j];
      PeerListingsStep(done, peer, items, j);
      owners := owners[key := peer];
      descs := Put(descs, key, desc);
    }
    assert items[..|items|] == items;
  }

  /** One more peer's result extends the listings by that peer's items, if any. */
  lemma ListingsStep<V>(results: seq<FetchResult<V>>, i: nat)
    requires i < |results|
    ensures results[i].Fetched? ==> Listings(results[..i + 1]) == Listings(results[..i]) + PeerListings(i, results[i].items)
    ensures !results[i].Fetched? ==> Listings(results[..i + 1]) == Listings(results[..i])
  {
    assert results[..i + 1][..i] == results[..i];
    assert Listings(results[..i]) + [] == Listings(results[..i]);
  }

  lemma PlainExceptionStep<V>(results: seq<FetchResult<V>>, i: nat)
    requires i < |results|
    ensures HasPlainException(results[..i + 1])
      <==> HasPlainException(results[..i]) || (results[i].Failed? && !results[i].isGroup)
  {
    if HasPlainException(results[..i + 1]) {
      var w :| 0 <= w < i + 1 && results[..i + 1][w].Failed? && !results[..i + 1][w].isGroup;
      if w < i {
        assert results[..i][w] == results[..i + 1][w];
      }
    }
    if HasPlainException(results[..i]) {
      var w :| 0 <= w < i && results[..i][w].Failed? && !results[..i][w].isGroup;
      assert results[..i + 1][w] == results[..i][w];
    }
    if results[i].Failed? && !results[i].isGroup {
      assert results[..i + 1][i] == results[i];
    }
  }

  /** One more item of peer `peer` is one more step of the fold. */
  lemma PeerListingsStep<V>(ls: seq<Listing<V>>, peer: PeerIndex, items: seq<(Key, V)>, j: nat)
    requires j < |items|
    ensures var before := Merge(ls + PeerListings(peer, items[..j]));
      Merge(ls + PeerListings(peer, items[..j + 1]))
      == Merged(before.owners[items[j].0 := peer], Put(before.descs, items[j].0, items[j].1))
  {
    var before := ls + PeerListings(peer, items[..j]);
    var l := Listing(peer, items[j].0, items[j].1);
    assert items[..j + 1][..j] == items[..j];
    assert ls + PeerListings(peer, items[..j + 1]) == before + [l];
    assert (before + [l])[..|before|] == before;
  }

  // ---------------------------------------------------------------------
  // Properties of the fold

  /** The keys of a peer's listings are the keys of its dict. */
  lemma {:induction false} PeerListingsKeys<V>(peer: PeerIndex, items: seq<(Key, V)>)
    ensures KeySeq(PeerListings(peer, items)) == ItemKeys(items)
  {
    if items != [] {
      var n := |items| - 1;
      PeerListingsKeys(peer, items[..n]);
      var pl := PeerListings(peer, items[..n]);
      assert (pl + [Listing(peer, items[n].0, items[n].1)])[..|pl|] == pl;
    }
  }

  lemma {:induction false} KeySeqAppend<V>(a: seq<Listing<V>>, b: seq<Listing<V>>)
    ensures KeySeq(a + b) == KeySeq(a) + KeySeq(b)
  {
    if b == [] {
      assert a + b == a;
    } else {
      var n := |b| - 1;
      KeySeqAppend(a, b[..n]);
      assert (a + b)[..|a + b| - 1] == a + b[..n];
    }
  }

  /**
   * A key is aggregated exactly when some peer's fetch returned a dict
   * listing it: the key set is the union of the successful catalogs.
   */
  lemma {:induction false} MergedKeysAreListedKeys<V>(results: seq<FetchResult<V>>, k: Key)
    ensures k in Merge(Listings(results)).owners <==> exists i :: 0 <= i < |results| && Lists(results[i], k)
  {
    if results != [] {
      var n := |results| - 1;
      var prev := Listings(results[..n]);
      var tail := if results[n].Fetched? then PeerListings(n, results[n].items) else [];
      ListingsStep(results, n);
      assert results[..n + 1] == results;
      assert Listings(results) == prev + tail;
      MergedKeysAreListedKeys(results[..n], k);
      KeySeqAppend(prev, tail);
      if results[n].Fetched? {
        PeerListingsKeys(n, results[n].items);
      }
      assert k in KeySeq(tail) <==> Lists(results[n], k);
      if exists i :: 0 <= i < |results| && Lists(results[i], k) {
        var i :| 0 <= i < |results| && Lists(results[i], k);
        if i < n {
          assert results[..n][i] == results[i];
        }
      }
      if exists i :: 0 <= i < n && Lists(results[..n][i], k) {
        var i :| 0 <= i < n && Lists(results[..n][i], k);
        assert results[i] == results[..n][i];
      }
    }
  }

  /** Listings of other keys leave the owner and the descriptor of `k` alone. */
  lemma {:induction false} MergeIgnoresOtherKeys<V>(ls: seq<Listing<V>>, tail: seq<Listing<V>>, k: Key)
    requires forall q :: 0 <= q < |tail| ==> tail[q].key != k
    ensures var a, b := Merge(ls), Merge(ls + tail);
      && (k in a.owners <==> k in b.owners)
      && (k in a.owners ==> b.owners[k] == a.owners[k] && b.descs.entries[k] == a.descs.entries[k])
  {
    if tail == [] {
      assert ls + tail == ls;
    } else {
      var n := |tail| - 1;
      MergeIgnoresOtherKeys(ls, tail[..n], k);
      assert (ls + tail)[..|ls + tail| - 1] == ls + tail[..n];
    }
  }

  /** A peer that lists `k` after everything in `ls` owns it, with its own (last) descriptor. */
  lemma {:induction false} MergePeerListingWins<V>(ls: seq<Listing<V>>, peer: PeerIndex, items: seq<(Key, V)>, k: Key)
    requires k in ItemKeys(items)
    ensures var m := Merge(ls + PeerListings(peer, items));
      k in m.owners && m.owners[k] == peer && m.descs.entries[k] == LastValue(items, k)
  {
    var n := |items| - 1;
    var pl := PeerListings(peer, items[..n]);
    var all := ls + PeerListings(peer, items);
    assert all == (ls + pl) + [Listing(peer, items[n].0, items[n].1)];
    assert all[..|all| - 1] == ls + pl;
    if items[n].0 != k {
      MergePeerListingWins(ls, peer, items[..n], k);
    }
  }

  lemma {:induction false} PeerListingsOtherKeys<V>(peer: PeerIndex, items: seq<(Key, V)>, k: Key)
    requires k !in ItemKeys(items)
    ensures forall q :: 0 <= q < |PeerListings(peer, items)| ==> PeerListings(peer, items)[q].key != k
  {
    if items != [] {
      PeerListingsOtherKeys(peer, items[..|items| - 1], k);
    }
  }

  /**
   * Later peer wins: the owner of an aggregated key is a peer that lists it,
   * no later peer lists it, and the descriptor is the one that peer gave.
   */
  lemma {:induction false} MergeOwnerIsLastLister<V>(results: seq<FetchResult<V>>, k: Key)
    requires k in Merge(Listings(results)).owners
    ensures var m := Merge(Listings(results)); var i := m.owners[k];
      && i < |results|
      && Lists(results[i], k)
      && (forall later :: i < later < |results| ==> !Lists(results[later], k))
      && m.descs.entries[k] == LastValue(results[i].items, k)
  {
    assert results != [];
    var n := |results| - 1;
    var prev := Listings(results[..n]);
    var tail := if results[n].Fetched? then PeerListings(n, results[n].items) else [];
    ListingsStep(results, n);
    assert results[..n + 1] == results;
    assert Listings(results) == prev + tail;
    var m := Merge(prev + tail);
    if Lists(results[n], k) {
      MergePeerListingWins(prev, n, results[n].items, k);
      assert m.owners[k] == n;
    } else {
      if results[n].Fetched? {
        PeerListingsOtherKeys(n, results[n].items, k);
      }
      MergeIgnoresOtherKeys(prev, tail, k);
      MergeOwnerIsLastLister(results[..n], k);
      var i := Merge(prev).owners[k];
      assert m.owners[k] == i;
      assert results[..n][i] == results[i];
      forall later | i < later < |results| ensures !Lists(results[later], k) {
        if later < n {
          assert results[..n][later] == results[later];
          assert !Lists(results[..n][later], k);
        } else {
          assert later == n;
        }
      }
    }
  }

  /** When no peer's fetch returned a dict, both maps are empty. */
  lemma {:induction false} AllFailedYieldsEmpty<V>(results: seq<FetchResult<V>>)
    requires forall i :: 0 <= i < |results| ==> !results[i].Fetched?
    ensures Merge(Listings(results)) == Merged(map[], Empty())
  {
    if results != [] {
      AllFailedYieldsEmpty(results[..|results| - 1]);
    }
  }

  /**
   * The iteration order of the descriptor dict is the order in which keys
   * first appear across the listings (see PyDict.FirstOccurrencesInOrder),
   * even though owner and descriptor come from the last listing.
   */
  lemma {:induction false} MergeKeyOrder<V>(ls: seq<Listing<V>>)
    ensures Merge(ls).descs.keys == FirstOccurrences(KeySeq(ls))
  {
    if ls != [] {
      var n := |ls| - 1;
      MergeKeyOrder(ls[..n]);
      var s := KeySeq(ls[..n]);
      assert KeySeq(ls) == s + [ls[n].key];
      assert (s + [ls[n].key])[..|s|] == s;
    }
  }

  /** A later peer never moves a key that is already aggregated: the old order is a prefix of the new one. */
  lemma MergeKeepsKeyPositions<V>(ls: seq<Listing<V>>, more: seq<Listing<V>>)
    ensures Merge(ls).descs.keys <= Merge(ls + more).descs.keys
  {
    MergeKeyOrder(ls);
    MergeKeyOrder(ls + more);
    KeySeqAppend(ls, more);
    FirstOccurrencesPrefix(KeySeq(ls), KeySeq(more));
  }

  /**
   * Two peers [A, B] both list a tool `greet`, with descriptors `a` and `b`:
   * the aggregated `greet` is B's, routed to B.
   */
  lemma LaterPeerWinsExample<V>(a: V, b: V)
    ensures var m := Merge(Listings([Fetched([("greet", a)]), Fetched([("greet", b)])]));
      "greet" in m.owners && m.owners["greet"] == 1 && m.descs.entries["greet"] == b
  {
    var rs := [Fetched([("greet", a)]), Fetched([("greet", b)])];
    assert rs[1].items[..0] == [];
    assert Lists(rs[1], "greet");
    MergedKeysAreListedKeys(rs, "greet");
    MergeOwnerIsLastLister(rs, "greet");
  }
}
