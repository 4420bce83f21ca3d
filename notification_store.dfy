/**
  The process-wide notification registry: a map from a Farcaster account id
  (fid) to the push-delivery credential of that account's client. The source
  keeps it in a module-level `Map` that `set` and `delete` change in place;
  here it is one `Registry` object whose `store` field those methods reassign.
*/
module NotificationStore {
  import opened Js

  /** A push-delivery credential: the endpoint URL and the bearer token. The
      registry does not check them; an empty string stands for a missing one. */
  datatype Details = Details(url: string, token: string)

  /** No element of `s` occurs twice. */
  predicate Distinct(s: seq<int>) {
    forall i, j :: 0 <= i < j < |s| ==> s[i] != s[j]
  }

  /** A set is empty or has an element (what `:|` needs to pick a key). */
  lemma EmptyOrInhabited(s: set<int>)
    ensures s == {} || exists x :: x in s
  {
    if !(exists x :: x in s) {
      assert s == {};
    }
  }

  class Registry {
    var store: map<int, Details>

    /** The registry starts empty when the process starts. */
    constructor ()
      ensures store == map[]
    {
      store := map[];
    }

    /** `get(fid)`: the stored credential, or nothing when fid is not registered. */
    function Get(fid: int): (r: Option<Details>)
      reads this
      ensures r.Some? <==> fid in store
      ensures r.Some? ==> r.value == store[fid]
    {
      if fid in store then Some(store[fid]) else None
    }

    /** `has(fid)`: whether fid is registered. */
    function Has(fid: int): (b: bool)
      reads this
      ensures b <==> Get(fid).Some?
    {
      fid in store
    }

    /** `count()`: the number of registered accounts. */
    function Count(): (n: nat)
      reads this
      ensures n == |store.Keys|
    {
      |store|
    }

    /** `set(fid, details)`: last write wins; every other entry is kept. */
    method Set(fid: int, details: Details)
      modifies this
      ensures store == old(store)[fid := details]
      ensures Get(fid) == Some(details) && Has(fid)
      ensures forall k :: k != fid ==> Get(k) == old(Get(k))
      ensures Count() == old(Count()) + (if old(Has(fid)) then 0 else 1)
    {
      store := store[fid := details];
    }

    /** `delete(fid)`: reports whether fid was registered, and removes it. */
    method Delete(fid: int) returns (existed: bool)
      modifies this
      ensures existed <==> old(Has(fid))
      ensures store == old(store) - {fid}
      ensures !Has(fid) && Get(fid) == None
      ensures forall k :: k != fid ==> Get(k) == old(Get(k))
      ensures !existed ==> store == old(store)
      ensures Count() == old(Count()) - (if existed then 1 else 0)
    {
      existed := fid in store;
      store := store - {fid};
    }

    /** `getAllFids()`: every registered fid exactly once, nothing else. The
        source lists the keys in insertion order; this model fixes no order. */
    method GetAllFids() returns (fids: seq<int>)
      ensures forall k :: k in fids <==> Has(k)
      ensures Distinct(fids)
      ensures |fids| == Count()
    {
      fids := [];
      var rest := store.Keys;
      while rest != {}
        invariant rest <= store.Keys
        invariant forall k :: k in fids <==> k in store && k !in rest
        invariant Distinct(fids)
        invariant |fids| + |rest| == |store|
        decreases |rest|
      {
        EmptyOrInhabited(rest);
        var fid :| fid in rest;
        fids := fids + [fid];
        rest := rest - {fid};
      }
    }
  }

  /** Storing the same credential twice leaves the same registry as storing it once. */
  lemma SetIdempotent(m: map<int, Details>, fid: int, d: Details)
    ensures m[fid := d][fid := d] == m[fid := d]
  {
  }

  /** Deleting twice leaves the same registry as deleting once. */
  lemma DeleteIdempotent(m: map<int, Details>, fid: int)
    ensures (m - {fid}) - {fid} == m - {fid}
  {
  }
}
