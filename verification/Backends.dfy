/** The storage backends, seen as one store of blobs addressed by (backend, location). */
module Backends {
  import opened Base
  import opened Layout

  /** Locations stand for the random names a backend hands out: numbers never used before. */
  datatype Address = Address(backend: BackendId, location: nat)

  type Blobs = map<Address, Bytes>

  /** What reading an address yields while the backends in `down` refuse all reads. */
  function Read(blobs: Blobs, down: set<BackendId>, a: Address): Option<Bytes> {
    if a.backend in down || a !in blobs then None else Some(blobs[a])
  }

  /** Every blob of `before` is still there, unchanged. */
  ghost predicate Keeps(before: Blobs, after: Blobs) {
    forall a :: a in before ==> a in after && after[a] == before[a]
  }

  /** Nothing was removed, and what was added got addresses never used before. */
  ghost predicate Added(before: Blobs, used: set<Address>, after: Blobs) {
    Keeps(before, after) && forall a :: a in after ==> a in before || a !in used
  }

  /** Nothing but the given addresses was removed, and nothing was added. */
  ghost predicate OnlyRemoved(before: Blobs, after: Blobs, gone: set<Address>) {
    Keeps(after, before) && before.Keys <= after.Keys + gone
  }

  /** The store after uploads only: blobs were added, and their addresses are used from now on. */
  ghost predicate Grew(before: Blobs, used: set<Address>, after: Blobs, usedAfter: set<Address>) {
    Added(before, used, after) && usedAfter == used + after.Keys
  }

  lemma GrewTwice(a: Blobs, u: set<Address>, b: Blobs, v: set<Address>, c: Blobs, w: set<Address>)
    requires Grew(a, u, b, v) && Grew(b, v, c, w)
    ensures Grew(a, u, c, w)
  {
  }

  class BlobStore {
    var blobs: Blobs
    var nextName: nat
    /** Every address handed out so far. */
    ghost var used: set<Address>
    /** The registered backends and the largest object each accepts. */
    const limits: map<BackendId, nat>

    /** Names are below the next one, and every blob fits its backend. */
    ghost predicate Valid()
      reads this
    {
      && blobs.Keys <= used && (forall a :: a in used ==> a.location < nextName)
      && (forall a :: a in blobs ==> a.backend in limits && |blobs[a]| <= limits[a.backend])
    }

    constructor (limits: map<BackendId, nat>)
      ensures Valid() && blobs == map[] && used == {} && this.limits == limits
    {
      blobs, nextName, used, this.limits := map[], 0, {}, limits;
    }

    /** Stores a copy under a new name, unless it exceeds the backend's limit or the backend refuses. `refused` has the
        addresses at which backends refuse puts; what a call sees of them is arbitrary. */
    method PutShard(b: BackendId, data: Bytes, refused: set<Address>) returns (r: Option<nat>)
      requires Valid()
      modifies this
      ensures Valid() && nextName >= old(nextName) && Grew(old(blobs), old(used), blobs, used)
      ensures r.Some? <==> b in limits && |data| <= limits[b] && Address(b, old(nextName)) !in refused
      ensures r.None? ==> blobs == old(blobs)
      ensures r.Some? ==> r.value == old(nextName) < nextName && blobs == old(blobs)[Address(b, r.value) := data]
    {
      if b !in limits || |data| > limits[b] || Address(b, nextName) in refused {
        return None;
      }
      r := Some(nextName);
      blobs := blobs[Address(b, nextName) := data];
      used := used + {Address(b, nextName)};
      nextName := nextName + 1;
    }

    method GetShard(b: BackendId, location: nat, down: set<BackendId>) returns (r: Option<Bytes>)
      ensures r == Read(blobs, down, Address(b, location))
    {
      if b in down || Address(b, location) !in blobs {
        return None;
      }
      return Some(blobs[Address(b, location)]);
    }

    /** Removes a blob; fails, removing nothing, when there is none or the backend refuses. */
    method DeleteShard(b: BackendId, location: nat, refused: set<Address>) returns (ok: bool)
      requires Valid()
      modifies this`blobs
      ensures Valid()
      ensures ok <==> Address(b, location) in old(blobs) && Address(b, location) !in refused
      ensures blobs == if ok then old(blobs) - {Address(b, location)} else old(blobs)
    {
      if Address(b, location) !in blobs || Address(b, location) in refused {
        return false;
      }
      blobs := blobs - {Address(b, location)};
      return true;
    }
  }
}
