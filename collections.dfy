/**
 * The add / update / delete operations of the content store, identical for every
 * collection and keyed on the record's `id`: `[...prev, r]`,
 * `prev.map(x => x.id === oldId ? r : x)` and `prev.filter(x => x.id !== id)`.
 * They are generic over the record type; `id` selects the key.
 */
module Collections {
  import opened Seqs

  /** Appends `r`: one element more, the earlier ones unchanged and in order. */
  function Add<T>(s: seq<T>, r: T): (t: seq<T>)
    ensures |t| == |s| + 1 && t[..|s|] == s && t[|s|] == r
  {
    s + [r]
  }

  function Replace<T, K(==)>(id: T -> K, oldId: K, r: T): T -> T {
    x => if id(x) == oldId then r else x
  }

  /** Replaces every record whose id is `oldId` by `r`. */
  function Update<T, K(==)>(s: seq<T>, id: T -> K, oldId: K, r: T): (t: seq<T>)
    ensures |t| == |s|
  {
    Map(s, Replace(id, oldId, r))
  }

  /** Records with the id become `r`; all the others keep their value and their place. */
  lemma UpdateAt<T, K>(s: seq<T>, id: T -> K, oldId: K, r: T, i: int)
    requires 0 <= i < |s|
    ensures id(s[i]) == oldId ==> Update(s, id, oldId, r)[i] == r
    ensures id(s[i]) != oldId ==> Update(s, id, oldId, r)[i] == s[i]
  {
  }

  /** An id that no record has leaves the collection as it was. */
  lemma UpdateNoMatch<T, K>(s: seq<T>, id: T -> K, oldId: K, r: T)
    requires forall i :: 0 <= i < |s| ==> id(s[i]) != oldId
    ensures Update(s, id, oldId, r) == s
  {
    assert forall i :: 0 <= i < |s| ==> Update(s, id, oldId, r)[i] == s[i];
  }

  /** A replacement that keeps the id (as the editors do) keeps the ids of the collection. */
  lemma UpdateKeepsIds<T, K>(s: seq<T>, id: T -> K, oldId: K, r: T)
    requires id(r) == oldId
    ensures Map(Update(s, id, oldId, r), id) == Map(s, id)
  {
    var t := Update(s, id, oldId, r);
    forall i | 0 <= i < |s| ensures id(t[i]) == id(s[i]) {
      UpdateAt(s, id, oldId, r, i);
    }
  }

  /** Saving the same edit twice changes nothing the second time. */
  lemma UpdateIdempotent<T, K>(s: seq<T>, id: T -> K, oldId: K, r: T)
    requires id(r) == oldId
    ensures Update(Update(s, id, oldId, r), id, oldId, r) == Update(s, id, oldId, r)
  {
    var t := Update(s, id, oldId, r);
    forall i | 0 <= i < |s| ensures Update(t, id, oldId, r)[i] == t[i] {
      UpdateAt(s, id, oldId, r, i);
      UpdateAt(t, id, oldId, r, i);
    }
  }

  /** Updating a record just added, under a fresh id, leaves the replacement in its place. */
  lemma UpdateAdded<T, K>(s: seq<T>, id: T -> K, r: T, r2: T)
    requires forall i :: 0 <= i < |s| ==> id(s[i]) != id(r)
    ensures Update(Add(s, r), id, id(r), r2) == s + [r2]
  {
    var t := Update(Add(s, r), id, id(r), r2);
    forall i | 0 <= i < |s| + 1 ensures t[i] == (s + [r2])[i] {
      UpdateAt(Add(s, r), id, id(r), r2, i);
    }
  }

  function Keeps<T, K(==)>(id: T -> K, k: K): T -> bool {
    x => id(x) != k
  }

  lemma KeepsApply<T, K>(id: T -> K, k: K, x: T)
    ensures Keeps(id, k)(x) == (id(x) != k)
  {
  }

  /** Removes every record whose id is `k`. */
  function Delete<T, K(==)>(s: seq<T>, id: T -> K, k: K): (t: seq<T>)
    ensures |t| <= |s|
  {
    Filter(s, Keeps(id, k))
  }

  /** Exactly the records with another id remain. */
  lemma DeleteMembership<T, K>(s: seq<T>, id: T -> K, k: K, x: T)
    ensures x in Delete(s, id, k) <==> x in s && id(x) != k
  {
    FilterMembership(s, Keeps(id, k), x);
    KeepsApply(id, k, x);
  }

  /** The remaining records keep their relative order: deleting from a concatenation deletes from each part. */
  lemma DeleteConcat<T, K>(a: seq<T>, b: seq<T>, id: T -> K, k: K)
    ensures Delete(a + b, id, k) == Delete(a, id, k) + Delete(b, id, k)
  {
    FilterConcat(a, b, Keeps(id, k));
  }

  /** A second delete of the same id changes nothing. */
  lemma DeleteIdempotent<T, K>(s: seq<T>, id: T -> K, k: K)
    ensures Delete(Delete(s, id, k), id, k) == Delete(s, id, k)
  {
    FilterIdempotent(s, Keeps(id, k));
  }

  /** Deleting an id that no record has leaves the collection as it was. */
  lemma DeleteNoMatch<T, K>(s: seq<T>, id: T -> K, k: K)
    requires forall i :: 0 <= i < |s| ==> id(s[i]) != k
    ensures Delete(s, id, k) == s
  {
    forall i | 0 <= i < |s| ensures Keeps(id, k)(s[i]) {
      KeepsApply(id, k, s[i]);
    }
    FilterAll(s, Keeps(id, k));
  }

  /** Deleting the id of a record just added undoes the addition, and any older record with that id. */
  lemma DeleteAdded<T, K>(s: seq<T>, id: T -> K, r: T)
    ensures Delete(Add(s, r), id, id(r)) == Delete(s, id, id(r))
  {
    DeleteConcat(s, [r], id, id(r));
    KeepsApply(id, id(r), r);
    FilterSingle(r, Keeps(id, id(r)));
  }

  /** Deleting an id that exactly one record has shortens the collection by exactly one. */
  lemma DeleteUnique<T, K>(s: seq<T>, id: T -> K, k: K, j: int)
    requires 0 <= j < |s| && id(s[j]) == k
    requires forall i :: 0 <= i < |s| && i != j ==> id(s[i]) != k
    ensures |Delete(s, id, k)| == |s| - 1
  {
    forall i | 0 <= i < |s| ensures Keeps(id, k)(s[i]) == (i != j) {
      KeepsApply(id, k, s[i]);
    }
    CountIfAllBut(s, Keeps(id, k), j);
    FilterLength(s, Keeps(id, k));
  }
}
