/**
 * The list updates the pages apply to their `useState` arrays after a
 * successful call: `list.filter(x => x.id !== id)` and
 * `list.map(x => x.id === updated.id ? updated : x)`. Each entity exposes
 * its identifier through `idOf`.
 */
module EntityLists {
  import opened Seqs

  /** The predicate `x => idOf(x) !== id`. */
  function IdIsNot<T>(idOf: T -> string, id: string): T -> bool
  {
    x => idOf(x) != id
  }

  /** `list.filter(x => x.id !== id)`. */
  function WithoutId<T>(list: seq<T>, idOf: T -> string, id: string): (r: seq<T>)
    ensures |r| <= |list|
    ensures forall x :: x in r ==> x in list && idOf(x) != id
    ensures forall x :: x in list && idOf(x) != id ==> x in r
  {
    Filter(list, IdIsNot(idOf, id))
  }

  /** Removal keeps the survivors in their original order. */
  lemma WithoutIdPreservesOrder<T>(list: seq<T>, idOf: T -> string, id: string) returns (idx: seq<nat>)
    ensures |idx| == |WithoutId(list, idOf, id)|
    ensures forall k :: 0 <= k < |idx| ==>
      idx[k] < |list| && list[idx[k]] == WithoutId(list, idOf, id)[k] && idOf(list[idx[k]]) != id
    ensures forall k, l :: 0 <= k < l < |idx| ==> idx[k] < idx[l]
  {
    idx := FilterPreservesOrder(list, IdIsNot(idOf, id));
  }

  /** Removing an identifier that no entry carries leaves the list as it was. */
  lemma WithoutAbsentId<T>(list: seq<T>, idOf: T -> string, id: string)
    requires forall x :: x in list ==> idOf(x) != id
    ensures WithoutId(list, idOf, id) == list
  {
    FilterKeepsAll(list, IdIsNot(idOf, id));
  }

  /** Removing the same identifier twice is removing it once. */
  lemma WithoutIdIdempotent<T>(list: seq<T>, idOf: T -> string, id: string)
    ensures WithoutId(WithoutId(list, idOf, id), idOf, id) == WithoutId(list, idOf, id)
  {
    FilterIdempotent(list, IdIsNot(idOf, id));
  }

  /** `list.map(x => x.id === updated.id ? updated : x)`. */
  function ReplaceById<T>(list: seq<T>, idOf: T -> string, updated: T): (r: seq<T>)
    ensures |r| == |list|
    ensures forall i :: 0 <= i < |list| && idOf(list[i]) == idOf(updated) ==> r[i] == updated
    ensures forall i :: 0 <= i < |list| && idOf(list[i]) != idOf(updated) ==> r[i] == list[i]
    decreases |list|
  {
    if list == [] then []
    else [if idOf(list[0]) == idOf(updated) then updated else list[0]] + ReplaceById(list[1..], idOf, updated)
  }

  /** Replacing keeps every position's identifier. */
  lemma ReplaceByIdKeepsIds<T>(list: seq<T>, idOf: T -> string, updated: T)
    ensures forall i :: 0 <= i < |list| ==> idOf(ReplaceById(list, idOf, updated)[i]) == idOf(list[i])
  {
  }

  /** Replacing with the same record twice is replacing once. */
  lemma ReplaceByIdIdempotent<T>(list: seq<T>, idOf: T -> string, updated: T)
    ensures ReplaceById(ReplaceById(list, idOf, updated), idOf, updated) == ReplaceById(list, idOf, updated)
  {
    var once := ReplaceById(list, idOf, updated);
    var twice := ReplaceById(once, idOf, updated);
    forall i | 0 <= i < |list|
      ensures twice[i] == once[i]
    {
    }
  }

  /** Nothing else changes: apart from the replaced identifier, the list is the same before and after. */
  lemma {:induction false} ReplaceByIdTouchesOnlyItsId<T>(list: seq<T>, idOf: T -> string, updated: T)
    ensures WithoutId(ReplaceById(list, idOf, updated), idOf, idOf(updated)) == WithoutId(list, idOf, idOf(updated))
    decreases |list|
  {
    if list != [] {
      ReplaceByIdTouchesOnlyItsId(list[1..], idOf, updated);
      var r := ReplaceById(list, idOf, updated);
      assert r[1..] == ReplaceById(list[1..], idOf, updated);
    }
  }

  /** `[x, ...list]`: the new entry first, everything else unchanged behind it. */
  function Prepended<T>(list: seq<T>, x: T): (r: seq<T>)
    ensures |r| == |list| + 1 && r[0] == x && r[1..] == list
  {
    [x] + list
  }

  /** No two entries share an identifier, as with records the server keys by id. */
  predicate UniqueIds<T>(list: seq<T>, idOf: T -> string)
  {
    forall i, j :: 0 <= i < j < |list| ==> idOf(list[i]) != idOf(list[j])
  }

  /** With unique identifiers, removing one that is present drops exactly one entry. */
  lemma {:induction false} WithoutPresentId<T>(list: seq<T>, idOf: T -> string, id: string)
    requires UniqueIds(list, idOf)
    requires exists x :: x in list && idOf(x) == id
    ensures |WithoutId(list, idOf, id)| == |list| - 1
    decreases |list|
  {
    var rest := list[1..];
    assert list == [list[0]] + rest;
    if idOf(list[0]) == id {
      forall x | x in rest ensures idOf(x) != id {
        var k :| 0 <= k < |rest| && rest[k] == x;
        assert list[k + 1] == x;
      }
      WithoutAbsentId(rest, idOf, id);
      assert WithoutId(list, idOf, id) == WithoutId(rest, idOf, id);
    } else {
      var x :| x in list && idOf(x) == id;
      assert x in rest;
      assert UniqueIds(rest, idOf) by {
        forall i, j | 0 <= i < j < |rest| ensures idOf(rest[i]) != idOf(rest[j]) {
          assert rest[i] == list[i + 1] && rest[j] == list[j + 1];
        }
      }
      WithoutPresentId(rest, idOf, id);
      assert WithoutId(list, idOf, id) == [list[0]] + WithoutId(rest, idOf, id);
    }
  }

  /** Removal keeps identifiers unique. */
  lemma WithoutIdKeepsUnique<T>(list: seq<T>, idOf: T -> string, id: string)
    requires UniqueIds(list, idOf)
    ensures UniqueIds(WithoutId(list, idOf, id), idOf)
  {
    var idx := WithoutIdPreservesOrder(list, idOf, id);
  }

  /** Prepending an entry with a fresh identifier keeps identifiers unique. */
  lemma PrependedKeepsUnique<T>(list: seq<T>, idOf: T -> string, x: T)
    requires UniqueIds(list, idOf)
    requires forall y :: y in list ==> idOf(y) != idOf(x)
    ensures UniqueIds(Prepended(list, x), idOf)
  {
    var r := Prepended(list, x);
    forall i, j | 0 <= i < j < |r| ensures idOf(r[i]) != idOf(r[j]) {
      assert r[j] == list[j - 1];
      if i > 0 {
        assert r[i] == list[i - 1];
      }
    }
  }
}
