/** The three list updates every management view applies to its copy of a
    collection once the API has answered: replace the record with the edited
    id (`list.map(x => x.id === id ? saved : x)`), append a created record
    (`[...list, saved]`) and drop the records with a deleted id
    (`list.filter(x => x.id !== id)`).  `idOf` reads a record's id. */
module Crud {
  import opened Seqs
  import opened Domain

  predicate UniqueIds<T>(xs: seq<T>, idOf: T -> int) {
    forall i, j :: 0 <= i < j < |xs| ==> idOf(xs[i]) != idOf(xs[j])
  }

  predicate HasId<T>(xs: seq<T>, idOf: T -> int, id: int) {
    exists k :: 0 <= k < |xs| && idOf(xs[k]) == id
  }

  /** `list.find(x => x.id === id)` */
  function FindById<T>(xs: seq<T>, idOf: T -> int, id: int): (r: Option<T>)
    ensures r.None? <==> !HasId(xs, idOf, id)
    ensures r.Some? ==> (exists k :: 0 <= k < |xs| && xs[k] == r.value && idOf(xs[k]) == id &&
                          forall j :: 0 <= j < k ==> idOf(xs[j]) != id)
  {
    Find(xs, (x: T) => idOf(x) == id)
  }

  /** With unique ids, looking a record up by its id finds that record. */
  lemma FindByIdAt<T>(xs: seq<T>, idOf: T -> int, i: int)
    requires UniqueIds(xs, idOf) && 0 <= i < |xs|
    ensures FindById(xs, idOf, idOf(xs[i])) == Some(xs[i])
  {
    var found := FindById(xs, idOf, idOf(xs[i]));
    var m :| 0 <= m < |xs| && xs[m] == found.value && idOf(xs[m]) == idOf(xs[i]) &&
             forall j :: 0 <= j < m ==> idOf(xs[j]) != idOf(xs[i]);
    assert m == i;
  }

  function ReplaceById<T>(xs: seq<T>, idOf: T -> int, id: int, saved: T): (r: seq<T>)
    ensures |r| == |xs|
    ensures forall i :: 0 <= i < |xs| && idOf(xs[i]) != id ==> r[i] == xs[i]
    ensures forall i :: 0 <= i < |xs| && idOf(xs[i]) == id ==> r[i] == saved
  {
    Map(xs, (x: T) => if idOf(x) == id then saved else x)
  }

  function Append<T>(xs: seq<T>, saved: T): (r: seq<T>)
    ensures |r| == |xs| + 1 && r[..|xs|] == xs && r[|xs|] == saved
  {
    xs + [saved]
  }

  function RemoveById<T>(xs: seq<T>, idOf: T -> int, id: int): (r: seq<T>)
    ensures !HasId(r, idOf, id)
    ensures forall x | x in r :: x in xs
    ensures forall k :: 0 <= k < |xs| && idOf(xs[k]) != id ==> xs[k] in r
  {
    var r := Filter(xs, (x: T) => idOf(x) != id);
    assert forall k :: 0 <= k < |r| ==> idOf(r[k]) != id by {
      forall k | 0 <= k < |r| ensures idOf(r[k]) != id { assert r[k] in r; }
    }
    r
  }

  /** With unique ids, an update replaces exactly the one record at the
      position of the edited id. */
  lemma ReplaceUnique<T>(xs: seq<T>, idOf: T -> int, k: int, saved: T)
    requires UniqueIds(xs, idOf) && 0 <= k < |xs|
    ensures ReplaceById(xs, idOf, idOf(xs[k]), saved) == xs[k := saved]
  {
    var r := ReplaceById(xs, idOf, idOf(xs[k]), saved);
    forall i | 0 <= i < |xs| ensures r[i] == xs[k := saved][i] {
      if i != k {
        assert idOf(xs[i]) != idOf(xs[k]) by {
          if i < k { assert 0 <= i < k < |xs|; } else { assert 0 <= k < i < |xs|; }
        }
      }
    }
  }

  /** Removing an id no record has leaves the list as it was. */
  lemma RemoveAbsent<T>(xs: seq<T>, idOf: T -> int, id: int)
    requires !HasId(xs, idOf, id)
    ensures RemoveById(xs, idOf, id) == xs
  {
    FilterAll(xs, (x: T) => idOf(x) != id);
  }

  /** With unique ids, a delete removes exactly the one record at the
      position of the deleted id and keeps the others in order. */
  lemma RemoveUnique<T>(xs: seq<T>, idOf: T -> int, k: int)
    requires UniqueIds(xs, idOf) && 0 <= k < |xs|
    ensures RemoveById(xs, idOf, idOf(xs[k])) == xs[..k] + xs[k + 1..]
  {
    var id := idOf(xs[k]);
    var p := (x: T) => idOf(x) != id;
    assert xs == xs[..k] + ([xs[k]] + xs[k + 1..]);
    FilterConcat(xs[..k], [xs[k]] + xs[k + 1..], p);
    FilterConcat([xs[k]], xs[k + 1..], p);
    forall i | 0 <= i < |xs[..k]| ensures p(xs[..k][i]) {
      assert 0 <= i < k < |xs|;
    }
    var after := xs[k + 1..];
    forall i | 0 <= i < |after| ensures p(after[i]) {
      assert 0 <= k < k + 1 + i < |xs|;
    }
    FilterAll(xs[..k], p);
    FilterAll(after, p);
  }

  /** A delete keeps the ids of what is left unique. */
  lemma {:induction false} RemoveKeepsUnique<T>(xs: seq<T>, idOf: T -> int, id: int)
    requires UniqueIds(xs, idOf)
    ensures UniqueIds(RemoveById(xs, idOf, id), idOf)
  {
    FilterKeepsUnique(xs, idOf, (x: T) => idOf(x) != id);
  }

  lemma {:induction false} FilterKeepsUnique<T>(xs: seq<T>, idOf: T -> int, p: T -> bool)
    requires UniqueIds(xs, idOf)
    ensures UniqueIds(Filter(xs, p), idOf)
  {
    if xs != [] {
      var tail := xs[1..];
      assert UniqueIds(tail, idOf) by {
        forall i, j | 0 <= i < j < |tail| ensures idOf(tail[i]) != idOf(tail[j]) {
          assert 0 <= i + 1 < j + 1 < |xs|;
        }
      }
      FilterKeepsUnique(tail, idOf, p);
      if p(xs[0]) {
        var ft := Filter(tail, p);
        var r := [xs[0]] + ft;
        forall i, j | 0 <= i < j < |r| ensures idOf(r[i]) != idOf(r[j]) {
          if i == 0 {
            assert r[j] in tail;
            var m :| 0 <= m < |tail| && tail[m] == r[j];
            assert 0 < m + 1 < |xs| && xs[m + 1] == r[j];
          } else {
            assert r[i] == ft[i - 1] && r[j] == ft[j - 1];
          }
        }
      }
    }
  }
  /** An update that keeps the record's id keeps the ids unique. */
  lemma ReplaceKeepsUnique<T>(xs: seq<T>, idOf: T -> int, id: int, saved: T)
    requires UniqueIds(xs, idOf) && idOf(saved) == id
    ensures UniqueIds(ReplaceById(xs, idOf, id, saved), idOf)
  {
    var r := ReplaceById(xs, idOf, id, saved);
    assert forall i :: 0 <= i < |xs| ==> idOf(r[i]) == idOf(xs[i]);
  }

  /** A create whose id is new keeps the ids unique. */
  lemma AppendKeepsUnique<T>(xs: seq<T>, idOf: T -> int, saved: T)
    requires UniqueIds(xs, idOf) && !HasId(xs, idOf, idOf(saved))
    ensures UniqueIds(Append(xs, saved), idOf)
  {
    var r := Append(xs, saved);
    forall i, j | 0 <= i < j < |r| ensures idOf(r[i]) != idOf(r[j]) {
      if j == |xs| {
        assert r[i] == xs[i];
      } else {
        assert r[i] == xs[i] && r[j] == xs[j];
      }
    }
  }

  /** The list a management view holds after its form is submitted and the
      API has answered: the edited record (`editingId`) is replaced by the
      saved one, or the created one is appended; an answer without success
      leaves the list as it was. */
  function SubmitList<T>(xs: seq<T>, idOf: T -> int, editingId: Option<int>, response: ApiResponse<T>): (r: seq<T>)
    ensures !response.Saved? ==> r == xs
    ensures response.Saved? && editingId.Some? ==>
              |r| == |xs| &&
              forall i :: 0 <= i < |xs| ==> r[i] == (if idOf(xs[i]) == editingId.value then response.item else xs[i])
    ensures response.Saved? && editingId.None? ==> r == xs + [response.item]
  {
    if !response.Saved? then xs
    else if editingId.Some? then ReplaceById(xs, idOf, editingId.value, response.item)
    else Append(xs, response.item)
  }

  /** The server echoes the edited id on an update and gives a create a new
      id; under those answers a submit keeps the list's ids unique. */
  lemma SubmitKeepsUnique<T>(xs: seq<T>, idOf: T -> int, editingId: Option<int>, response: ApiResponse<T>)
    requires UniqueIds(xs, idOf)
    requires response.Saved? && editingId.Some? ==> idOf(response.item) == editingId.value
    requires response.Saved? && editingId.None? ==> !HasId(xs, idOf, idOf(response.item))
    ensures UniqueIds(SubmitList(xs, idOf, editingId, response), idOf)
  {
    if response.Saved? {
      if editingId.Some? {
        ReplaceKeepsUnique(xs, idOf, editingId.value, response.item);
      } else {
        AppendKeepsUnique(xs, idOf, response.item);
      }
    }
  }
}
