/** The three ways the admin store changes an id-keyed collection:
    append a record (`[...prev, x]`), rewrite the records with a given id
    (`prev.map(p => p.id === id ? f(p) : p)`) and drop the records with a
    given id (`prev.filter(p => p.id !== id)`). The record type is a
    parameter and `idOf` reads a record's id. */
module Collection {
  import opened Optional
  import Seqs

  /** The ids of the records, in order. */
  function Ids<T>(xs: seq<T>, idOf: T -> string): (r: seq<string>)
    ensures |r| == |xs|
    ensures forall i :: 0 <= i < |xs| ==> r[i] == idOf(xs[i])
  {
    if |xs| == 0 then [] else [idOf(xs[0])] + Ids(xs[1..], idOf)
  }

  /** No two records share an id. */
  predicate UniqueIds<T>(xs: seq<T>, idOf: T -> string) {
    forall i, j :: 0 <= i < j < |xs| ==> idOf(xs[i]) != idOf(xs[j])
  }

  /** No record has the id `id`. */
  predicate Fresh<T>(xs: seq<T>, idOf: T -> string, id: string) {
    forall i :: 0 <= i < |xs| ==> idOf(xs[i]) != id
  }

  function IdIs<T>(idOf: T -> string, id: string): T -> bool {
    x => idOf(x) == id
  }

  function IdIsNot<T>(idOf: T -> string, id: string): T -> bool {
    x => idOf(x) != id
  }

  /** The first record whose id is `id`, or `None` when no record has it
      (`xs.find(x => x.id === id)`). */
  function FindById<T>(xs: seq<T>, idOf: T -> string, id: string): (r: Option<T>)
    ensures r.None? <==> Fresh(xs, idOf, id)
    ensures r.Some? ==>
      (exists i :: 0 <= i < |xs| && xs[i] == r.value && idOf(r.value) == id &&
        Fresh(xs[..i], idOf, id))
  {
    var r := Seqs.Find(xs, IdIs(idOf, id));
    assert r.Some? ==>
      (exists i :: 0 <= i < |xs| && xs[i] == r.value && idOf(r.value) == id &&
        Fresh(xs[..i], idOf, id)) by {
      if r.Some? {
        var i :| 0 <= i < |xs| && xs[i] == r.value && IdIs(idOf, id)(xs[i]) &&
          (forall j :: 0 <= j < i ==> !IdIs(idOf, id)(xs[j]));
        forall j | 0 <= j < i ensures idOf(xs[..i][j]) != id {
          assert xs[..i][j] == xs[j];
          assert !IdIs(idOf, id)(xs[j]);
        }
      }
    }
    r
  }

  /** In a collection with unique ids, the record found for `id` is the only
      one carrying it. */
  lemma FindUnique<T>(xs: seq<T>, idOf: T -> string, id: string, i: int)
    requires UniqueIds(xs, idOf)
    requires 0 <= i < |xs| && idOf(xs[i]) == id
    ensures FindById(xs, idOf, id) == Some(xs[i])
  {
    var r := FindById(xs, idOf, id);
    var k :| 0 <= k < |xs| && xs[k] == r.value && idOf(r.value) == id &&
      Fresh(xs[..k], idOf, id);
    if k != i {
      assert false;
    }
  }

  /** Every record whose id is `id` replaced by `f` of it; the others, and
      the order, unchanged. */
  function UpdateById<T>(xs: seq<T>, idOf: T -> string, id: string, f: T -> T): (r: seq<T>)
    ensures |r| == |xs|
    ensures forall i :: 0 <= i < |xs| && idOf(xs[i]) == id ==> r[i] == f(xs[i])
    ensures forall i :: 0 <= i < |xs| && idOf(xs[i]) != id ==> r[i] == xs[i]
  {
    Seqs.MapWhere(xs, IdIs(idOf, id), f)
  }

  /** The records whose id is not `id`, in their original order. */
  function DeleteById<T>(xs: seq<T>, idOf: T -> string, id: string): (r: seq<T>)
    ensures |r| <= |xs|
    ensures Fresh(r, idOf, id)
    ensures forall i :: 0 <= i < |r| ==> r[i] in xs
    ensures forall x | x in xs && idOf(x) != id :: x in r
  {
    Seqs.Filter(xs, IdIsNot(idOf, id))
  }

  /** Deleting keeps the survivors in their original relative order: it
      distributes over concatenation. */
  lemma DeleteKeepsOrder<T>(xs: seq<T>, ys: seq<T>, idOf: T -> string, id: string)
    ensures DeleteById(xs + ys, idOf, id) == DeleteById(xs, idOf, id) + DeleteById(ys, idOf, id)
  {
    Seqs.FilterAppend(xs, ys, IdIsNot(idOf, id));
  }

  /** Updating an id no record carries changes nothing. */
  lemma UpdateMissing<T>(xs: seq<T>, idOf: T -> string, id: string, f: T -> T)
    requires Fresh(xs, idOf, id)
    ensures UpdateById(xs, idOf, id, f) == xs
  {
  }

  /** Deleting an id no record carries changes nothing. */
  lemma DeleteMissing<T>(xs: seq<T>, idOf: T -> string, id: string)
    requires Fresh(xs, idOf, id)
    ensures DeleteById(xs, idOf, id) == xs
  {
    Seqs.FilterKeepsAll(xs, IdIsNot(idOf, id));
  }

  /** Deleting the same id twice is deleting it once. */
  lemma DeleteIdempotent<T>(xs: seq<T>, idOf: T -> string, id: string)
    ensures DeleteById(DeleteById(xs, idOf, id), idOf, id) == DeleteById(xs, idOf, id)
  {
    Seqs.FilterIdempotent(xs, IdIsNot(idOf, id));
  }

  /** Applying an idempotent rewrite twice is applying it once, whether or not
      the rewrite changes the id. */
  lemma UpdateIdempotent<T>(xs: seq<T>, idOf: T -> string, id: string, f: T -> T)
    requires forall x | x in xs :: f(f(x)) == f(x)
    ensures UpdateById(UpdateById(xs, idOf, id, f), idOf, id, f) == UpdateById(xs, idOf, id, f)
  {
    var once := UpdateById(xs, idOf, id, f);
    var twice := UpdateById(once, idOf, id, f);
    forall i | 0 <= i < |xs| ensures twice[i] == once[i] {
      if idOf(xs[i]) == id {
        assert xs[i] in xs;
      }
    }
  }

  /** A rewrite that keeps ids keeps the id list, so it keeps ids unique. */
  lemma UpdateKeepsIds<T>(xs: seq<T>, idOf: T -> string, id: string, f: T -> T)
    requires forall x | x in xs :: idOf(f(x)) == idOf(x)
    ensures Ids(UpdateById(xs, idOf, id, f), idOf) == Ids(xs, idOf)
    ensures UniqueIds(xs, idOf) ==> UniqueIds(UpdateById(xs, idOf, id, f), idOf)
  {
    var r := UpdateById(xs, idOf, id, f);
    assert forall i :: 0 <= i < |xs| ==> idOf(r[i]) == idOf(xs[i]) by {
      forall i | 0 <= i < |xs| ensures idOf(r[i]) == idOf(xs[i]) {
        assert xs[i] in xs;
      }
    }
  }

  /** Appending a record with a fresh id to a collection with unique ids
      keeps them unique. */
  lemma AppendFreshKeepsUnique<T>(xs: seq<T>, idOf: T -> string, x: T)
    requires UniqueIds(xs, idOf)
    requires Fresh(xs, idOf, idOf(x))
    ensures UniqueIds(xs + [x], idOf)
  {
  }

  lemma {:induction false} UniqueIdsCons<T>(x: T, ys: seq<T>, idOf: T -> string)
    ensures UniqueIds([x] + ys, idOf) <==> Fresh(ys, idOf, idOf(x)) && UniqueIds(ys, idOf)
  {
    var xs := [x] + ys;
    if UniqueIds(xs, idOf) {
      forall i | 0 <= i < |ys| ensures idOf(ys[i]) != idOf(x) {
        assert xs[0] == x && xs[i + 1] == ys[i];
        assert idOf(xs[0]) != idOf(xs[i + 1]);
      }
      forall i, j | 0 <= i < j < |ys| ensures idOf(ys[i]) != idOf(ys[j]) {
        assert xs[i + 1] == ys[i] && xs[j + 1] == ys[j];
      }
    }
    if Fresh(ys, idOf, idOf(x)) && UniqueIds(ys, idOf) {
      forall i, j | 0 <= i < j < |xs| ensures idOf(xs[i]) != idOf(xs[j]) {
        assert xs[j] == ys[j - 1];
        if i > 0 {
          assert xs[i] == ys[i - 1];
        }
      }
    }
  }

  /** Deleting keeps ids unique: what is left is a subsequence. */
  lemma {:induction false} DeleteKeepsUnique<T>(xs: seq<T>, idOf: T -> string, id: string)
    requires UniqueIds(xs, idOf)
    ensures UniqueIds(DeleteById(xs, idOf, id), idOf)
  {
    if |xs| > 0 {
      UniqueIdsCons(xs[0], xs[1..], idOf);
      assert [xs[0]] + xs[1..] == xs;
      DeleteKeepsUnique(xs[1..], idOf, id);
      var rest := DeleteById(xs[1..], idOf, id);
      if idOf(xs[0]) != id {
        assert Fresh(rest, idOf, idOf(xs[0])) by {
          forall i | 0 <= i < |rest| ensures idOf(rest[i]) != idOf(xs[0]) {
            assert rest[i] in xs[1..];
          }
        }
        UniqueIdsCons(xs[0], rest, idOf);
      }
    }
  }

  /** In a collection with unique ids, deleting an id that is present removes
      exactly one record. */
  lemma {:induction false} DeletePresentUnique<T>(xs: seq<T>, idOf: T -> string, id: string)
    requires UniqueIds(xs, idOf)
    requires !Fresh(xs, idOf, id)
    ensures |DeleteById(xs, idOf, id)| == |xs| - 1
  {
    UniqueIdsCons(xs[0], xs[1..], idOf);
    assert [xs[0]] + xs[1..] == xs;
    if idOf(xs[0]) == id {
      DeleteMissing(xs[1..], idOf, id);
    } else {
      var k :| 0 <= k < |xs| && idOf(xs[k]) == id;
      assert xs[1..][k - 1] == xs[k];
      DeletePresentUnique(xs[1..], idOf, id);
    }
  }

  /** Appending a record with a fresh id and deleting that id restores the
      collection. */
  lemma AppendThenDelete<T>(xs: seq<T>, idOf: T -> string, x: T)
    requires Fresh(xs, idOf, idOf(x))
    ensures DeleteById(xs + [x], idOf, idOf(x)) == xs
  {
    var p := IdIsNot(idOf, idOf(x));
    Seqs.FilterAppend(xs, [x], p);
    DeleteMissing(xs, idOf, idOf(x));
    assert Seqs.Filter([x], p) == [];
  }

  /** Appending a record with a fresh id, rewriting that id with a rewrite that
      keeps ids, and deleting the id restores the collection. */
  lemma AppendUpdateDelete<T>(xs: seq<T>, idOf: T -> string, x: T, f: T -> T)
    requires Fresh(xs, idOf, idOf(x))
    requires idOf(f(x)) == idOf(x)
    ensures DeleteById(UpdateById(xs + [x], idOf, idOf(x), f), idOf, idOf(x)) == xs
  {
    var id := idOf(x);
    assert UpdateById(xs + [x], idOf, id, f) == xs + [f(x)];
    AppendThenDelete(xs, idOf, f(x));
  }
}
