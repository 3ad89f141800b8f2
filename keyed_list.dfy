/** The list expressions the admin editor uses on its two collections, each
    keyed by a record's identity: `find`, the replacing `map`, the appending
    spread and the removing `filter`. They are written once, for any record
    type, with the identity passed in as `key`. */
module KeyedList {
  import opened Types

  /** Some element of `s` carries the identity `id`. */
  ghost predicate HasId<T>(s: seq<T>, key: T -> string, id: string) {
    exists i :: 0 <= i < |s| && key(s[i]) == id
  }

  /** No two elements of `s` share an identity. */
  ghost predicate DistinctIds<T>(s: seq<T>, key: T -> string) {
    forall i, j :: 0 <= i < j < |s| ==> key(s[i]) != key(s[j])
  }

  /** `find(x => x.id === id)`: the first element with identity `id`, if any. */
  function Find<T>(s: seq<T>, key: T -> string, id: string): (r: Option<T>)
    ensures r.Some? <==> HasId(s, key, id)
    ensures r.Some? ==> exists i :: 0 <= i < |s| && s[i] == r.value && key(s[i]) == id && !HasId(s[..i], key, id)
  {
    if s == [] then None
    else if key(s[0]) == id then
      assert s[..0] == [];
      Some(s[0])
    else
      var r := Find(s[1..], key, id);
      assert HasId(s[1..], key, id) <==> HasId(s, key, id) by {
        if HasId(s, key, id) {
          var i :| 0 <= i < |s| && key(s[i]) == id;
          assert key(s[1..][i - 1]) == id;
        }
        if HasId(s[1..], key, id) {
          var i :| 0 <= i < |s[1..]| && key(s[1..][i]) == id;
          assert key(s[i + 1]) == id;
        }
      }
      if r.Some? then
        assert exists i :: 0 <= i < |s| && s[i] == r.value && key(s[i]) == id && !HasId(s[..i], key, id) by {
          var i :| 0 <= i < |s[1..]| && s[1..][i] == r.value && key(s[1..][i]) == id && !HasId(s[1..][..i], key, id);
          assert s[..i + 1] == [s[0]] + s[1..][..i];
          var prefix := s[..i + 1];
          assert !HasId(prefix, key, id) by {
            forall j | 0 <= j < |prefix| ensures key(prefix[j]) != id {
              if j > 0 { assert prefix[j] == s[1..][..i][j - 1]; }
            }
          }
          assert s[i + 1] == r.value && key(s[i + 1]) == id;
        }
        r
      else
        r
  }

  /** `map(x => x.id === d.id ? d : x)`: every element with d's identity
      becomes `d`, every other element stays where it was. */
  function ReplaceById<T>(s: seq<T>, key: T -> string, d: T): (r: seq<T>)
    ensures |r| == |s|
    ensures forall i :: 0 <= i < |s| ==> r[i] == (if key(s[i]) == key(d) then d else s[i])
  {
    if s == [] then []
    else [if key(s[0]) == key(d) then d else s[0]] + ReplaceById(s[1..], key, d)
  }

  /** The commit of a draft `d`: replace in place when its identity is
      already present, append it at the end otherwise. Either way the draft
      is in the result and is the only record there with its identity. */
  function Upsert<T>(s: seq<T>, key: T -> string, d: T): (r: seq<T>)
    ensures HasId(s, key, key(d)) ==>
              |r| == |s| && forall i :: 0 <= i < |s| ==> r[i] == (if key(s[i]) == key(d) then d else s[i])
    ensures !HasId(s, key, key(d)) ==> |r| == |s| + 1 && r[..|s|] == s && r[|s|] == d
    ensures d in r
    ensures forall i :: 0 <= i < |r| && key(r[i]) == key(d) ==> r[i] == d
  {
    if Find(s, key, key(d)).Some? then
      var r := ReplaceById(s, key, d);
      assert d in r by {
        var i :| 0 <= i < |s| && key(s[i]) == key(d);
        assert r[i] == d;
      }
      r
    else
      var r := s + [d];
      assert r[..|s|] == s;
      assert r[|s|] == d;
      r
  }

  /** `filter(x => x.id !== id)`: the elements whose identity differs from
      `id`, in their original order. */
  function RemoveById<T>(s: seq<T>, key: T -> string, id: string): (r: seq<T>)
    ensures |r| <= |s|
    ensures !HasId(r, key, id)
    ensures forall i :: 0 <= i < |r| ==> r[i] in s && key(r[i]) != id
    ensures forall i :: 0 <= i < |s| && key(s[i]) != id ==> s[i] in r
    ensures !HasId(s, key, id) ==> r == s
  {
    if s == [] then []
    else
      var rest := RemoveById(s[1..], key, id);
      assert !HasId(s, key, id) ==> !HasId(s[1..], key, id) by {
        if HasId(s[1..], key, id) {
          var i :| 0 <= i < |s[1..]| && key(s[1..][i]) == id;
          assert key(s[i + 1]) == id;
        }
      }
      if key(s[0]) == id then rest
      else
        var r := [s[0]] + rest;
        assert !HasId(r, key, id) by {
          forall k | 0 <= k < |r| ensures key(r[k]) != id {
            if k > 0 { assert r[k] == rest[k - 1]; }
          }
        }
        assert s == [s[0]] + s[1..];
        r
  }

  /** Removal works element by element, so it keeps the original order:
      filtering a concatenation is concatenating the filtered parts. */
  lemma {:induction false} RemoveByIdAppend<T>(a: seq<T>, b: seq<T>, key: T -> string, id: string)
    ensures RemoveById(a + b, key, id) == RemoveById(a, key, id) + RemoveById(b, key, id)
  {
    if a == [] {
      assert a + b == b;
    } else {
      var ab := a + b;
      assert ab[0] == a[0] && ab[1..] == a[1..] + b;
      RemoveByIdAppend(a[1..], b, key, id);
      var x, y := RemoveById(a[1..], key, id), RemoveById(b, key, id);
      if key(a[0]) != id {
        assert [a[0]] + (x + y) == ([a[0]] + x) + y;
      }
    }
  }

  /** Removal never introduces a repeated identity. */
  lemma {:induction false} RemoveKeepsIdsDistinct<T>(s: seq<T>, key: T -> string, id: string)
    requires DistinctIds(s, key)
    ensures DistinctIds(RemoveById(s, key, id), key)
  {
    if s != [] {
      var tail := s[1..];
      var rest := RemoveById(tail, key, id);
      assert DistinctIds(tail, key) by {
        forall i, j | 0 <= i < j < |tail| ensures key(tail[i]) != key(tail[j]) {
          assert tail[i] == s[i + 1] && tail[j] == s[j + 1];
        }
      }
      RemoveKeepsIdsDistinct(tail, key, id);
      if key(s[0]) != id {
        forall x | x in rest ensures key(x) != key(s[0]) {
          var k :| 0 <= k < |tail| && tail[k] == x;
          assert tail[k] == s[k + 1];
        }
        ConsKeepsIdsDistinct(s[0], rest, key);
      }
    }
  }

  /** Putting a record in front of a list keeps ids distinct when its id
      is not already there. */
  lemma ConsKeepsIdsDistinct<T>(x: T, s: seq<T>, key: T -> string)
    requires DistinctIds(s, key)
    requires forall y | y in s :: key(y) != key(x)
    ensures DistinctIds([x] + s, key)
  {
  }

  /** When identities are distinct, deleting one that is present removes
      exactly one record. */
  lemma {:induction false} RemovePresentShrinksByOne<T>(s: seq<T>, key: T -> string, id: string)
    requires DistinctIds(s, key)
    requires HasId(s, key, id)
    ensures |RemoveById(s, key, id)| == |s| - 1
  {
    assert s != [];
    if key(s[0]) == id {
      assert !HasId(s[1..], key, id) by {
        forall k | 0 <= k < |s[1..]| ensures key(s[1..][k]) != id {
          assert s[1..][k] == s[k + 1];
        }
      }
    } else {
      var i :| 0 <= i < |s| && key(s[i]) == id;
      assert key(s[1..][i - 1]) == id;
      RemovePresentShrinksByOne(s[1..], key, id);
    }
  }

  /** Committing a draft keeps the identities of the list pairwise distinct. */
  lemma UpsertKeepsIdsDistinct<T>(s: seq<T>, key: T -> string, d: T)
    requires DistinctIds(s, key)
    ensures DistinctIds(Upsert(s, key, d), key)
  {
  }

  /** Replacing by identity and then removing that identity is the same as
      removing it straight away. */
  lemma {:induction false} RemoveAfterReplace<T>(s: seq<T>, key: T -> string, d: T)
    ensures RemoveById(ReplaceById(s, key, d), key, key(d)) == RemoveById(s, key, key(d))
  {
    if s != [] {
      var r := ReplaceById(s, key, d);
      assert r[1..] == ReplaceById(s[1..], key, d);
      RemoveAfterReplace(s[1..], key, d);
    }
  }

  /** A commit touches nothing but the records with the draft's identity:
      every other record keeps its content and its relative order. */
  lemma RemoveAfterUpsert<T>(s: seq<T>, key: T -> string, d: T)
    ensures RemoveById(Upsert(s, key, d), key, key(d)) == RemoveById(s, key, key(d))
  {
    if HasId(s, key, key(d)) {
      RemoveAfterReplace(s, key, d);
    } else {
      RemoveByIdAppend(s, [d], key, key(d));
      assert RemoveById([d], key, key(d)) == [];
    }
  }

  /** Committing a draft with a fresh identity and then deleting it gives the
      list back unchanged. */
  lemma UpsertFreshThenRemove<T>(s: seq<T>, key: T -> string, d: T)
    requires !HasId(s, key, key(d))
    ensures RemoveById(Upsert(s, key, d), key, key(d)) == s
  {
    RemoveAfterUpsert(s, key, d);
  }

  /** A draft opened from the i-th record keeps that record's identity
      through its edits, so committing it replaces the record where it
      stands and the list keeps its length. */
  lemma EditedCopyReplacesInPlace<T>(s: seq<T>, key: T -> string, i: nat, d: T)
    requires i < |s| && key(d) == key(s[i])
    ensures |Upsert(s, key, d)| == |s| && Upsert(s, key, d)[i] == d
  {
  }

  /** Committing the same draft twice is the same as committing it once. */
  lemma UpsertIdempotent<T>(s: seq<T>, key: T -> string, d: T)
    ensures Upsert(Upsert(s, key, d), key, d) == Upsert(s, key, d)
  {
  }
}
