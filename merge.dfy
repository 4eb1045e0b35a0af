/**
 The map algebra behind the logger. Python's `dict.update` is the only
 operation the logger performs on field mappings: `add_context` updates the
 stored context with the caller's new fields, and `_combine_with_context`
 updates the caller's per-call fields with the stored context. Both are
 `Update` below; the order of its arguments is what decides which side wins
 a key collision.
 */
module Merge {

  /** Field names are Python keyword-argument names. */
  type Field = string

  /** `r` is `base` overridden by `overrides`: it holds the keys of both, a key of
      `overrides` maps to its value there, and any other key keeps its value
      from `base`. */
  ghost predicate Overrides<V>(r: map<Field, V>, base: map<Field, V>, overrides: map<Field, V>)
  {
    && r.Keys == base.Keys + overrides.Keys
    && (forall k :: k in overrides ==> r[k] == overrides[k])
    && (forall k :: k in base && k !in overrides ==> r[k] == base[k])
  }

  /** The mapping that `base.update(overrides)` leaves in `base`. */
  function Update<V>(base: map<Field, V>, overrides: map<Field, V>): (r: map<Field, V>)
    ensures Overrides(r, base, overrides)
  {
    base + overrides
  }

  /** `Overrides` pins the result down: a mapping is `base` overridden by
      `overrides` exactly when it is `Update(base, overrides)`. */
  lemma UpdateCharacterization<V>(r: map<Field, V>, base: map<Field, V>, overrides: map<Field, V>)
    ensures Overrides(r, base, overrides) <==> r == Update(base, overrides)
  {
  }

  /** Applying the same update a second time changes nothing. */
  lemma UpdateIdempotent<V>(base: map<Field, V>, overrides: map<Field, V>)
    ensures Update(Update(base, overrides), overrides) == Update(base, overrides)
  {
  }

  /** Updating with no fields leaves a mapping as it is, and updating an empty
      mapping yields exactly the fields supplied. */
  lemma UpdateWithEmpty<V>(m: map<Field, V>)
    ensures Update(m, map[]) == m
    ensures Update(map[], m) == m
  {
  }

  /** Two updates whose keys are disjoint can be applied in either order. */
  lemma UpdateDisjointCommutes<V>(base: map<Field, V>, a: map<Field, V>, b: map<Field, V>)
    requires a.Keys !! b.Keys
    ensures Update(Update(base, a), b) == Update(Update(base, b), a)
  {
  }

  /** The mapping left by the successive updates `updates[0]`, ...,
      `updates[|updates| - 1]` applied to `m`. A key is never removed. */
  function UpdateAll<V>(m: map<Field, V>, updates: seq<map<Field, V>>): (r: map<Field, V>)
    ensures m.Keys <= r.Keys
    decreases |updates|
  {
    if updates == [] then m
    else Update(UpdateAll(m, updates[..|updates| - 1]), updates[|updates| - 1])
  }

  /** Some update in `updates` carries key `k`. */
  ghost predicate Supplied<V>(updates: seq<map<Field, V>>, k: Field)
  {
    exists i :: 0 <= i < |updates| && k in updates[i]
  }

  /** No key is carried by two different updates. */
  ghost predicate PairwiseDisjoint<V>(updates: seq<map<Field, V>>)
  {
    forall i, j :: 0 <= i < j < |updates| ==> updates[i].Keys !! updates[j].Keys
  }

  /** After successive updates the keys are those of the start mapping and of
      every update. */
  lemma {:induction false} UpdateAllKeys<V>(m: map<Field, V>, updates: seq<map<Field, V>>)
    ensures forall k :: k in UpdateAll(m, updates) <==> k in m || Supplied(updates, k)
    decreases |updates|
  {
    if updates != [] {
      var n := |updates| - 1;
      var prefix := updates[..n];
      UpdateAllKeys(m, prefix);
      forall k ensures k in UpdateAll(m, updates) <==> k in m || Supplied(updates, k) {
        if Supplied(updates, k) {
          var i :| 0 <= i < |updates| && k in updates[i];
          if i < n {
            assert prefix[i] == updates[i];
            assert Supplied(prefix, k);
          }
        }
        if Supplied(prefix, k) {
          var i :| 0 <= i < |prefix| && k in prefix[i];
          assert prefix[i] == updates[i];
        }
        if k in updates[n] {
          assert Supplied(updates, k);
        }
      }
    }
  }

  /** Last write wins: a key takes its value from the last update that carries it. */
  lemma {:induction false} UpdateAllLastWriteWins<V>(m: map<Field, V>, updates: seq<map<Field, V>>, i: nat, k: Field)
    requires i < |updates| && k in updates[i]
    requires forall j :: i < j < |updates| ==> k !in updates[j]
    ensures k in UpdateAll(m, updates) && UpdateAll(m, updates)[k] == updates[i][k]
    decreases |updates|
  {
    var n := |updates| - 1;
    if i < n {
      var prefix := updates[..n];
      assert k !in updates[n];
      forall j | i < j < |prefix| ensures k !in prefix[j] {
        assert prefix[j] == updates[j];
      }
      UpdateAllLastWriteWins(m, prefix, i, k);
    }
  }

  /** A key that no update carries keeps its value from the start mapping. */
  lemma {:induction false} UpdateAllKeepsUnsupplied<V>(m: map<Field, V>, updates: seq<map<Field, V>>, k: Field)
    requires k in m && !Supplied(updates, k)
    ensures k in UpdateAll(m, updates) && UpdateAll(m, updates)[k] == m[k]
    decreases |updates|
  {
    if updates != [] {
      var n := |updates| - 1;
      var prefix := updates[..n];
      assert !Supplied(prefix, k) by {
        forall i | 0 <= i < |prefix| ensures k !in prefix[i] {
          assert prefix[i] == updates[i];
        }
      }
      UpdateAllKeepsUnsupplied(m, prefix, k);
      if k in updates[n] {
        assert Supplied(updates, k);
      }
    }
  }

  /** Updates with pairwise disjoint keys accumulate to their union: every
      supplied key maps to the value its update gave it, and every key of the
      start mapping that no update names keeps its value. */
  lemma UpdateAllDisjointIsUnion<V>(m: map<Field, V>, updates: seq<map<Field, V>>)
    requires PairwiseDisjoint(updates)
    ensures forall k :: k in UpdateAll(m, updates) <==> k in m || Supplied(updates, k)
    ensures forall i, k :: 0 <= i < |updates| && k in updates[i] ==>
              k in UpdateAll(m, updates) && UpdateAll(m, updates)[k] == updates[i][k]
    ensures forall k :: k in m && !Supplied(updates, k) ==>
              k in UpdateAll(m, updates) && UpdateAll(m, updates)[k] == m[k]
  {
    UpdateAllKeys(m, updates);
    forall i, k | 0 <= i < |updates| && k in updates[i]
      ensures k in UpdateAll(m, updates) && UpdateAll(m, updates)[k] == updates[i][k]
    {
      forall j | i < j < |updates| ensures k !in updates[j] {
        assert updates[i].Keys !! updates[j].Keys;
      }
      UpdateAllLastWriteWins(m, updates, i, k);
    }
    forall k | k in m && !Supplied(updates, k)
      ensures k in UpdateAll(m, updates) && UpdateAll(m, updates)[k] == m[k]
    {
      UpdateAllKeepsUnsupplied(m, updates, k);
    }
  }
}
