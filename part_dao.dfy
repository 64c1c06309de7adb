/**
 * The Room DAO of data/PartDao.kt, seen as the table it manages: one row per
 * primary key, insert-or-replace on conflict, delete by key, delete all.
 */
module PartDaoModel {
  import opened Wrappers
  import opened PartEntity

  /** A table keyed by primary key: every row sits under its own `partNumber`. */
  ghost predicate KeyedBy(m: map<string, Part>) {
    forall k :: k in m ==> m[k].partNumber == k
  }

  /** Insert with `OnConflictStrategy.REPLACE`: the row for `p.partNumber` becomes `p`. */
  function Upsert(m: map<string, Part>, p: Part): map<string, Part> {
    m[p.partNumber := p]
  }

  /** Upserting every element of `ps` in list order. */
  function UpsertAll(m: map<string, Part>, ps: seq<Part>): map<string, Part>
    decreases |ps|
  {
    if ps == [] then m else Upsert(UpsertAll(m, ps[..|ps| - 1]), ps[|ps| - 1])
  }

  /** The position of the last element of `ps` whose key is `k`, if any. */
  function LastWithKey(ps: seq<Part>, k: string): (r: Option<nat>)
    ensures r.Some? ==> r.value < |ps| && ps[r.value].partNumber == k
    ensures r.Some? ==> forall j :: r.value < j < |ps| ==> ps[j].partNumber != k
    ensures r.None? ==> forall j :: 0 <= j < |ps| ==> ps[j].partNumber != k
  {
    if ps == [] then None
    else if ps[|ps| - 1].partNumber == k then Some(|ps| - 1)
    else LastWithKey(ps[..|ps| - 1], k)
  }

  /** Upserting keeps the table keyed by primary key. */
  lemma {:induction false} UpsertAllKeyedBy(m: map<string, Part>, ps: seq<Part>)
    requires KeyedBy(m)
    ensures KeyedBy(UpsertAll(m, ps))
  {
    if ps != [] {
      UpsertAllKeyedBy(m, ps[..|ps| - 1]);
    }
  }

  /**
   * After upserting `ps`, a key holds the last element of `ps` with that key;
   * a key that no element of `ps` has keeps its old row, or stays absent.
   */
  lemma {:induction false} UpsertAllLookup(m: map<string, Part>, ps: seq<Part>, k: string)
    ensures LastWithKey(ps, k).Some? ==>
      k in UpsertAll(m, ps) && UpsertAll(m, ps)[k] == ps[LastWithKey(ps, k).value]
    ensures LastWithKey(ps, k).None? ==>
      (k in UpsertAll(m, ps) <==> k in m) && (k in m ==> UpsertAll(m, ps)[k] == m[k])
  {
    if ps != [] {
      var init := ps[..|ps| - 1];
      UpsertAllLookup(m, init, k);
      if ps[|ps| - 1].partNumber != k {
        assert LastWithKey(ps, k) == LastWithKey(init, k);
        if LastWithKey(init, k).Some? {
          assert init[LastWithKey(init, k).value] == ps[LastWithKey(init, k).value];
        }
      }
    }
  }

  /** Upserting into an empty table: exactly the keys of `ps`, the last duplicate winning. */
  lemma UpsertAllFresh(ps: seq<Part>, k: string)
    ensures k in UpsertAll(map[], ps) <==> exists i :: 0 <= i < |ps| && ps[i].partNumber == k
    ensures k in UpsertAll(map[], ps) ==> UpsertAll(map[], ps)[k] == ps[LastWithKey(ps, k).value]
  {
    UpsertAllLookup(map[], ps, k);
  }

  class PartDao {
    /** The `parts` table, indexed by primary key. */
    var rows: map<string, Part>

    ghost predicate Valid()
      reads this
    {
      KeyedBy(rows)
    }

    /** `p` is a row of the table. */
    predicate Stored(p: Part)
      reads this
    {
      p.partNumber in rows && rows[p.partNumber] == p
    }

    constructor ()
      ensures Valid() && rows == map[]
    {
      rows := map[];
    }

    /** `getPartByNumber`: the row whose primary key is `partNumber`, or null. */
    method GetPartByNumber(partNumber: string) returns (r: Option<Part>)
      requires Valid()
      ensures r.Some? ==> Stored(r.value) && r.value.partNumber == partNumber
      ensures r.None? ==> forall p :: Stored(p) ==> p.partNumber != partNumber
    {
      if partNumber in rows {
        r := Some(rows[partNumber]);
      } else {
        r := None;
      }
    }

    /** `getAllParts`: every row once, in no promised order. */
    method GetAllParts() returns (ps: seq<Part>)
      requires Valid()
      ensures forall p :: p in ps <==> Stored(p)
      ensures forall i, j :: 0 <= i < j < |ps| ==> ps[i].partNumber != ps[j].partNumber
    {
      ps := [];
      var remaining := rows.Keys;
      while remaining != {}
        invariant remaining <= rows.Keys
        invariant forall p :: p in ps ==> Stored(p) && p.partNumber !in remaining
        invariant forall k :: k in rows && k !in remaining ==> rows[k] in ps
        invariant forall i, j :: 0 <= i < j < |ps| ==> ps[i].partNumber != ps[j].partNumber
        decreases remaining
      {
        var k :| k in remaining;
        ps := ps + [rows[k]];
        remaining := remaining - {k};
      }
    }

    /** `insertPart`: insert, replacing the row with the same primary key. */
    method InsertPart(p: Part)
      requires Valid()
      modifies this
      ensures Valid()
      ensures rows == Upsert(old(rows), p)
    {
      rows := rows[p.partNumber := p];
    }

    /** `insertParts`: each row inserted in list order, replacing on conflict. */
    method InsertParts(ps: seq<Part>)
      requires Valid()
      modifies this
      ensures Valid()
      ensures rows == UpsertAll(old(rows), ps)
    {
      var i := 0;
      while i < |ps|
        invariant 0 <= i <= |ps|
        invariant rows == UpsertAll(old(rows), ps[..i])
        invariant Valid()
      {
        assert ps[..i + 1][..i] == ps[..i];
        rows := rows[ps[i].partNumber := ps[i]];
        i := i + 1;
      }
      assert ps[..i] == ps;
    }

    /** `@Delete deletePart`: removes the row with `p`'s primary key. */
    method DeletePart(p: Part)
      requires Valid()
      modifies this
      ensures Valid()
      ensures rows == old(rows) - {p.partNumber}
    {
      rows := rows - {p.partNumber};
    }

    /** `deleteAllParts`: empty the table. */
    method DeleteAllParts()
      modifies this
      ensures Valid() && rows == map[]
    {
      rows := map[];
    }
  }
}
