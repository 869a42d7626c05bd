/**
 * A uniform grid index over particles: buckets map a cell key to the
 * particles in that cell, and a reverse lookup maps a particle id to its
 * entry (the particle and the key of the cell it was filed under).
 */
module Spatial {
  import opened Types

  /** Integer cell coordinates; the source spells them "x:y:z". */
  datatype CellKey = CellKey(x: int, y: int, z: int)

  /** A lookup entry: what was filed, and under which cell. */
  datatype Entry<T> = Entry(item: T, cellKey: CellKey)

  function Ceil(r: real): (c: int)
    ensures r <= c as real < r + 1.0
  {
    -((-r).Floor)
  }

  /** The cell of a position: the componentwise floor of position / cell size. */
  function KeyOf(pos: Vec, cellSize: real): (k: CellKey)
    requires cellSize > 0.0
    ensures k.x as real <= pos.x / cellSize < k.x as real + 1.0
    ensures k.y as real <= pos.y / cellSize < k.y as real + 1.0
    ensures k.z as real <= pos.z / cellSize < k.z as real + 1.0
  {
    CellKey((pos.x / cellSize).Floor, (pos.y / cellSize).Floor, (pos.z / cellSize).Floor)
  }

  /** How many cells a query scans on each side of the origin cell. */
  function Range(radius: real, cellSize: real): int
    requires cellSize > 0.0
  {
    Ceil(radius / cellSize)
  }

  /** `k` lies in the cube of cells scanned around `origin`. */
  predicate InReach(k: CellKey, origin: CellKey, range: int)
  {
    && -range <= k.x - origin.x <= range
    && -range <= k.y - origin.y <= range
    && -range <= k.z - origin.z <= range
  }

  predicate Within(pos: Vec, origin: Vec, radius: real)
  {
    NormSq(Sub(pos, origin)) <= radius * radius
  }

  predicate Passes(p: Particle, material: Option<Material>)
  {
    material.None? || p.material == material.value
  }

  /** The brute-force query filter: material filter (when given) and distance. */
  predicate Matches(p: Particle, origin: Vec, radius: real, material: Option<Material>)
  {
    Passes(p, material) && Within(p.position, origin, radius)
  }

  /** A square no larger than radius squared has its root within the radius. */
  lemma SquareBound(d: real, radius: real)
    requires radius >= 0.0
    ensures d * d <= radius * radius ==> -radius <= d <= radius
  {
    SquareGrows(d, radius);
    SquareGrows(-d, radius);
    assert (-d) * (-d) == d * d;
  }

  lemma SquareGrows(d: real, radius: real)
    requires radius >= 0.0
    ensures d > radius ==> d * d > radius * radius
  {
    if d > radius {
      assert d * d - radius * radius == (d - radius) * (d + radius);
      MulPos(d - radius, d + radius);
    }
  }

  lemma AxisCovered(a: real, b: real, radius: real, cellSize: real)
    requires cellSize > 0.0 && radius >= 0.0
    requires -radius <= a - b <= radius
    ensures -Ceil(radius / cellSize) <= (a / cellSize).Floor - (b / cellSize).Floor <= Ceil(radius / cellSize)
  {
    var d := a - b;
    assert a / cellSize - b / cellSize == d / cellSize;
    assert d / cellSize <= radius / cellSize;
    assert -(radius / cellSize) <= d / cellSize;
  }

  /**
   * The cube of +-ceil(radius / cellSize) cells around the origin cell holds
   * every position within `radius` of the origin.
   */
  lemma ReachCovers(pos: Vec, origin: Vec, radius: real, cellSize: real)
    requires cellSize > 0.0 && radius >= 0.0
    requires Within(pos, origin, radius)
    ensures InReach(KeyOf(pos, cellSize), KeyOf(origin, cellSize), Range(radius, cellSize))
  {
    AxesBounded(pos, origin, radius);
    AxisCovered(pos.x, origin.x, radius, cellSize);
    AxisCovered(pos.y, origin.y, radius, cellSize);
    AxisCovered(pos.z, origin.z, radius, cellSize);
  }

  /** Within the radius, every coordinate differs by at most the radius. */
  lemma AxesBounded(pos: Vec, origin: Vec, radius: real)
    requires radius >= 0.0 && Within(pos, origin, radius)
    ensures -radius <= pos.x - origin.x <= radius
    ensures -radius <= pos.y - origin.y <= radius
    ensures -radius <= pos.z - origin.z <= radius
  {
    var d := Sub(pos, origin);
    SquaresBounded(d, radius);
    SquareBound(d.x, radius);
    SquareBound(d.y, radius);
    SquareBound(d.z, radius);
  }

  lemma SquaresBounded(d: Vec, radius: real)
    requires NormSq(d) <= radius * radius
    ensures d.x * d.x <= radius * radius && d.y * d.y <= radius * radius && d.z * d.z <= radius * radius
  {
    var sx, sy, sz := d.x * d.x, d.y * d.y, d.z * d.z;
    assert NormSq(d) == sx + sy + sz;
    Square(d.x);
    Square(d.y);
    Square(d.z);
  }

  /**
   * The lookup after filing `item` (with id `id`) under `key`: unchanged when
   * the id is already filed under that key, otherwise the id's entry is
   * replaced and every other entry is kept.
   */
  function Upserted<T>(lookup: map<string, Entry<T>>, id: string, item: T, key: CellKey): (r: map<string, Entry<T>>)
    ensures id in lookup && lookup[id].cellKey == key ==> r == lookup
    ensures !(id in lookup && lookup[id].cellKey == key) ==> id in r && r[id] == Entry(item, key)
    ensures r.Keys == lookup.Keys + {id}
    ensures id in r && r[id].cellKey == key
    ensures forall other :: other in lookup && other != id ==> r[other] == lookup[other]
  {
    if id in lookup && lookup[id].cellKey == key then lookup else lookup[id := Entry(item, key)]
  }

  /** A bucket with every particle of id `id` filtered out, order kept. */
  function Without(bucket: seq<Particle>, id: string): (r: seq<Particle>)
    ensures forall q :: q in r <==> q in bucket && q.id != id
    ensures (forall i, j :: 0 <= i < j < |bucket| ==> bucket[i].id != bucket[j].id) ==>
              (forall i, j :: 0 <= i < j < |r| ==> r[i].id != r[j].id)
  {
    if bucket == [] then []
    else if bucket[0].id == id then Without(bucket[1..], id)
    else
      var rest := Without(bucket[1..], id);
      assert forall q :: q in rest ==> q in bucket[1..];
      [bucket[0]] + rest
  }

  /** Every lookup entry names its own id, its own cell, and sits in that bucket. */
  ghost predicate EntriesFiled(cells: map<CellKey, seq<Particle>>, lookup: map<string, Entry<Particle>>, cellSize: real)
    requires cellSize > 0.0
  {
    forall id :: id in lookup ==>
      && lookup[id].item.id == id
      && lookup[id].cellKey == KeyOf(lookup[id].item.position, cellSize)
      && lookup[id].cellKey in cells
      && lookup[id].item in cells[lookup[id].cellKey]
  }

  /** Every bucketed particle is the one its id's entry files under that bucket. */
  ghost predicate BucketsListed(cells: map<CellKey, seq<Particle>>, lookup: map<string, Entry<Particle>>)
  {
    forall k, j :: k in cells && 0 <= j < |cells[k]| ==>
      cells[k][j].id in lookup && lookup[cells[k][j].id] == Entry(cells[k][j], k)
  }

  ghost predicate DistinctIds(bucket: seq<Particle>)
  {
    forall i, j :: 0 <= i < j < |bucket| ==> bucket[i].id != bucket[j].id
  }

  ghost predicate BucketsDistinct(cells: map<CellKey, seq<Particle>>)
  {
    forall k :: k in cells ==> DistinctIds(cells[k])
  }

  ghost predicate Consistent(cells: map<CellKey, seq<Particle>>, lookup: map<string, Entry<Particle>>, cellSize: real)
  {
    && cellSize > 0.0
    && EntriesFiled(cells, lookup, cellSize)
    && BucketsListed(cells, lookup)
    && BucketsDistinct(cells)
  }

  /** The buckets after filtering id `id` out of bucket `k` (when there is one). */
  function Dropped(cells: map<CellKey, seq<Particle>>, k: CellKey, id: string): map<CellKey, seq<Particle>>
  {
    if k in cells then cells[k := Without(cells[k], id)] else cells
  }

  lemma DropKeepsConsistent(cells: map<CellKey, seq<Particle>>, lookup: map<string, Entry<Particle>>, cellSize: real, id: string)
    requires Consistent(cells, lookup, cellSize) && id in lookup
    ensures Consistent(Dropped(cells, lookup[id].cellKey, id), lookup - {id}, cellSize)
    ensures forall k, j :: k in Dropped(cells, lookup[id].cellKey, id) && 0 <= j < |Dropped(cells, lookup[id].cellKey, id)[k]| ==>
              Dropped(cells, lookup[id].cellKey, id)[k][j].id != id
  {
    var k0 := lookup[id].cellKey;
    var c: map<CellKey, seq<Particle>> := Dropped(cells, k0, id);
    var l: map<string, Entry<Particle>> := lookup - {id};
    forall other | other in l
      ensures l[other].cellKey in c && l[other].item in c[l[other].cellKey]
    {
      assert l[other].item.id == other;
    }
    forall k: CellKey, j: int | k in c && 0 <= j < |c[k]|
      ensures c[k][j].id in l && l[c[k][j].id] == Entry(c[k][j], k)
      ensures c[k][j].id != id
    {
      if k == k0 {
        assert c[k][j] in Without(cells[k], id);
        var i :| 0 <= i < |cells[k]| && cells[k][i] == c[k][j];
      } else {
        assert c[k][j] == cells[k][j];
      }
    }
  }

  lemma InsertKeepsConsistent(cells: map<CellKey, seq<Particle>>, lookup: map<string, Entry<Particle>>, cellSize: real, p: Particle)
    requires Consistent(cells, lookup, cellSize) && p.id !in lookup
    ensures Consistent(
              cells[KeyOf(p.position, cellSize) := (if KeyOf(p.position, cellSize) in cells then cells[KeyOf(p.position, cellSize)] else []) + [p]],
              lookup[p.id := Entry(p, KeyOf(p.position, cellSize))], cellSize)
  {
    var key := KeyOf(p.position, cellSize);
    var bucket: seq<Particle> := if key in cells then cells[key] else [];
    var c: map<CellKey, seq<Particle>> := cells[key := bucket + [p]];
    var l: map<string, Entry<Particle>> := lookup[p.id := Entry(p, key)];
    forall j | 0 <= j < |bucket|
      ensures bucket[j].id != p.id
    {
      assert bucket[j].id in lookup;
    }
    assert DistinctIds(bucket + [p]);
    forall k: CellKey, j: int | k in c && 0 <= j < |c[k]|
      ensures c[k][j].id in l && l[c[k][j].id] == Entry(c[k][j], k)
    {
      if k == key && j < |bucket| {
        assert c[k][j] == cells[k][j];
      } else if k != key {
        assert c[k][j] == cells[k][j];
      }
    }
  }

  class SpatialHash {
    const cellSize: real
    var cells: map<CellKey, seq<Particle>>
    var lookup: map<string, Entry<Particle>>

    /**
     * Every filed particle sits in exactly the bucket of its own cell key,
     * and buckets and lookup agree.
     */
    ghost predicate Valid()
      reads this
    {
      Consistent(cells, lookup, cellSize)
    }

    /** `p` is the particle currently filed under its id. */
    predicate Indexed(p: Particle)
      reads this
    {
      p.id in lookup && lookup[p.id].item == p
    }

    constructor (cellSize: real)
      requires cellSize > 0.0
      ensures Valid()
      ensures this.cellSize == cellSize && cells == map[] && lookup == map[]
    {
      this.cellSize := cellSize;
      cells := map[];
      lookup := map[];
    }

    method Upsert(p: Particle)
      requires Valid()
      modifies this
      ensures Valid()
      ensures lookup == Upserted(old(lookup), p.id, p, KeyOf(p.position, cellSize))
      ensures old(p.id in lookup && lookup[p.id].cellKey == KeyOf(p.position, cellSize)) ==>
                cells == old(cells) && lookup == old(lookup)
      ensures p.id in lookup && lookup[p.id].cellKey == KeyOf(p.position, cellSize)
      ensures lookup[p.id].item in cells[KeyOf(p.position, cellSize)]
      ensures forall k, j :: k in cells && 0 <= j < |cells[k]| && cells[k][j].id == p.id ==>
                k == KeyOf(p.position, cellSize)
    {
      var key := KeyOf(p.position, cellSize);
      if p.id in lookup && lookup[p.id].cellKey == key {
        return;
      }
      ghost var rest := lookup;
      if p.id in lookup {
        var oldKey := lookup[p.id].cellKey;
        DropKeepsConsistent(cells, lookup, cellSize, p.id);
        if oldKey in cells {
          cells := cells[oldKey := Without(cells[oldKey], p.id)];
        }
        rest := lookup - {p.id};
      }
      assert lookup[p.id := Entry(p, key)] == rest[p.id := Entry(p, key)];
      InsertKeepsConsistent(cells, rest, cellSize, p);
      var bucket := if key in cells then cells[key] else [];
      cells := cells[key := bucket + [p]];
      lookup := lookup[p.id := Entry(p, key)];
    }

    method Remove(id: string)
      requires Valid()
      modifies this
      ensures Valid()
      ensures old(id !in lookup) ==> cells == old(cells) && lookup == old(lookup)
      ensures lookup == old(lookup) - {id}
      ensures forall k, j :: k in cells && 0 <= j < |cells[k]| ==> cells[k][j].id != id
    {
      if id !in lookup {
        return;
      }
      var key := lookup[id].cellKey;
      DropKeepsConsistent(cells, lookup, cellSize, id);
      if key in cells {
        cells := cells[key := Without(cells[key], id)];
      }
      lookup := lookup - {id};
    }

    /**
     * Every filed particle that passes the material filter and lies within
     * `radius` of `position`, found by scanning the cube of cells around the
     * origin cell.
     */
    method Query(position: Vec, radius: real, material: Option<Material>) returns (results: seq<Particle>)
      requires Valid()
      ensures forall p :: p in results ==> Indexed(p) && Matches(p, position, radius, material)
      ensures radius >= 0.0 ==>
                forall p :: Indexed(p) && Matches(p, position, radius, material) ==> p in results
      ensures DistinctIds(results)
    {
      var range := Range(radius, cellSize);
      var o := KeyOf(position, cellSize);
      results := [];
      var x := -range;
      while x <= range
        invariant range >= 0 ==> x <= range + 1
        invariant DistinctIds(results)
        invariant forall p :: p in results ==>
                    Indexed(p) && Matches(p, position, radius, material) && KeyOf(p.position, cellSize).x - o.x < x
        invariant forall p :: Indexed(p) && Matches(p, position, radius, material)
                    && InReach(KeyOf(p.position, cellSize), o, range)
                    && KeyOf(p.position, cellSize).x - o.x < x
                    ==> p in results
      {
        var y := -range;
        while y <= range
          invariant y <= range + 1
          invariant DistinctIds(results)
          invariant forall p :: p in results ==>
                      Indexed(p) && Matches(p, position, radius, material) && RowBefore(KeyOf(p.position, cellSize), o, x, y)
          invariant forall p :: Indexed(p) && Matches(p, position, radius, material)
                      && InReach(KeyOf(p.position, cellSize), o, range)
                      && RowBefore(KeyOf(p.position, cellSize), o, x, y)
                      ==> p in results
        {
          results := ScanRow(o, x, y, range, position, radius, material, results);
          y := y + 1;
        }
        x := x + 1;
      }
      if radius >= 0.0 {
        forall p | Indexed(p) && Matches(p, position, radius, material)
          ensures p in results
        {
          ReachCovers(p.position, position, radius, cellSize);
        }
      }
    }

    /** One row of the scan: the cells (x, y, -range) to (x, y, range) around the origin cell `o`. */
    method ScanRow(o: CellKey, x: int, y: int, range: int, position: Vec, radius: real, material: Option<Material>,
                   found: seq<Particle>) returns (results: seq<Particle>)
      requires Valid()
      requires DistinctIds(found)
      requires forall p :: p in found ==>
                 Indexed(p) && Matches(p, position, radius, material) && RowBefore(KeyOf(p.position, cellSize), o, x, y)
      ensures DistinctIds(results)
      ensures forall p :: p in found ==> p in results
      ensures forall p :: p in results ==>
                Indexed(p) && Matches(p, position, radius, material) && RowBefore(KeyOf(p.position, cellSize), o, x, y + 1)
      ensures forall p :: Indexed(p) && Matches(p, position, radius, material)
                && InReach(KeyOf(p.position, cellSize), o, range)
                && KeyOf(p.position, cellSize).x - o.x == x && KeyOf(p.position, cellSize).y - o.y == y
                ==> p in results
    {
      results := found;
      var z := -range;
      while z <= range
        invariant range >= 0 ==> z <= range + 1
        invariant DistinctIds(results)
        invariant forall p :: p in found ==> p in results
        invariant forall p :: p in results ==>
                    Indexed(p) && Matches(p, position, radius, material) && Before(KeyOf(p.position, cellSize), o, x, y, z)
        invariant forall p :: Indexed(p) && Matches(p, position, radius, material)
                    && KeyOf(p.position, cellSize).x - o.x == x && KeyOf(p.position, cellSize).y - o.y == y
                    && -range <= KeyOf(p.position, cellSize).z - o.z < z
                    ==> p in results
      {
        results := ScanCell(CellKey(o.x + x, o.y + y, o.z + z), position, radius, material, results);
        z := z + 1;
      }
    }

    /** One cell of the scan: append every particle of bucket `key` that passes the filter and is in range. */
    method ScanCell(key: CellKey, position: Vec, radius: real, material: Option<Material>, found: seq<Particle>)
      returns (results: seq<Particle>)
      requires Valid()
      requires DistinctIds(found)
      requires forall p :: p in found ==> Indexed(p) && KeyOf(p.position, cellSize) != key
      ensures DistinctIds(results)
      ensures forall p :: p in found ==> p in results
      ensures forall p :: p in results ==>
                p in found || (Indexed(p) && KeyOf(p.position, cellSize) == key && Matches(p, position, radius, material))
      ensures forall p :: Indexed(p) && KeyOf(p.position, cellSize) == key && Matches(p, position, radius, material) ==>
                p in results
    {
      results := found;
      if key !in cells {
        return;
      }
      var bucket := cells[key];
      var j := 0;
      while j < |bucket|
        invariant j <= |bucket|
        invariant forall p :: p in found ==> p in results
        invariant forall p :: p in results ==> p in found || (p in bucket[..j] && Matches(p, position, radius, material))
        invariant forall p :: p in bucket[..j] && Matches(p, position, radius, material) ==> p in results
        invariant DistinctIds(results)
      {
        var p := bucket[j];
        if Passes(p, material) && Within(p.position, position, radius) {
          forall q | q in results
            ensures q.id != p.id
          {
            if q in found {
              assert lookup[p.id] == Entry(p, key);
            } else {
              var i :| 0 <= i < j && bucket[i] == q;
            }
          }
          results := results + [p];
        }
        assert bucket[..j + 1] == bucket[..j] + [bucket[j]];
        j := j + 1;
      }
      assert bucket[..j] == bucket;
      forall p | p in bucket
        ensures Indexed(p) && KeyOf(p.position, cellSize) == key
      {
        var i :| 0 <= i < |bucket| && bucket[i] == p;
        assert lookup[p.id] == Entry(p, key);
      }
      forall p | Indexed(p) && KeyOf(p.position, cellSize) == key
        ensures p in bucket
      {
        assert lookup[p.id].cellKey == key;
      }
    }

    /** Offset of `k` from `o` comes strictly before row (x, y) in scan order. */
    static predicate RowBefore(k: CellKey, o: CellKey, x: int, y: int)
    {
      k.x - o.x < x || (k.x - o.x == x && k.y - o.y < y)
    }

    /** Offset of `k` from `o` comes strictly before (x, y, z) in scan order. */
    static predicate Before(k: CellKey, o: CellKey, x: int, y: int, z: int)
    {
      || k.x - o.x < x
      || (k.x - o.x == x && k.y - o.y < y)
      || (k.x - o.x == x && k.y - o.y == y && k.z - o.z < z)
    }

    /** All filed particles, each once. */
    method Values() returns (vs: seq<Particle>)
      requires Valid()
      ensures forall p :: p in vs <==> Indexed(p)
      ensures |vs| == |lookup|
    {
      vs := [];
      var rest := lookup.Keys;
      while rest != {}
        invariant rest <= lookup.Keys
        invariant |vs| + |rest| == |lookup|
        invariant forall p :: p in vs <==> Indexed(p) && p.id !in rest
        decreases |rest|
      {
        var id :| id in rest;
        vs := vs + [lookup[id].item];
        rest := rest - {id};
      }
    }

    method Clear()
      requires Valid()
      modifies this
      ensures Valid()
      ensures cells == map[] && lookup == map[]
      ensures forall p :: !Indexed(p)
    {
      cells := map[];
      lookup := map[];
    }
  }
}
