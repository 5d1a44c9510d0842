/** The ammunition record, its penetration tables, the two display helpers
    for penetration values, and the read-only queries over a catalog
    (src/data/ammoData.ts). The queries take the catalog as a parameter `db`;
    module AmmoCatalog applies them to the program's one constant catalog. */
module AmmoData {
  import opened Wrappers
  import opened Collections

  /** The armour classes of the record type: three helmet levels, four body levels. */
  datatype ArmorLevel = I | IIA | IIAPlus | IIIA | IIIAPlus | III | IIIPlus

  const HelmetLevels: set<ArmorLevel> := {I, IIA, IIAPlus}
  const BodyLevels: set<ArmorLevel> := {IIIA, IIIAPlus, III, IIIPlus}

  /** A penetration table. A level missing from the map reads as `undefined`. */
  type PenetrationMap = map<ArmorLevel, int>

  /** One catalog record. `price` is `None` for the source's `null` (not purchasable).
      Dispersion and velocity are whole numbers in every catalog record. */
  datatype AmmoType = AmmoType(
    id: string,
    caliber: string,
    name: string,
    dispersion: int,
    velocity: int,
    traderUnlock: string,
    price: Option<int>,
    helmPenetration: PenetrationMap,
    bodyPenetration: PenetrationMap)

  /** `table[level]`: the value, or `undefined` when the table lacks that level. */
  function Lookup(table: PenetrationMap, level: ArmorLevel): Option<int> {
    if level in table then Some(table[level]) else None
  }

  /** The helmet table literal `{ 'I': i, 'IIA': iia, 'IIA+': iiaPlus }`. */
  function Helm(i: int, iia: int, iiaPlus: int): PenetrationMap {
    map[I := i, IIA := iia, IIAPlus := iiaPlus]
  }

  /** The body table literal `{ 'IIIA': a, 'IIIA+': aPlus, 'III': b, 'III+': bPlus }`. */
  function Body(a: int, aPlus: int, b: int, bPlus: int): PenetrationMap {
    map[IIIA := a, IIIAPlus := aPlus, III := b, IIIPlus := bPlus]
  }

  /** `PenetrationValue = 0 | 1 | 2 | 3`. */
  predicate IsPenetrationValue(v: int) {
    0 <= v <= 3
  }

  /** A table defines exactly `levels`, each with a penetration value. */
  predicate ValidTable(table: PenetrationMap, levels: set<ArmorLevel>) {
    table.Keys == levels && forall l :: l in table ==> IsPenetrationValue(table[l])
  }

  /** What the record type and the data promise of one record: velocity is
      non-negative (0 means unknown), a price is positive when present, and
      both tables define exactly their levels with values in 0..3. */
  predicate ValidRecord(a: AmmoType) {
    && a.velocity >= 0
    && (a.price.Some? ==> a.price.value > 0)
    && ValidTable(a.helmPenetration, HelmetLevels)
    && ValidTable(a.bodyPenetration, BodyLevels)
  }

  predicate UniqueIds(db: seq<AmmoType>) {
    forall i, j :: 0 <= i < j < |db| ==> db[i].id != db[j].id
  }

  predicate ValidCatalog(db: seq<AmmoType>) {
    && (forall k :: 0 <= k < |db| ==> ValidRecord(db[k]))
    && UniqueIds(db)
  }

  // ---------------------------------------------------------------------------
  // Queries

  /** `ammoData.map(ammo => ammo.caliber)`. */
  function CaliberColumn(db: seq<AmmoType>): (r: seq<string>)
    ensures |r| == |db| && forall k :: 0 <= k < |db| ==> r[k] == db[k].caliber
  {
    seq(|db|, k requires 0 <= k < |db| => db[k].caliber)
  }

  /** `getAllCalibers`: every caliber of the catalog exactly once, in the
      order in which each first appears. */
  function AllCalibers(db: seq<AmmoType>): (r: seq<string>)
    ensures NoDuplicates(r)
    ensures forall c :: c in r <==> exists a :: a in db && a.caliber == c
    ensures forall c :: c in r <==> c in CaliberColumn(db)
    ensures forall i, j :: 0 <= i < j < |r| ==>
      FirstIndex(CaliberColumn(db), r[i]) < FirstIndex(CaliberColumn(db), r[j])
  {
    var col := CaliberColumn(db);
    assert forall c :: c in col <==> exists a :: a in db && a.caliber == c by {
      forall c ensures c in col <==> exists a :: a in db && a.caliber == c {
        if c in col {
          var k :| 0 <= k < |col| && col[k] == c;
          assert db[k] in db;
        }
        if a :| a in db && a.caliber == c {
          var k :| 0 <= k < |db| && db[k] == a;
          assert col[k] == c;
        }
      }
    }
    Distinct(col)
  }

  /** The first caliber listed is the caliber of the first record. */
  lemma AllCalibersHead(db: seq<AmmoType>)
    requires |db| > 0
    ensures |AllCalibers(db)| > 0 && AllCalibers(db)[0] == db[0].caliber
  {
    var col, r := CaliberColumn(db), AllCalibers(db);
    assert col[0] in col;
    assert FirstIndex(col, db[0].caliber) == 0;
    var i :| 0 <= i < |r| && r[i] == db[0].caliber;
  }

  /** `getAmmoByCalibrer`: the records of one caliber, exact string match, in
      catalog order. An unknown caliber gives the empty list. */
  function ByCaliber(db: seq<AmmoType>, caliber: string): (r: seq<AmmoType>)
    ensures |r| <= |db|
  {
    Filter(db, (a: AmmoType) => a.caliber == caliber)
  }

  /** A group holds exactly the records of its caliber; an unknown caliber
      gives the empty list. */
  lemma ByCaliberMembers(db: seq<AmmoType>, caliber: string)
    ensures forall a :: a in ByCaliber(db, caliber) <==> a in db && a.caliber == caliber
    ensures (forall k :: 0 <= k < |db| ==> db[k].caliber != caliber) ==> ByCaliber(db, caliber) == []
  {
    var r := ByCaliber(db, caliber);
    if r != [] {
      assert r[0] in r;
    }
  }

  /** A group lists its records in catalog order. */
  lemma ByCaliberIsSubsequence(db: seq<AmmoType>, caliber: string)
    ensures IsSubsequence(ByCaliber(db, caliber), db)
  {
    FilterIsSubsequence(db, (a: AmmoType) => a.caliber == caliber);
  }

  /** A group holds each record of its caliber as often as the catalog does. */
  lemma ByCaliberCount(db: seq<AmmoType>, caliber: string, a: AmmoType)
    ensures multiset(ByCaliber(db, caliber))[a] == if a.caliber == caliber then multiset(db)[a] else 0
  {
    FilterCount(db, (x: AmmoType) => x.caliber == caliber, a);
  }

  /** Grouping distributes over concatenation. */
  lemma ByCaliberAppend(a: seq<AmmoType>, b: seq<AmmoType>, caliber: string)
    ensures ByCaliber(a + b, caliber) == ByCaliber(a, caliber) + ByCaliber(b, caliber)
  {
    FilterAppend(a, b, (x: AmmoType) => x.caliber == caliber);
  }

  /** Grouping keeps catalog order: of two records in a group, the one that
      comes first in the group comes first in the catalog. */
  lemma ByCaliberKeepsOrder(db: seq<AmmoType>, caliber: string, x: AmmoType, y: AmmoType)
    requires x in ByCaliber(db, caliber) && y in ByCaliber(db, caliber)
    requires FirstIndex(ByCaliber(db, caliber), x) < FirstIndex(ByCaliber(db, caliber), y)
    ensures FirstIndex(db, x) < FirstIndex(db, y)
  {
    FilterKeepsOrder(db, (a: AmmoType) => a.caliber == caliber, x, y);
  }

  /** The groups of the given calibers, one after another. */
  function Grouped(db: seq<AmmoType>, calibers: seq<string>): seq<AmmoType>
    decreases |calibers|
  {
    if calibers == [] then [] else ByCaliber(db, calibers[0]) + Grouped(db, calibers[1..])
  }

  /** No caliber is listed twice, stated head by head. */
  predicate DistinctCalibers(calibers: seq<string>)
    decreases |calibers|
  {
    calibers == [] || (calibers[0] !in calibers[1..] && DistinctCalibers(calibers[1..]))
  }

  lemma {:induction false} NoDuplicatesDistinctCalibers(calibers: seq<string>)
    requires NoDuplicates(calibers)
    ensures DistinctCalibers(calibers)
    decreases |calibers|
  {
    if calibers != [] {
      NoDuplicatesTail(calibers);
      NoDuplicatesDistinctCalibers(calibers[1..]);
    }
  }

  lemma {:induction false} GroupedCount(db: seq<AmmoType>, calibers: seq<string>, a: AmmoType)
    requires DistinctCalibers(calibers)
    ensures multiset(Grouped(db, calibers))[a] == if a.caliber in calibers then multiset(db)[a] else 0
    decreases |calibers|
  {
    if calibers != [] {
      var c, tail := calibers[0], calibers[1..];
      GroupedCount(db, tail, a);
      ByCaliberCount(db, c, a);
      CountAppend(ByCaliber(db, c), Grouped(db, tail), a);
      assert a.caliber in calibers <==> a.caliber == c || a.caliber in tail by {
        assert calibers == [c] + tail;
      }
    }
  }

  lemma NoDuplicatesTail(s: seq<string>)
    requires |s| > 0 && NoDuplicates(s)
    ensures NoDuplicates(s[1..]) && s[0] !in s[1..]
  {
    forall i, j | 0 <= i < j < |s| - 1 ensures s[1..][i] != s[1..][j] {
      assert s[1..][i] == s[i + 1] && s[1..][j] == s[j + 1];
    }
    forall k | 0 <= k < |s| - 1 ensures s[1..][k] != s[0] {
      assert s[1..][k] == s[k + 1];
    }
  }

  lemma CountAppend(x: seq<AmmoType>, y: seq<AmmoType>, a: AmmoType)
    ensures multiset(x + y)[a] == multiset(x)[a] + multiset(y)[a]
  {
  }

  /** Grouping by every caliber of `getAllCalibers` partitions the catalog:
      every record lands in exactly one group, none is lost or repeated. */
  lemma CalibersPartitionCatalog(db: seq<AmmoType>)
    ensures multiset(Grouped(db, AllCalibers(db))) == multiset(db)
  {
    var cs := AllCalibers(db);
    NoDuplicatesDistinctCalibers(cs);
    forall a ensures multiset(Grouped(db, cs))[a] == multiset(db)[a] {
      GroupedCount(db, cs, a);
      if a in db {
        assert a.caliber in cs;
      }
    }
  }

  /** `getAmmoById`: the first record whose id matches, or `undefined`. */
  function FindById(db: seq<AmmoType>, id: string): (r: Option<AmmoType>)
    ensures r.None? <==> forall k :: 0 <= k < |db| ==> db[k].id != id
    ensures r.Some? ==> r.value in db && r.value.id == id
    ensures r.Some? ==> forall k :: 0 <= k < FirstIndex(db, r.value) ==> db[k].id != id
  {
    Find(db, (a: AmmoType) => a.id == id)
  }

  /** With unique ids, looking up a record's own id finds that record. */
  lemma {:induction false} FindByIdOwnId(db: seq<AmmoType>, a: AmmoType)
    requires UniqueIds(db) && a in db
    ensures FindById(db, a.id) == Some(a)
  {
  }

  // ---------------------------------------------------------------------------
  // Display helpers. Their argument is typed `PenetrationValue`, but a table
  // lookup of a level the record lacks passes `undefined`, modelled as `None`.

  /** `penetrationLevelText`: "Unknown" exactly when the value is not one of
      0 to 3, `undefined` included. */
  function PenetrationLevelText(value: Option<int>): (r: string)
    ensures r == "Unknown" <==> !(value.Some? && IsPenetrationValue(value.value))
  {
    match value
    case Some(0) => "No penetration"
    case Some(1) => "Low penetration"
    case Some(2) => "Medium penetration"
    case Some(3) => "High penetration"
    case _ => "Unknown"
  }

  /** `penetrationColorClass`: the neutral grey exactly when the value is
      not one of 0 to 3. */
  function PenetrationColorClass(value: Option<int>): (r: string)
    ensures r == "bg-gray-400" <==> !(value.Some? && IsPenetrationValue(value.value))
  {
    match value
    case Some(0) => "bg-red-600"
    case Some(1) => "bg-orange-500"
    case Some(2) => "bg-yellow-500"
    case Some(3) => "bg-green-500"
    case _ => "bg-gray-400"
  }

  /** The four penetration values get four different labels. */
  lemma PenetrationLevelTextClassifies(v: Option<int>, w: Option<int>)
    ensures v.Some? && w.Some? && IsPenetrationValue(v.value) && IsPenetrationValue(w.value) ==>
      (PenetrationLevelText(v) == PenetrationLevelText(w) <==> v == w)
  {
  }

  /** The four penetration values get four different colours. */
  lemma PenetrationColorClassClassifies(v: Option<int>, w: Option<int>)
    ensures v.Some? && w.Some? && IsPenetrationValue(v.value) && IsPenetrationValue(w.value) ==>
      (PenetrationColorClass(v) == PenetrationColorClass(w) <==> v == w)
  {
  }
}
