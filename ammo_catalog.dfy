/** The program's one catalog (src/data/ammoData.ts:27-521): 44 records in
    definition order, never changed at run time. The constant is written as
    the source's caliber blocks joined in order; each block's ids share a
    prefix, which is how the uniqueness of ids is established block by block. */
module AmmoCatalog {
  import opened Wrappers
  import Collections
  import opened AmmoData

  /** The "7.65 browning" records; every id starts with "765-". */
  const Browning765: seq<AmmoType> := [
    AmmoType("765-fmj", "7.65 browning", "FMJ", 0, 318, "Artisan LV1", Some(15), Helm(0, 0, 0), Body(0, 0, 0, 0)),
    AmmoType("765-jhp", "7.65 browning", "JHP", 4, 283, "Artisan LV2", Some(25), Helm(0, 0, 0), Body(0, 0, 0, 0))
  ]

  /** The "7.62x25" records; every id starts with "762x25-". */
  const Tokarev762x25: seq<AmmoType> := [
    AmmoType("762x25-fmj", "7.62x25", "FMJ", 0, 427, "Artisan LV1", Some(15), Helm(3, 2, 2), Body(0, 0, 0, 0)),
    AmmoType("762x25-pst", "7.62x25", "PST", -2, 430, "Artisan LV2", Some(25), Helm(3, 3, 3), Body(0, 0, 0, 0)),
    AmmoType("762x25-pt", "7.62x25", "PT", 2, 415, "Artisan LV3", Some(15), Helm(3, 2, 2), Body(2, 0, 0, 0))
  ]

  /** The "9mm" records; every id starts with "9mm-". */
  const Parabellum9mm: seq<AmmoType> := [
    AmmoType("9mm-fmj", "9mm", "FMJ", 0, 390, "Gunny LV1", Some(15), Helm(1, 0, 0), Body(0, 0, 0, 0)),
    AmmoType("9mm-hp", "9mm", "HP", 3, 377, "Gunny LV1", Some(25), Helm(1, 0, 0), Body(0, 0, 0, 0)),
    AmmoType("9mm-tracer", "9mm", "TRACER", 4, 342, "Gunny LV2", Some(25), Helm(1, 0, 0), Body(0, 0, 0, 0)),
    AmmoType("9mm-xpen", "9mm", "XTREME PEN", -2, 381, "Gunny LV2", Some(35), Helm(3, 3, 3), Body(3, 3, 0, 0)),
    AmmoType("9mm-ls9mm", "9mm", "LS 9MM", -2, 0, "Found in AO", None, Helm(3, 3, 3), Body(3, 3, 3, 0))
  ]

  /** The "5.45x39" records; every id starts with "545-". */
  const Soviet545x39: seq<AmmoType> := [
    AmmoType("545-fmj", "5.45x39", "FMJ", 0, 884, "Tumcont LV1", Some(15), Helm(3, 3, 3), Body(3, 3, 1, 1)),
    AmmoType("545-us", "5.45x39", "US", 6, 304, "Tumcont LV2", Some(35), Helm(3, 3, 3), Body(1, 1, 0, 0)),
    AmmoType("545-hp", "5.45x39", "HP", 6, 884, "Tumcont LV2", Some(25), Helm(3, 3, 3), Body(3, 3, 1, 1)),
    AmmoType("545-ps", "5.45x39", "PS", 2, 880, "Tumcont LV2", Some(35), Helm(3, 3, 3), Body(3, 3, 1, 1)),
    AmmoType("545-pp", "5.45x39", "PP", -2, 880, "Found in AO", None, Helm(3, 3, 3), Body(3, 3, 3, 2)),
    AmmoType("545-bt", "5.45x39", "BT", -2, 880, "Tumcont LV2", Some(35), Helm(3, 3, 3), Body(3, 3, 3, 1)),
    AmmoType("545-bp", "5.45x39", "BP", -1, 840, "Found in AO", None, Helm(3, 3, 3), Body(3, 3, 3, 3)),
    AmmoType("545-bs", "5.45x39", "BS", -6, 840, "Found in AO", None, Helm(3, 3, 3), Body(3, 3, 3, 1))
  ]

  /** The "5.56x45" records; every id starts with "556-". */
  const Nato556x45: seq<AmmoType> := [
    AmmoType("556-sp", "5.56x45", "SP", 3, 930, "Gunny LV1", Some(15), Helm(2, 2, 2), Body(2, 2, 2, 2)),
    AmmoType("556-hpbt", "5.56x45", "HPBT", 3, 1040, "Found in AO", None, Helm(3, 3, 3), Body(3, 3, 2, 2)),
    AmmoType("556-fmj", "5.56x45", "FMJ", 0, 880, "Gunny LV2", Some(45), Helm(3, 3, 3), Body(3, 3, 2, 2)),
    AmmoType("556-m193", "5.56x45", "M193", -2, 1006, "Found in AO", None, Helm(3, 3, 3), Body(3, 3, 2, 2)),
    AmmoType("556-m855", "5.56x45", "M855", -2, 945, "Gunny LV3", Some(35), Helm(3, 3, 3), Body(3, 3, 3, 2)),
    AmmoType("556-m856", "5.56x45", "M856", 3, 916, "Gunny LV3", Some(35), Helm(3, 3, 3), Body(3, 3, 3, 2)),
    AmmoType("556-m856a1", "5.56x45", "M856A1", 4, 968, "Found in AO", None, Helm(3, 3, 3), Body(3, 3, 3, 3)),
    AmmoType("556-m855a1", "5.56x45", "M855A1", -7, 970, "Gunny LV3", Some(55), Helm(3, 3, 3), Body(3, 3, 3, 3))
  ]

  /** The "7.62x39" records; every id starts with "762x39-". */
  const Soviet762x39: seq<AmmoType> := [
    AmmoType("762x39-sp", "7.62x39", "SP", 2, 743, "Artisan LV1", Some(15), Helm(1, 1, 1), Body(1, 0, 0, 0)),
    AmmoType("762x39-us", "7.62x39", "US", 6, 310, "Artisan LV2", Some(35), Helm(3, 3, 3), Body(1, 1, 0, 0)),
    AmmoType("762x39-tracer", "7.62x39", "TRACER", 3, 725, "Artisan LV2", Some(35), Helm(3, 3, 3), Body(3, 3, 3, 0)),
    AmmoType("762x39-ps", "7.62x39", "PS", -1, 725, "Artisan LV2", Some(35), Helm(3, 3, 3), Body(3, 3, 3, 1)),
    AmmoType("762x39-bp", "7.62x39", "BP", -2, 725, "Found in AO", None, Helm(3, 3, 3), Body(3, 3, 3, 2))
  ]

  /** The "7.62x51" records; every id starts with "762x51-". */
  const Nato762x51: seq<AmmoType> := [
    AmmoType("762x51-fmjm80", "7.62x51", "FMJ/M80", 0, 838, "Banshee LV1", Some(25), Helm(3, 3, 3), Body(2, 2, 1, 0)),
    AmmoType("762x51-m80a1", "7.62x51", "M80A1", -3, 835, "Banshee LV3?", Some(35), Helm(3, 3, 3), Body(2, 2, 2, 2)),
    AmmoType("762x51-hpbt", "7.62x51", "HPBT", -6, 800, "Banshee LV2", Some(35), Helm(3, 3, 3), Body(3, 3, 2, 2)),
    AmmoType("762x51-m62", "7.62x51", "M62", 4, 822, "Banshee LV3", Some(55), Helm(3, 3, 3), Body(3, 3, 2, 2)),
    AmmoType("762x51-m61", "7.62x51", "M61", -4, 838, "Banshee LV3", Some(55), Helm(3, 3, 3), Body(3, 3, 3, 3))
  ]

  /** The "7.62x54R" records; every id starts with "762x54r-". */
  const Rimmed762x54R: seq<AmmoType> := [
    AmmoType("762x54r-lps", "7.62x54R", "LPS", -1, 828, "Artisan LV1", Some(25), Helm(3, 3, 3), Body(3, 3, 3, 2)),
    AmmoType("762x54r-tracer", "7.62x54R", "TRACER", 3, 830, "Artisan LV2", Some(35), Helm(3, 3, 3), Body(3, 3, 3, 2)),
    AmmoType("762x54r-sr", "7.62x54R", "SR", -5, 835, "Found in AO", None, Helm(3, 3, 3), Body(3, 3, 3, 3)),
    AmmoType("762x54r-ap", "7.62x54R", "AP", -2, 828, "Found in AO", None, Helm(3, 3, 3), Body(3, 3, 3, 3))
  ]

  /** The "12 GAUGE" records; every id starts with "12g-". */
  const Gauge12: seq<AmmoType> := [
    AmmoType("12g-00buck", "12 GAUGE", "00 BUCK", 0, 370, "Gunny LV1", Some(15), Helm(0, 0, 0), Body(0, 0, 0, 0)),
    AmmoType("12g-fc00buck", "12 GAUGE", "FC 00 BUCK", -27, 370, "Gunny LV2", Some(35), Helm(0, 0, 0), Body(0, 0, 0, 0)),
    AmmoType("12g-12gslug", "12 GAUGE", "12G SLUG", -42, 420, "Gunny LV2", Some(25), Helm(1, 1, 1), Body(1, 1, 1, 1)),
    AmmoType("12g-sstsabotslug", "12 GAUGE", "SST SABOT SLUG", -50, 542, "Gunny LV2", Some(35), Helm(3, 3, 3), Body(3, 3, 1, 1))
  ]
  const Blocks: seq<seq<AmmoType>> := [
    Browning765, Tokarev762x25, Parabellum9mm, Soviet545x39, Nato556x45,
    Soviet762x39, Nato762x51, Rimmed762x54R, Gauge12]

  const IdPrefixes: seq<string> := [
    "765-", "762x25-", "9mm-", "545-", "556-", "762x39-", "762x51-", "762x54r-", "12g-"]

  function Flatten(blocks: seq<seq<AmmoType>>): (r: seq<AmmoType>)
    decreases |blocks|
  {
    if blocks == [] then [] else blocks[0] + Flatten(blocks[1..])
  }

  /** `ammoData`. */
  const Catalog: seq<AmmoType> := Flatten(Blocks)

  predicate AllStartWith(db: seq<AmmoType>, prefix: string) {
    forall k :: 0 <= k < |db| ==> prefix <= db[k].id
  }

  predicate NoneStartWith(db: seq<AmmoType>, prefix: string) {
    forall k :: 0 <= k < |db| ==> !(prefix <= db[k].id)
  }

  /** `p` and `q` differ at some position that both have, so no string starts with both. */
  predicate Separated(p: string, q: string) {
    |p| > 0 && |q| > 0 && (p[0] != q[0] || Separated(p[1..], q[1..]))
  }

  lemma {:induction false} ValidAppend(a: seq<AmmoType>, b: seq<AmmoType>)
    requires ValidCatalog(a) && ValidCatalog(b)
    requires forall i, j :: 0 <= i < |a| && 0 <= j < |b| ==> a[i].id != b[j].id
    ensures ValidCatalog(a + b)
  {
    var c := a + b;
    forall i, j | 0 <= i < j < |c| ensures c[i].id != c[j].id {
      if j < |a| {
        assert c[i] == a[i] && c[j] == a[j];
      } else if i >= |a| {
        assert c[i] == b[i - |a|] && c[j] == b[j - |a|];
      } else {
        assert c[i] == a[i] && c[j] == b[j - |a|];
      }
    }
    forall k | 0 <= k < |c| ensures ValidRecord(c[k]) {
      if k < |a| { assert c[k] == a[k]; } else { assert c[k] == b[k - |a|]; }
    }
  }

  /** Two ids with separated prefixes differ. */
  lemma {:induction false} PrefixesSeparate(s: string, p: string, q: string)
    requires p <= s && Separated(p, q)
    ensures !(q <= s)
  {
    if q <= s && p[0] == q[0] {
      assert p[1..] <= s[1..] && q[1..] <= s[1..];
      PrefixesSeparate(s[1..], p[1..], q[1..]);
    }
  }

  lemma {:induction false} FlattenValid(blocks: seq<seq<AmmoType>>, prefixes: seq<string>)
    requires |blocks| == |prefixes|
    requires forall i :: 0 <= i < |blocks| ==> ValidCatalog(blocks[i]) && AllStartWith(blocks[i], prefixes[i])
    requires forall i, j :: 0 <= i < j < |prefixes| ==> Separated(prefixes[i], prefixes[j])
    ensures ValidCatalog(Flatten(blocks))
    ensures forall p :: (forall i :: 0 <= i < |prefixes| ==> Separated(p, prefixes[i])) ==>
      NoneStartWith(Flatten(blocks), p)
    decreases |blocks|
  {
    if blocks != [] {
      var head, rest := blocks[0], Flatten(blocks[1..]);
      FlattenValid(blocks[1..], prefixes[1..]);
      assert forall i :: 1 <= i < |prefixes| ==> Separated(prefixes[0], prefixes[i]);
      assert forall i :: 0 <= i < |prefixes[1..]| ==> Separated(prefixes[0], prefixes[1..][i]);
      assert NoneStartWith(rest, prefixes[0]);
      ValidAppend(head, rest);
      forall p | forall i :: 0 <= i < |prefixes| ==> Separated(p, prefixes[i])
        ensures NoneStartWith(Flatten(blocks), p)
      {
        assert forall i :: 0 <= i < |prefixes[1..]| ==> Separated(p, prefixes[1..][i]);
        assert NoneStartWith(rest, p);
        forall k | 0 <= k < |head| + |rest| ensures !(p <= (head + rest)[k].id) {
          if k < |head| {
            if p <= head[k].id {
              PrefixesSeparate(head[k].id, p, prefixes[0]);
            }
          } else {
            assert (head + rest)[k] == rest[k - |head|];
          }
        }
      }
    }
  }

  lemma TablesValid()
    ensures forall a, b, c {:trigger Helm(a, b, c)} ::
      IsPenetrationValue(a) && IsPenetrationValue(b) && IsPenetrationValue(c) ==>
      ValidTable(Helm(a, b, c), HelmetLevels)
    ensures forall a, b, c, d {:trigger Body(a, b, c, d)} ::
      IsPenetrationValue(a) && IsPenetrationValue(b) && IsPenetrationValue(c) && IsPenetrationValue(d) ==>
      ValidTable(Body(a, b, c, d), BodyLevels)
  {
  }
  lemma Browning765RecordsValid()
    ensures forall k :: 0 <= k < |Browning765| ==> ValidRecord(Browning765[k])
  {
    TablesValid();
  }

  lemma Browning765IdsUnique()
    ensures UniqueIds(Browning765) && AllStartWith(Browning765, "765-")
  {
  }

  lemma Tokarev762x25RecordsValid()
    ensures forall k :: 0 <= k < |Tokarev762x25| ==> ValidRecord(Tokarev762x25[k])
  {
    TablesValid();
  }

  lemma Tokarev762x25IdsUnique()
    ensures UniqueIds(Tokarev762x25) && AllStartWith(Tokarev762x25, "762x25-")
  {
  }

  lemma Parabellum9mmRecordsValid()
    ensures forall k :: 0 <= k < |Parabellum9mm| ==> ValidRecord(Parabellum9mm[k])
  {
    TablesValid();
  }

  lemma Parabellum9mmIdsUnique()
    ensures UniqueIds(Parabellum9mm) && AllStartWith(Parabellum9mm, "9mm-")
  {
  }

  lemma Soviet545x39RecordsValid()
    ensures forall k :: 0 <= k < |Soviet545x39| ==> ValidRecord(Soviet545x39[k])
  {
    TablesValid();
  }

  lemma Soviet545x39IdsUnique()
    ensures UniqueIds(Soviet545x39) && AllStartWith(Soviet545x39, "545-")
  {
  }

  lemma Nato556x45RecordsValid()
    ensures forall k :: 0 <= k < |Nato556x45| ==> ValidRecord(Nato556x45[k])
  {
    TablesValid();
  }

  lemma Nato556x45IdsUnique()
    ensures UniqueIds(Nato556x45) && AllStartWith(Nato556x45, "556-")
  {
  }

  lemma Soviet762x39RecordsValid()
    ensures forall k :: 0 <= k < |Soviet762x39| ==> ValidRecord(Soviet762x39[k])
  {
    TablesValid();
  }

  lemma Soviet762x39IdsUnique()
    ensures UniqueIds(Soviet762x39) && AllStartWith(Soviet762x39, "762x39-")
  {
  }

  lemma Nato762x51RecordsValid()
    ensures forall k :: 0 <= k < |Nato762x51| ==> ValidRecord(Nato762x51[k])
  {
    TablesValid();
  }

  lemma Nato762x51IdsUnique()
    ensures UniqueIds(Nato762x51) && AllStartWith(Nato762x51, "762x51-")
  {
  }

  lemma Rimmed762x54RRecordsValid()
    ensures forall k :: 0 <= k < |Rimmed762x54R| ==> ValidRecord(Rimmed762x54R[k])
  {
    TablesValid();
  }

  lemma Rimmed762x54RIdsUnique()
    ensures UniqueIds(Rimmed762x54R) && AllStartWith(Rimmed762x54R, "762x54r-")
  {
  }

  lemma Gauge12RecordsValid()
    ensures forall k :: 0 <= k < |Gauge12| ==> ValidRecord(Gauge12[k])
  {
    TablesValid();
  }

  lemma Gauge12IdsUnique()
    ensures UniqueIds(Gauge12) && AllStartWith(Gauge12, "12g-")
  {
  }

  lemma PrefixesAreSeparated()
    ensures forall i, j :: 0 <= i < j < |IdPrefixes| ==> Separated(IdPrefixes[i], IdPrefixes[j])
  {
  }

  /** The data keeps the record type's promises and no two records share an id. */
  lemma CatalogIsValid()
    ensures ValidCatalog(Catalog)
  {
    Browning765RecordsValid();
    Browning765IdsUnique();
    Tokarev762x25RecordsValid();
    Tokarev762x25IdsUnique();
    Parabellum9mmRecordsValid();
    Parabellum9mmIdsUnique();
    Soviet545x39RecordsValid();
    Soviet545x39IdsUnique();
    Nato556x45RecordsValid();
    Nato556x45IdsUnique();
    Soviet762x39RecordsValid();
    Soviet762x39IdsUnique();
    Nato762x51RecordsValid();
    Nato762x51IdsUnique();
    Rimmed762x54RRecordsValid();
    Rimmed762x54RIdsUnique();
    Gauge12RecordsValid();
    Gauge12IdsUnique();
    assert forall i :: 0 <= i < |Blocks| ==> ValidCatalog(Blocks[i]) && AllStartWith(Blocks[i], IdPrefixes[i]);
    PrefixesAreSeparated();
    FlattenValid(Blocks, IdPrefixes);
  }

  // ---------------------------------------------------------------------------
  // The exported queries, bound to the catalog (src/data/ammoData.ts:524-536).

  function GetAllCalibers(): seq<string> {
    AllCalibers(Catalog)
  }

  function GetAmmoById(id: string): Option<AmmoType> {
    FindById(Catalog, id)
  }

  /** The caliber list starts with the first block's caliber. */
  lemma FirstCaliber()
    ensures |GetAllCalibers()| > 0 && GetAllCalibers()[0] == "7.65 browning"
  {
    assert Catalog == Browning765 + Flatten(Blocks[1..]);
    AllCalibersHead(Catalog);
  }

  /** Every record of the catalog is found again by its own id. */
  lemma LookupOwnId(a: AmmoType)
    requires a in Catalog
    ensures GetAmmoById(a.id) == Some(a)
  {
    CatalogIsValid();
    FindByIdOwnId(Catalog, a);
  }

  /** Blocks none of which holds a caliber contribute nothing to its group. */
  lemma {:induction false} FlattenGroupEmpty(blocks: seq<seq<AmmoType>>, caliber: string)
    requires forall i :: 0 <= i < |blocks| ==> ByCaliber(blocks[i], caliber) == []
    ensures ByCaliber(Flatten(blocks), caliber) == []
    decreases |blocks|
  {
    if blocks != [] {
      FlattenGroupEmpty(blocks[1..], caliber);
      ByCaliberAppend(blocks[0], Flatten(blocks[1..]), caliber);
    }
  }

  /** When one block holds only a caliber's records and no other block holds
      any, that caliber's group is that block. */
  lemma {:induction false} GroupOfBlock(blocks: seq<seq<AmmoType>>, i: nat, caliber: string)
    requires i < |blocks|
    requires forall j :: 0 <= j < |blocks| && j != i ==> ByCaliber(blocks[j], caliber) == []
    requires forall k :: 0 <= k < |blocks[i]| ==> blocks[i][k].caliber == caliber
    ensures ByCaliber(Flatten(blocks), caliber) == blocks[i]
    decreases |blocks|
  {
    ByCaliberAppend(blocks[0], Flatten(blocks[1..]), caliber);
    if i == 0 {
      Collections.FilterKeepsAll(blocks[0], (x: AmmoType) => x.caliber == caliber);
      FlattenGroupEmpty(blocks[1..], caliber);
    } else {
      GroupOfBlock(blocks[1..], i - 1, caliber);
    }
  }

  /** The calibers of the blocks, one per block. */
  const BlockCalibers: seq<string> := [
    "7.65 browning", "7.62x25", "9mm", "5.45x39", "5.56x45", "7.62x39", "7.62x51", "7.62x54R", "12 GAUGE"]

  /** Each block holds only its own caliber's records. */
  lemma BlocksAreCaliberGroups()
    ensures |BlockCalibers| == |Blocks|
    ensures forall i, k :: 0 <= i < |Blocks| && 0 <= k < |Blocks[i]| ==> Blocks[i][k].caliber == BlockCalibers[i]
  {
  }

  /** Each caliber's group in the catalog is that caliber's block, in its
      order. */
  lemma CaliberGroupIsBlock(i: nat)
    requires i < |Blocks|
    ensures i < |BlockCalibers| && ByCaliber(Catalog, BlockCalibers[i]) == Blocks[i]
  {
    BlocksAreCaliberGroups();
    forall j | 0 <= j < |Blocks| && j != i ensures ByCaliber(Blocks[j], BlockCalibers[i]) == [] {
      assert BlockCalibers[j] != BlockCalibers[i];
      ByCaliberMembers(Blocks[j], BlockCalibers[i]);
    }
    GroupOfBlock(Blocks, i, BlockCalibers[i]);
  }

  lemma {:induction false} InFlatten(blocks: seq<seq<AmmoType>>, a: AmmoType)
    requires a in Flatten(blocks)
    ensures exists i :: 0 <= i < |blocks| && a in blocks[i]
    decreases |blocks|
  {
    if a !in blocks[0] {
      InFlatten(blocks[1..], a);
      var i :| 0 <= i < |blocks[1..]| && a in blocks[1..][i];
      assert a in blocks[i + 1];
    }
  }

  /** Blocks that are non-empty and each of one caliber hold, between them,
      exactly those calibers. */
  lemma FlattenCalibers(blocks: seq<seq<AmmoType>>, calibers: seq<string>)
    requires |calibers| == |blocks|
    requires forall i :: 0 <= i < |blocks| ==> |blocks[i]| > 0
    requires forall i, k :: 0 <= i < |blocks| && 0 <= k < |blocks[i]| ==> blocks[i][k].caliber == calibers[i]
    ensures forall c :: (exists a :: a in Flatten(blocks) && a.caliber == c) <==> c in calibers
  {
    forall c ensures (exists a :: a in Flatten(blocks) && a.caliber == c) <==> c in calibers {
      if a :| a in Flatten(blocks) && a.caliber == c {
        InFlatten(blocks, a);
        var i :| 0 <= i < |blocks| && a in blocks[i];
        var k :| 0 <= k < |blocks[i]| && blocks[i][k] == a;
        assert c == calibers[i];
      }
      if c in calibers {
        var i :| 0 <= i < |calibers| && calibers[i] == c;
        InFlattenBlock(blocks, i, blocks[i][0]);
      }
    }
  }

  lemma {:induction false} InFlattenBlock(blocks: seq<seq<AmmoType>>, i: nat, a: AmmoType)
    requires i < |blocks| && a in blocks[i]
    ensures a in Flatten(blocks)
    decreases i
  {
    if i > 0 {
      InFlattenBlock(blocks[1..], i - 1, a);
    }
  }

  lemma BlocksNonEmpty()
    ensures forall i :: 0 <= i < |Blocks| ==> |Blocks[i]| > 0
  {
  }

  /** The catalog covers exactly the nine calibers of its blocks:
      `getAllCalibers()` lists each of them and nothing else. */
  lemma CatalogCalibers()
    ensures forall c :: c in GetAllCalibers() <==> c in BlockCalibers
  {
    BlocksAreCaliberGroups();
    BlocksNonEmpty();
    FlattenCalibers(Blocks, BlockCalibers);
  }
}
