/** The comparison panel (src/components/AmmoComparison.tsx): a caliber
    picker, a set of ticked rounds of that caliber, and the rows and chart
    points derived from the ticks. */
module AmmoComparison {
  import opened Wrappers
  import opened Collections
  import opened AmmoData
  import AmmoCatalog

  // ---------------------------------------------------------------------------
  // Ticking a round

  /** `handleAmmoToggle`: a selected id is removed, every copy of it; an
      unselected one is appended. */
  function ToggleId(selected: seq<string>, id: string): (r: seq<string>)
    ensures id in r <==> id !in selected
    ensures forall x :: x != id ==> (x in r <==> x in selected)
  {
    if id in selected then Filter(selected, (x: string) => x != id) else selected + [id]
  }

  /** An unticked id goes to the end; the ids already ticked keep their places. */
  lemma ToggleAppends(selected: seq<string>, id: string)
    requires id !in selected
    ensures |ToggleId(selected, id)| == |selected| + 1
    ensures ToggleId(selected, id)[..|selected|] == selected
    ensures ToggleId(selected, id)[|selected|] == id
  {
    assert ToggleId(selected, id) == selected + [id];
  }

  /** Unticking keeps every other id, as often as it occurred and in its
      order. */
  lemma ToggleRemoves(selected: seq<string>, id: string)
    requires id in selected
    ensures IsSubsequence(ToggleId(selected, id), selected)
    ensures multiset(ToggleId(selected, id))[id] == 0
    ensures forall x :: x != id ==> multiset(ToggleId(selected, id))[x] == multiset(selected)[x]
  {
    var keep := (x: string) => x != id;
    FilterIsSubsequence(selected, keep);
    FilterCount(selected, keep, id);
    forall x | x != id ensures multiset(ToggleId(selected, id))[x] == multiset(selected)[x] {
      FilterCount(selected, keep, x);
    }
  }

  /** Ticking an unticked id and unticking it again restores the selection. */
  lemma ToggleTwiceRestores(selected: seq<string>, id: string)
    requires id !in selected
    ensures ToggleId(ToggleId(selected, id), id) == selected
  {
    var keep := (x: string) => x != id;
    FilterAppend(selected, [id], keep);
    FilterKeepsAll(selected, keep);
    assert Filter([id], keep) == [];
  }

  /** Unticking a ticked id and ticking it again keeps the same ids, though
      that id moves to the end. */
  lemma ToggleTwiceKeepsIds(selected: seq<string>, id: string)
    requires NoDuplicates(selected) && id in selected
    ensures multiset(ToggleId(ToggleId(selected, id), id)) == multiset(selected)
  {
    var once := ToggleId(selected, id);
    ToggleRemoves(selected, id);
    assert ToggleId(once, id) == once + [id];
    forall x ensures multiset(once + [id])[x] == multiset(selected)[x] {
      if x == id {
        var k :| 0 <= k < |selected| && selected[k] == id;
        CountOne(selected, k);
      }
    }
  }

  /** In a list without duplicates an element present occurs exactly once. */
  lemma CountOne(s: seq<string>, k: nat)
    requires NoDuplicates(s) && k < |s|
    ensures multiset(s)[s[k]] == 1
  {
    assert s == s[..k] + [s[k]] + s[k + 1..];
    assert s[k] !in s[..k] by {
      forall i | 0 <= i < k ensures s[..k][i] != s[k] {
        assert s[..k][i] == s[i];
      }
    }
    assert s[k] !in s[k + 1..] by {
      forall i | k < i < |s| ensures s[i] != s[k] {
      }
    }
  }

  /** Ticking never duplicates an id. */
  lemma ToggleKeepsNoDuplicates(selected: seq<string>, id: string)
    requires NoDuplicates(selected)
    ensures NoDuplicates(ToggleId(selected, id))
  {
    if id in selected {
      ToggleRemoves(selected, id);
      SubsequenceKeepsNoDuplicates(ToggleId(selected, id), selected);
    } else {
      var r := selected + [id];
      forall i, j | 0 <= i < j < |r| ensures r[i] != r[j] {
        if j == |selected| {
          assert r[i] in selected;
        }
      }
    }
  }

  /** A list picked out of a list without duplicates has none. */
  lemma {:induction false} SubsequenceKeepsNoDuplicates(r: seq<string>, s: seq<string>)
    requires IsSubsequence(r, s) && NoDuplicates(s)
    ensures NoDuplicates(r)
    decreases |s|
  {
    if r != [] && s != [] {
      assert NoDuplicates(s[1..]) by {
        forall i, j | 0 <= i < j < |s| - 1 ensures s[1..][i] != s[1..][j] {
          assert s[1..][i] == s[i + 1] && s[1..][j] == s[j + 1];
        }
      }
      if r[0] == s[0] && IsSubsequence(r[1..], s[1..]) {
        SubsequenceKeepsNoDuplicates(r[1..], s[1..]);
        SubsequenceMembers(r[1..], s[1..]);
        forall i, j | 0 <= i < j < |r| ensures r[i] != r[j] {
          if i == 0 {
            assert r[j] == r[1..][j - 1];
            assert r[j] in s[1..];
            var m :| 0 <= m < |s| - 1 && s[1..][m] == r[j];
            assert s[m + 1] == r[j];
          } else {
            assert r[i] == r[1..][i - 1] && r[j] == r[1..][j - 1];
          }
        }
      } else {
        SubsequenceKeepsNoDuplicates(r, s[1..]);
      }
    }
  }

  /** The elements of a subsequence are elements of the list. */
  lemma {:induction false} SubsequenceMembers(r: seq<string>, s: seq<string>)
    requires IsSubsequence(r, s)
    ensures forall x :: x in r ==> x in s
    decreases |s|
  {
    if r != [] && s != [] {
      if r[0] == s[0] && IsSubsequence(r[1..], s[1..]) {
        SubsequenceMembers(r[1..], s[1..]);
        assert r == [r[0]] + r[1..];
      } else {
        SubsequenceMembers(r, s[1..]);
      }
    }
  }

  // ---------------------------------------------------------------------------
  // The compared rounds

  /** `selectedAmmoData`: exactly the options whose id is ticked. */
  function SelectedAmmoData(options: seq<AmmoType>, selected: seq<string>): (r: seq<AmmoType>)
    ensures forall a :: a in r <==> a in options && a.id in selected
  {
    Filter(options, (a: AmmoType) => a.id in selected)
  }

  /** The compared rounds are the ticked options in the options' order, not
      in the order they were ticked. */
  lemma SelectedAmmoDataFollowsOptions(options: seq<AmmoType>, selected: seq<string>)
    ensures IsSubsequence(SelectedAmmoData(options, selected), options)
  {
    FilterIsSubsequence(options, (a: AmmoType) => a.id in selected);
  }

  /** Two selections holding the same ids compare the same rounds, whatever
      order the ids were ticked in. */
  lemma SelectedAmmoDataIgnoresClickOrder(options: seq<AmmoType>, s: seq<string>, t: seq<string>)
    requires forall x :: x in s <==> x in t
    ensures SelectedAmmoData(options, s) == SelectedAmmoData(options, t)
  {
    FilterAgrees(options, (a: AmmoType) => a.id in s, (a: AmmoType) => a.id in t);
  }

  /** Nothing ticked, nothing compared (the empty-state message). */
  lemma {:induction false} NothingSelectedNothingCompared(options: seq<AmmoType>)
    ensures SelectedAmmoData(options, []) == []
    decreases |options|
  {
    if options != [] {
      NothingSelectedNothingCompared(options[1..]);
    }
  }

  /** One bar group of the chart. */
  datatype ComparisonData = ComparisonData(name: string, velocity: int, dispersion: int)

  /** `chartData`: one point per compared round. */
  function ChartData(rows: seq<AmmoType>): (r: seq<ComparisonData>)
    ensures |r| == |rows|
    ensures forall i :: 0 <= i < |rows| ==>
      r[i].name == rows[i].name && r[i].velocity == rows[i].velocity && r[i].dispersion == rows[i].dispersion
  {
    if rows == [] then []
    else [ComparisonData(rows[0].name, rows[0].velocity, rows[0].dispersion)] + ChartData(rows[1..])
  }

  /** The chart of two lists side by side is the two charts side by side. */
  lemma {:induction false} ChartDataAppend(a: seq<AmmoType>, b: seq<AmmoType>)
    ensures ChartData(a + b) == ChartData(a) + ChartData(b)
    decreases |a|
  {
    if a != [] {
      assert (a + b)[1..] == a[1..] + b;
      ChartDataAppend(a[1..], b);
    }
  }

  // ---------------------------------------------------------------------------
  // The penetration table

  /** The table's columns: four helmet levels, then two body levels. */
  const HelmColumns: seq<ArmorLevel> := [IIA, IIAPlus, IIIA, IIIAPlus]
  const BodyColumns: seq<ArmorLevel> := [III, IIIPlus]

  /** One row of dots: the catalog palette applied to each column's value; a
      dot is grey exactly when its column has no value in 0 to 3. */
  function PenetrationRow(ammo: AmmoType): (r: seq<string>)
    ensures |r| == |HelmColumns| + |BodyColumns|
    ensures forall i :: 0 <= i < |HelmColumns| ==>
      (r[i] == "bg-gray-400" <==> !(HelmColumns[i] in ammo.helmPenetration && IsPenetrationValue(ammo.helmPenetration[HelmColumns[i]])))
    ensures forall i :: 0 <= i < |BodyColumns| ==>
      (r[|HelmColumns| + i] == "bg-gray-400" <==> !(BodyColumns[i] in ammo.bodyPenetration && IsPenetrationValue(ammo.bodyPenetration[BodyColumns[i]])))
  {
    seq(|HelmColumns|, i requires 0 <= i < |HelmColumns| => PenetrationColorClass(Lookup(ammo.helmPenetration, HelmColumns[i])))
    + seq(|BodyColumns|, i requires 0 <= i < |BodyColumns| => PenetrationColorClass(Lookup(ammo.bodyPenetration, BodyColumns[i])))
  }

  /** For a well-formed record the helmet IIIA and IIIA+ dots are the grey of
      a missing value, and the other four dots are coloured by a real value. */
  lemma PenetrationRowColumns(ammo: AmmoType)
    requires ValidRecord(ammo)
    ensures PenetrationRow(ammo)[2] == "bg-gray-400" && PenetrationRow(ammo)[3] == "bg-gray-400"
    ensures forall i :: i in {0, 1, 4, 5} ==> PenetrationRow(ammo)[i] != "bg-gray-400"
  {
    var r := PenetrationRow(ammo);
    PenetrationColorClassClassifies(Lookup(ammo.helmPenetration, IIA), None);
    PenetrationColorClassClassifies(Lookup(ammo.helmPenetration, IIAPlus), None);
    PenetrationColorClassClassifies(Lookup(ammo.bodyPenetration, III), None);
    PenetrationColorClassClassifies(Lookup(ammo.bodyPenetration, IIIPlus), None);
    assert IIIA !in ammo.helmPenetration && IIIAPlus !in ammo.helmPenetration;
    assert r[0] == PenetrationColorClass(Lookup(ammo.helmPenetration, IIA));
    assert r[1] == PenetrationColorClass(Lookup(ammo.helmPenetration, IIAPlus));
    assert r[4] == PenetrationColorClass(Lookup(ammo.bodyPenetration, III));
    assert r[5] == PenetrationColorClass(Lookup(ammo.bodyPenetration, IIIPlus));
  }

  // ---------------------------------------------------------------------------
  // The panel's state

  /** The panel's state. `db` is the catalog it reads, fixed when the panel
      is created. */
  class Comparison {
    const db: seq<AmmoType>
    var selectedCaliber: string
    var selectedAmmo: seq<string>
    var calibers: seq<string>
    var ammoOptions: seq<AmmoType>

    /** The ticked ids are distinct and every option comes from the catalog. */
    predicate Valid()
      reads this
    {
      NoDuplicates(selectedAmmo) && forall a :: a in ammoOptions ==> a in db
    }

    /** The rounds under comparison. */
    function Compared(): seq<AmmoType>
      reads this
    {
      SelectedAmmoData(ammoOptions, selectedAmmo)
    }

    constructor()
      ensures Valid()
      ensures db == AmmoCatalog.Catalog
      ensures selectedCaliber == "" && selectedAmmo == [] && calibers == [] && ammoOptions == []
    {
      db := AmmoCatalog.Catalog;
      selectedCaliber, selectedAmmo, calibers, ammoOptions := "", [], [], [];
    }

    /** The caliber effect, run when `selectedCaliber` has just changed: a
        chosen caliber brings in its rounds and clears the ticks; no caliber
        leaves both as they are. */
    method CaliberChanged()
      requires Valid()
      modifies this`ammoOptions, this`selectedAmmo
      ensures Valid()
      ensures selectedCaliber != "" ==> ammoOptions == ByCaliber(db, selectedCaliber) && selectedAmmo == []
      ensures selectedCaliber == "" ==> ammoOptions == old(ammoOptions) && selectedAmmo == old(selectedAmmo)
    {
      if selectedCaliber != "" {
        ammoOptions := ByCaliber(db, selectedCaliber);
        selectedAmmo := [];
        ByCaliberMembers(db, selectedCaliber);
      }
    }

    /** The mount effect: load the calibers and choose the first, which runs
        the caliber effect when that is a change (it is on a fresh panel,
        whose caliber is ""). */
    method Mount()
      requires Valid()
      modifies this
      ensures Valid()
      ensures calibers == AllCalibers(db)
      ensures |db| > 0 ==> selectedCaliber == db[0].caliber
      ensures |db| > 0 && db[0].caliber != old(selectedCaliber) && db[0].caliber != "" ==>
        ammoOptions == ByCaliber(db, selectedCaliber) && selectedAmmo == []
      ensures |db| == 0 || db[0].caliber == old(selectedCaliber) || db[0].caliber == "" ==>
        ammoOptions == old(ammoOptions) && selectedAmmo == old(selectedAmmo)
    {
      var all := AllCalibers(db);
      calibers := all;
      if |all| > 0 {
        AllCalibersHead(db);
        ChangeCaliber(all[0]);
      }
    }

    /** `handleCaliberChange`: choosing the caliber already chosen changes
        nothing; choosing another one runs the caliber effect. */
    method ChangeCaliber(value: string)
      requires Valid()
      modifies this
      ensures Valid()
      ensures selectedCaliber == value && calibers == old(calibers)
      ensures value != "" && value != old(selectedCaliber) ==>
        ammoOptions == ByCaliber(db, value) && selectedAmmo == [] && Compared() == []
      ensures value == "" || value == old(selectedCaliber) ==>
        ammoOptions == old(ammoOptions) && selectedAmmo == old(selectedAmmo)
    {
      if value != selectedCaliber {
        selectedCaliber := value;
        CaliberChanged();
        NothingSelectedNothingCompared(ammoOptions);
      }
    }

    /** `handleAmmoToggle` on the current selection. */
    method ToggleAmmo(id: string)
      requires Valid()
      modifies this`selectedAmmo
      ensures Valid()
      ensures selectedAmmo == ToggleId(old(selectedAmmo), id)
      ensures id in selectedAmmo <==> id !in old(selectedAmmo)
    {
      ToggleKeepsNoDuplicates(selectedAmmo, id);
      selectedAmmo := ToggleId(selectedAmmo, id);
    }
  }
}
