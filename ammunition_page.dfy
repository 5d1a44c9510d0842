/** The ammunition list page (src/pages/Ammunition.tsx): the caliber picker,
    the search box, the sort field and the sort direction, and the list they
    select from the catalog. */
module AmmunitionPage {
  import opened Wrappers
  import opened Collections
  import opened Text
  import opened Sorting
  import opened AmmoData
  import AmmoCatalog

  // ---------------------------------------------------------------------------
  // Search

  /** A record matches a query when its lower-cased name or lower-cased trader
      contains the lower-cased query. */
  predicate Matches(a: AmmoType, query: string) {
    var q := Lower(query);
    Includes(Lower(a.name), q) || Includes(Lower(a.traderUnlock), q)
  }

  /** The search is case-insensitive: queries that differ only in case match
      the same records. */
  lemma MatchesIgnoresCase(a: AmmoType, q1: string, q2: string)
    requires EqualIgnoringCase(q1, q2)
    ensures Matches(a, q1) <==> Matches(a, q2)
  {
    LowerCaseInsensitive(q1, q2);
  }

  /** The search step of the list effect: an empty query keeps the group as
      it is, any other query keeps exactly the matching records. */
  function SearchFilter(list: seq<AmmoType>, query: string): (r: seq<AmmoType>)
    ensures query == "" ==> r == list
    ensures query != "" ==> forall a :: a in r <==> a in list && Matches(a, query)
    ensures |r| <= |list|
  {
    if query == "" then list else Filter(list, (a: AmmoType) => Matches(a, query))
  }

  /** The records kept are kept in the order they had. */
  lemma SearchFilterKeepsOrder(list: seq<AmmoType>, query: string)
    ensures IsSubsequence(SearchFilter(list, query), list)
  {
    if query != "" {
      FilterIsSubsequence(list, (a: AmmoType) => Matches(a, query));
    } else {
      SubsequenceReflexive(list);
    }
  }

  /** Queries that differ only in case keep the same records. */
  lemma SearchFilterIgnoresCase(list: seq<AmmoType>, q1: string, q2: string)
    requires EqualIgnoringCase(q1, q2)
    ensures SearchFilter(list, q1) == SearchFilter(list, q2)
  {
    if q1 != "" {
      forall a | a in list ensures Matches(a, q1) == Matches(a, q2) {
        MatchesIgnoresCase(a, q1, q2);
      }
      FilterAgrees(list, (a: AmmoType) => Matches(a, q1), (a: AmmoType) => Matches(a, q2));
    }
  }

  lemma {:induction false} SubsequenceReflexive(s: seq<AmmoType>)
    ensures IsSubsequence(s, s)
    decreases |s|
  {
    if s != [] {
      SubsequenceReflexive(s[1..]);
    }
  }

  /** Searching the result of a search again changes nothing. */
  lemma SearchFilterIdempotent(list: seq<AmmoType>, query: string)
    ensures SearchFilter(SearchFilter(list, query), query) == SearchFilter(list, query)
  {
    if query != "" {
      FilterIdempotent(list, (a: AmmoType) => Matches(a, query));
    }
  }

  /** A record is kept as many times as it occurs, or not at all. */
  lemma SearchFilterCount(list: seq<AmmoType>, query: string, a: AmmoType)
    ensures multiset(SearchFilter(list, query))[a] ==
      if query == "" || Matches(a, query) then multiset(list)[a] else 0
  {
    if query != "" {
      FilterCount(list, (x: AmmoType) => Matches(x, query), a);
    }
  }

  // ---------------------------------------------------------------------------
  // Sort field and direction

  datatype SortField = ByName | ByVelocity | ByDispersion | ByPrice
  datatype Direction = Asc | Desc

  /** The `switch (sortBy)`: the three numeric field names select their key,
      every other string, "name" included, sorts by name. */
  function ParseSortField(sortBy: string): (f: SortField)
    ensures f == ByVelocity <==> sortBy == "velocity"
    ensures f == ByDispersion <==> sortBy == "dispersion"
    ensures f == ByPrice <==> sortBy == "price"
    ensures f == ByName <==> sortBy !in {"velocity", "dispersion", "price"}
  {
    match sortBy
    case "velocity" => ByVelocity
    case "dispersion" => ByDispersion
    case "price" => ByPrice
    case _ => ByName
  }

  /** `toggleSortDirection`. */
  function Flip(d: Direction): (r: Direction)
    ensures r != d
  {
    match d
    case Asc => Desc
    case Desc => Asc
  }

  /** Toggling twice restores the direction. */
  lemma FlipTwice(d: Direction)
    ensures Flip(Flip(d)) == d
  {
  }

  /** The price key: a missing price counts as 0. */
  function PriceKey(a: AmmoType): (k: int)
    ensures a.price.Some? ==> k == a.price.value
    ensures a.price.None? ==> k == 0
  {
    a.price.GetOr(0)
  }

  /** The key of a numeric sort field. */
  function NumericKey(f: SortField, a: AmmoType): int
    requires f != ByName
  {
    match f
    case ByVelocity => a.velocity
    case ByDispersion => a.dispersion
    case ByPrice => PriceKey(a)
  }

  /** `valueA < valueB` for the chosen field. */
  predicate KeyLess(f: SortField, x: AmmoType, y: AmmoType) {
    if f == ByName then StrLess(x.name, y.name) else NumericKey(f, x) < NumericKey(f, y)
  }

  /** The comparator handed to `sort`. It never returns 0: ties give -1 in
      both directions. */
  function Compare(f: SortField, d: Direction, x: AmmoType, y: AmmoType): (r: int)
    ensures r == 1 || r == -1
    ensures d == Asc ==> (r == 1 <==> KeyLess(f, y, x))
    ensures d == Desc ==> (r == 1 <==> KeyLess(f, x, y))
  {
    match d
    case Asc => if KeyLess(f, y, x) then 1 else -1
    case Desc => if KeyLess(f, x, y) then 1 else -1
  }

  /** The comparator does not ask for `y` to come before `x`. */
  predicate Precedes(f: SortField, d: Direction, x: AmmoType, y: AmmoType) {
    Compare(f, d, x, y) < 0
  }

  /** `x` comes strictly before `y`: its key is smaller (ascending) or larger
      (descending). */
  predicate Ahead(f: SortField, d: Direction, x: AmmoType, y: AmmoType) {
    if d == Asc then KeyLess(f, x, y) else KeyLess(f, y, x)
  }

  /** The comparator as an order on records. */
  function Before(f: SortField, d: Direction): (AmmoType, AmmoType) -> bool {
    (x: AmmoType, y: AmmoType) => Precedes(f, d, x, y)
  }

  predicate SortedBy(s: seq<AmmoType>, f: SortField, d: Direction) {
    Sorted(s, Before(f, d))
  }

  lemma KeyLessAsymmetric(f: SortField, x: AmmoType, y: AmmoType)
    ensures !(KeyLess(f, x, y) && KeyLess(f, y, x))
    ensures !KeyLess(f, x, x)
  {
    if f == ByName {
      StrLessTrichotomy(x.name, y.name);
      StrLessIrreflexive(x.name);
    }
  }

  lemma KeyLessTransitive(f: SortField, x: AmmoType, y: AmmoType, z: AmmoType)
    requires KeyLess(f, x, y) && KeyLess(f, y, z)
    ensures KeyLess(f, x, z)
  {
    if f == ByName {
      StrLessTransitive(x.name, y.name, z.name);
    }
  }

  /** `x` may precede `y` exactly when `y` is not strictly ahead of `x`. */
  lemma PrecedesNotAhead(f: SortField, d: Direction, x: AmmoType, y: AmmoType)
    ensures Precedes(f, d, x, y) <==> !Ahead(f, d, y, x)
  {
  }

  /** Any two records can be put in some order. */
  lemma PrecedesTotal(f: SortField, d: Direction, x: AmmoType, y: AmmoType)
    ensures Precedes(f, d, x, y) || Precedes(f, d, y, x)
  {
    KeyLessAsymmetric(f, x, y);
  }

  lemma PrecedesTransitive(f: SortField, d: Direction, x: AmmoType, y: AmmoType, z: AmmoType)
    requires Precedes(f, d, x, y) && Precedes(f, d, y, z)
    ensures Precedes(f, d, x, z)
  {
    if f == ByName {
      StrLessTrichotomy(x.name, y.name);
      StrLessTrichotomy(y.name, z.name);
      StrLessTrichotomy(x.name, z.name);
      if d == Asc && StrLess(z.name, x.name) {
        if StrLess(x.name, y.name) {
          StrLessTransitive(z.name, x.name, y.name);
        }
      } else if d == Desc && StrLess(x.name, z.name) {
        if StrLess(z.name, y.name) {
          StrLessTransitive(x.name, z.name, y.name);
        }
      }
    }
  }

  /** Sorted ascending means the keys never decrease; descending, never
      increase. Records with equal keys may stand in either order. */
  lemma SortedMeansMonotoneKeys(s: seq<AmmoType>, f: SortField, d: Direction)
    requires SortedBy(s, f, d)
    ensures f != ByName && d == Asc ==> forall i, j :: 0 <= i < j < |s| ==> NumericKey(f, s[i]) <= NumericKey(f, s[j])
    ensures f != ByName && d == Desc ==> forall i, j :: 0 <= i < j < |s| ==> NumericKey(f, s[i]) >= NumericKey(f, s[j])
    ensures f == ByName && d == Asc ==> forall i, j :: 0 <= i < j < |s| ==> !StrLess(s[j].name, s[i].name)
    ensures f == ByName && d == Desc ==> forall i, j :: 0 <= i < j < |s| ==> !StrLess(s[i].name, s[j].name)
  {
  }

  // ---------------------------------------------------------------------------
  // Sorting

  /** The comparator orders records consistently: any two can be ordered,
      and the order chains. */
  lemma BeforeIsTotalPreorder(f: SortField, d: Direction)
    ensures IsTotalPreorder(Before(f, d))
  {
    forall x, y ensures Before(f, d)(x, y) || Before(f, d)(y, x) {
      PrecedesTotal(f, d, x, y);
    }
    forall x, y, z | Before(f, d)(x, y) && Before(f, d)(y, z) ensures Before(f, d)(x, z) {
      PrecedesTransitive(f, d, x, y, z);
    }
  }

  /** `[...ammoOptions].sort(comparator)`: a fresh array holding the records
      of `list` is sorted in place and returned. */
  method SortedCopy(list: seq<AmmoType>, f: SortField, d: Direction) returns (r: seq<AmmoType>)
    ensures SortedBy(r, f, d)
    ensures multiset(r) == multiset(list)
  {
    var a := new AmmoType[|list|](k requires 0 <= k < |list| => list[k]);
    assert a[..] == list;
    BeforeIsTotalPreorder(f, d);
    SortInPlace(a, Before(f, d));
    r := a[..];
  }

  /** No two records of `s` share a key. */
  predicate DistinctKeys(s: seq<AmmoType>, f: SortField) {
    forall i, j :: 0 <= i < j < |s| ==> KeyLess(f, s[i], s[j]) || KeyLess(f, s[j], s[i])
  }

  /** Ascending with no two keys equal means strictly ascending. */
  lemma AscDistinctIsStrict(up: seq<AmmoType>, f: SortField)
    requires DistinctKeys(up, f) && SortedBy(up, f, Asc)
    ensures forall i, j :: 0 <= i < j < |up| ==> KeyLess(f, up[i], up[j])
  {
    forall i, j | 0 <= i < j < |up| ensures KeyLess(f, up[i], up[j]) {
      assert Before(f, Asc)(up[i], up[j]);
    }
  }

  /** When no two records share a key, the descending result is the
      ascending result reversed. */
  lemma DescIsReversedAsc(up: seq<AmmoType>, down: seq<AmmoType>, f: SortField)
    requires DistinctKeys(up, f)
    requires SortedBy(up, f, Asc) && SortedBy(down, f, Desc)
    requires multiset(up) == multiset(down)
    ensures down == Reverse(up)
  {
    var rev := Reverse(up);
    var lt := (x: AmmoType, y: AmmoType) => KeyLess(f, x, y);
    var ahead := (x: AmmoType, y: AmmoType) => KeyLess(f, y, x);
    ReverseMultiset(up);
    AscDistinctIsStrict(up, f);
    ReverseFlipsOrder(up, rev, lt);
    forall i | 0 <= i < |rev| ensures !ahead(rev[i], rev[i]) {
      KeyLessAsymmetric(f, rev[i], rev[i]);
    }
    forall i, j | 0 <= i < j < |down| ensures !ahead(down[j], down[i]) {
      assert Before(f, Desc)(down[i], down[j]);
    }
    StrictlySortedUnique(rev, down, ahead);
  }

  // ---------------------------------------------------------------------------
  // The page state

  /** The page's state. `db` is the catalog the page reads, fixed when the
      page is created. */
  class Ammunition {
    const db: seq<AmmoType>
    var calibers: seq<string>
    var selectedCaliber: string
    var ammoList: seq<AmmoType>
    var searchQuery: string
    var sortBy: string
    var sortDirection: Direction

    /** `ammoList` is the caliber group, searched, sorted by the current
        field and direction. */
    predicate Shows(list: seq<AmmoType>)
      reads this
    {
      var group := SearchFilter(ByCaliber(db, selectedCaliber), searchQuery);
      SortedBy(list, ParseSortField(sortBy), sortDirection) && multiset(list) == multiset(group)
    }

    /** Whenever a caliber is chosen, the list shows it. */
    predicate Valid()
      reads this
    {
      selectedCaliber != "" ==> Shows(ammoList)
    }

    /** The initial state: nothing chosen, nothing listed, sorted by name
        ascending. */
    constructor()
      ensures Valid()
      ensures db == AmmoCatalog.Catalog
      ensures calibers == [] && selectedCaliber == "" && ammoList == []
      ensures searchQuery == "" && sortBy == "name" && sortDirection == Asc
    {
      db := AmmoCatalog.Catalog;
      calibers, selectedCaliber, ammoList := [], "", [];
      searchQuery, sortBy, sortDirection := "", "name", Asc;
    }

    /** The list effect. While no caliber is chosen it does nothing. */
    method Refresh()
      modifies this`ammoList
      ensures Valid()
      ensures selectedCaliber == "" ==> ammoList == old(ammoList)
      ensures selectedCaliber != "" ==> Shows(ammoList)
    {
      if selectedCaliber != "" {
        var options := ByCaliber(db, selectedCaliber);
        options := SearchFilter(options, searchQuery);
        ammoList := SortedCopy(options, ParseSortField(sortBy), sortDirection);
      }
    }

    /** The mount effect: load the calibers and select the first one, which
        makes the list effect run. Over the catalog that is "7.65 browning"
        (`AmmoCatalog.FirstCaliber`). */
    method Mount()
      requires Valid()
      modifies this
      ensures Valid()
      ensures calibers == AllCalibers(db)
      ensures |db| > 0 ==> selectedCaliber == calibers[0] == db[0].caliber
      ensures |db| == 0 ==> selectedCaliber == old(selectedCaliber)
      ensures selectedCaliber != "" ==> Shows(ammoList)
      ensures selectedCaliber == "" ==> ammoList == old(ammoList)
      ensures searchQuery == old(searchQuery) && sortBy == old(sortBy) && sortDirection == old(sortDirection)
    {
      var all := AllCalibers(db);
      calibers := all;
      if |db| > 0 {
        AllCalibersHead(db);
        SelectCaliber(all[0]);
      } else {
        assert |all| == 0;
      }
    }

    /** A state setter re-runs the list effect only when the value changes;
        the same value leaves the list as it was. */
    method SelectCaliber(caliber: string)
      requires Valid()
      modifies this
      ensures Valid()
      ensures selectedCaliber == caliber
      ensures caliber == old(selectedCaliber) ==> ammoList == old(ammoList)
      ensures caliber != "" ==> Shows(ammoList)
      ensures caliber == "" ==> ammoList == old(ammoList)
      ensures calibers == old(calibers) && searchQuery == old(searchQuery)
      ensures sortBy == old(sortBy) && sortDirection == old(sortDirection)
    {
      if caliber != selectedCaliber {
        selectedCaliber := caliber;
        Refresh();
      }
    }

    method SetSearchQuery(query: string)
      requires Valid()
      modifies this
      ensures Valid()
      ensures searchQuery == query
      ensures query == old(searchQuery) ==> ammoList == old(ammoList)
      ensures selectedCaliber != "" ==> Shows(ammoList)
      ensures selectedCaliber == "" ==> ammoList == old(ammoList)
      ensures calibers == old(calibers) && selectedCaliber == old(selectedCaliber)
      ensures sortBy == old(sortBy) && sortDirection == old(sortDirection)
    {
      if query != searchQuery {
        searchQuery := query;
        Refresh();
      }
    }

    method SetSortBy(field: string)
      requires Valid()
      modifies this
      ensures Valid()
      ensures sortBy == field
      ensures field == old(sortBy) ==> ammoList == old(ammoList)
      ensures selectedCaliber != "" ==> Shows(ammoList)
      ensures selectedCaliber == "" ==> ammoList == old(ammoList)
      ensures calibers == old(calibers) && selectedCaliber == old(selectedCaliber)
      ensures searchQuery == old(searchQuery) && sortDirection == old(sortDirection)
    {
      if field != sortBy {
        sortBy := field;
        Refresh();
      }
    }

    /** `toggleSortDirection`: asc and desc swap and the list is sorted
        again. */
    method ToggleSortDirection()
      modifies this
      ensures Valid()
      ensures sortDirection == Flip(old(sortDirection))
      ensures selectedCaliber != "" ==> Shows(ammoList)
      ensures selectedCaliber == "" ==> ammoList == old(ammoList)
      ensures calibers == old(calibers) && selectedCaliber == old(selectedCaliber)
      ensures searchQuery == old(searchQuery) && sortBy == old(sortBy)
    {
      sortDirection := Flip(sortDirection);
      Refresh();
    }
  }
}
