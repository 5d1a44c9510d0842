# GZW ammunition database: a Dafny model of its core

The application is a browser database of the ammunition in the game *Gray
Zone Warfare*. A fixed catalog of 44 rounds, grouped by caliber, is compiled
into the program. Three screens read it:

- the **Ammunition** list picks a caliber, filters its rounds by a search
  text, and sorts them by name, velocity, dispersion or price, in either
  direction;
- the **detail** page of one round lists up to three other rounds of its
  caliber and works out three effectiveness scores against the caliber's
  extremes. It also ranks those scores into a profile sentence and colours
  the score bars and the penetration grid;
- the **comparison** panel ticks rounds of one caliber. It derives the rows
  and chart points for the ticked rounds and resets the ticks when the
  caliber changes.

The model keeps each source file's form:

| module | what it holds |
|---|---|
| `AmmoData` | the record type, the penetration tables, the queries over any catalog `db`, the two penetration display helpers |
| `AmmoCatalog` | the catalog constant, with proofs that every record is well formed and ids are unique |
| `AmmunitionPage` | the search filter, the comparator and its order laws, and class `Ammunition` holding the page's state |
| `AmmoDetail` | similar rounds, group extremes, the three scores, the profile ranking and sentence, the colour maps, and class `AmmoDetailPage` |
| `AmmoComparison` | toggling, selection, chart data, the penetration row, and class `Comparison` |

Four modules support them:

- `Wrappers` holds `Option`.
- `Collections` holds the list operations the source borrows from JavaScript: `new Set`, `filter` and `find`. It also holds list reversal, which the source never performs; it only serves to prove that the descending order is the ascending order reversed.
- `Text` holds `toLowerCase`, `includes`, string order and number formatting.
- `Sorting` holds an in-place comparator sort.

JavaScript's `undefined` and `NaN` are `None`:

- a penetration table has no entry for the level read;
- a division by a zero top velocity.

`Math.max()` of no values is `-Infinity`. `MaxVelocity` returns `None` for it, and a velocity divided by it gives the ratio 0.

Scores are computed over exact reals. `Math.round(x)` is `floor(x + 0.5)`.

Notes on the scoring code:

- **Unarmored score.** It is the weighted blend of velocity and
  dispersion at `src/pages/AmmoDetail.tsx:43-45`, with no special case for
  penetration. The catalog's XTREME PEN 9mm round scores 98 although it
  tops the helmet penetration scale (`AmmoDetail.XtremePenScores`).
- **Top velocity.** The group's top velocity includes rounds of velocity 0.
- **Heavy-armour score.** It reads helmet levels IIIA and IIIA+. No record
  has those, so the score is undefined for every catalog round
  (`AmmoDetail.HeavyScoreUndefinedEverywhere`).
- **Velocity remark.** Velocity 0 counts as "lower velocity".

## Model

| member | source | states |
|---|---|---|
| AmmoData.AllCalibers | src/data/ammoData.ts:524-526 | the calibers are duplicate-free, are exactly the calibers of the records, and come in order of first appearance |
| AmmoData.AllCalibersHead | src/data/ammoData.ts:524-526 | a non-empty catalog's first caliber is the first record's caliber |
| AmmoData.ByCaliberMembers | src/data/ammoData.ts:529-531 | a round is in a caliber's group iff it is in the catalog with that caliber; an unknown caliber gives an empty group |
| AmmoData.ByCaliberIsSubsequence | src/data/ammoData.ts:529-531 | a group keeps catalog order |
| AmmoData.ByCaliberCount | src/data/ammoData.ts:529-531 | a group keeps every record of its caliber as often as the catalog has it, and no other |
| AmmoData.ByCaliber | src/data/ammoData.ts:529-531 | a group is no longer than the catalog; its members, counts and order are stated by the four ByCaliber lemmas below |
| AmmoData.ByCaliberKeepsOrder | src/data/ammoData.ts:529-531 | of two records in a group, the one first in the group comes first in the catalog |
| AmmoData.ByCaliberAppend | src/data/ammoData.ts:529-531 | grouping a catalog split in two groups each part and joins the results |
| AmmoData.GroupedCount | src/data/ammoData.ts:524-531 | the groups of distinct calibers, joined, hold exactly the records of those calibers |
| AmmoData.CalibersPartitionCatalog | src/data/ammoData.ts:524-531 | the groups of all calibers are a permutation of the catalog |
| AmmoData.FindById | src/data/ammoData.ts:534-536 | lookup is undefined iff no record has the id; otherwise it returns the first record with that id |
| AmmoData.FindByIdOwnId | src/data/ammoData.ts:534-536 | with unique ids, every record is found by its own id |
| AmmoData.PenetrationLevelText | src/data/ammoData.ts:539-547 | "Unknown" exactly when the value is not one of 0..3, `undefined` included |
| AmmoData.PenetrationLevelTextClassifies | src/data/ammoData.ts:539-547 | the four values get four distinct texts |
| AmmoData.PenetrationColorClass | src/data/ammoData.ts:550-558 | "bg-gray-400" exactly when the value is not one of 0..3 |
| AmmoData.PenetrationColorClassClassifies | src/data/ammoData.ts:550-558 | the four values get four distinct colours |
| AmmoCatalog.CatalogIsValid | src/data/ammoData.ts:4-23 | every catalog record has velocity at least 0, a positive price or none, and exactly its type's helmet and body levels with values 0..3; ids are unique |
| AmmoCatalog.FirstCaliber | src/data/ammoData.ts:524-526 | the catalog's caliber list starts with "7.65 browning" |
| AmmoCatalog.LookupOwnId | src/data/ammoData.ts:534-536 | every catalog record is found by its own id |
| AmmoCatalog.GroupOfBlock | src/data/ammoData.ts:529-531 | when one block holds only a caliber's records and no other block holds any, the caliber's group is that block |
| AmmoCatalog.BlocksAreCaliberGroups | src/data/ammoData.ts:27-521 | each block of the catalog holds only its own caliber |
| AmmoCatalog.CaliberGroupIsBlock | src/data/ammoData.ts:27-531 | every caliber's group in the catalog is that caliber's block, in order |
| AmmoCatalog.CatalogCalibers | src/data/ammoData.ts:27-526 | the catalog constant covers exactly the nine calibers of its blocks, so `getAllCalibers()` lists those and no other |
| Collections.Distinct | src/data/ammoData.ts:525 | the result is duplicate-free, has the same members, and keeps first-appearance order |
| Collections.Filter | src/data/ammoData.ts:530 | the result is no longer than the input and holds exactly the members that pass |
| Collections.FilterCount | src/data/ammoData.ts:530 | each passing element is kept as often as it occurs; failing ones are dropped |
| Collections.FilterIsSubsequence | src/data/ammoData.ts:530 | filtering keeps order |
| Collections.FilterKeepsOrder | src/data/ammoData.ts:530 | of two kept elements, the one first in the result comes first in the input |
| Collections.PrefixComesFirst | src/pages/AmmoDetail.tsx:23 | an element among the first n comes before anything outside them |
| Collections.FilterIdempotent | src/data/ammoData.ts:530 | filtering twice by one predicate is filtering once |
| Collections.FilterAgrees | src/components/AmmoComparison.tsx:56 | predicates that agree on the elements filter alike |
| Collections.Find | src/data/ammoData.ts:535 | the result is undefined iff nothing passes; otherwise it is the first element that passes |
| Collections.ReverseMultiset | src/pages/Ammunition.tsx:60-64 | reversing a list is a permutation of it |
| Text.Lower | src/pages/Ammunition.tsx:27-30 | no capital letter is left, every other character is kept, and the result equals the input up to case |
| Text.LowerCaseInsensitive | src/pages/Ammunition.tsx:27-30 | strings equal up to case lower to the same string |
| Text.LowerIdempotent | src/pages/Ammunition.tsx:27-30 | lower-casing twice is lower-casing once |
| Text.Includes | src/pages/Ammunition.tsx:29-30 | the result is true iff the needle occurs at some position of the text |
| Text.IncludesEmpty | src/pages/Ammunition.tsx:29-30 | every text includes the empty text |
| Text.StrLessTrichotomy | src/pages/Ammunition.tsx:60-64 | of two different strings exactly one is smaller |
| Text.StrLessTransitive | src/pages/Ammunition.tsx:60-64 | string order chains |
| Text.NatToString | src/pages/AmmoDetail.tsx:67 | a non-empty string of digits with no leading zero, starting with '0' only for 0 |
| Text.NatToStringValue | src/pages/AmmoDetail.tsx:67 | the decimal text of n reads back as n |
| Text.IntToString | src/pages/AmmoDetail.tsx:67-74 | a non-empty text: digits with no leading zero reading back as the number, after a '-' when it is negative |
| Sorting.SortInPlace | src/pages/Ammunition.tsx:35-65 | after sorting, the array is ordered by the comparator and is a permutation of what it held |
| Sorting.StrictlySortedUnique | src/pages/Ammunition.tsx:35-65 | under a strict order, a sorted arrangement of given elements is unique |
| Sorting.ReverseFlipsOrder | src/pages/Ammunition.tsx:60-64 | reversing a strictly ordered list orders it the other way |
| AmmunitionPage.MatchesIgnoresCase | src/pages/Ammunition.tsx:27-30 | whether a round matches does not depend on the case of the query |
| AmmunitionPage.SearchFilter | src/pages/Ammunition.tsx:26-32 | an empty query keeps the list; otherwise a round is kept iff its lower-cased name or trader includes the lower-cased query |
| AmmunitionPage.SearchFilterIgnoresCase | src/pages/Ammunition.tsx:26-32 | queries equal up to case keep the same rounds |
| AmmunitionPage.SearchFilterKeepsOrder | src/pages/Ammunition.tsx:26-32 | searching keeps the group's order |
| AmmunitionPage.SearchFilterIdempotent | src/pages/Ammunition.tsx:26-32 | searching twice with one query is searching once |
| AmmunitionPage.SearchFilterCount | src/pages/Ammunition.tsx:26-32 | each matching round is kept as often as it occurs |
| AmmunitionPage.ParseSortField | src/pages/Ammunition.tsx:38-58 | "velocity", "dispersion" and "price" select their fields; any other value sorts by name |
| AmmunitionPage.PriceKey | src/pages/Ammunition.tsx:51-54 | a missing price sorts as 0 |
| AmmunitionPage.Compare | src/pages/Ammunition.tsx:60-64 | the comparator is never 0; ascending it is 1 iff the first key is greater, descending iff it is smaller |
| AmmunitionPage.Flip | src/pages/Ammunition.tsx:83-85 | toggling changes the direction |
| AmmunitionPage.FlipTwice | src/pages/Ammunition.tsx:83-85 | toggling twice restores it |
| AmmunitionPage.KeyLessAsymmetric | src/pages/Ammunition.tsx:38-64 | the key order is irreflexive and asymmetric |
| AmmunitionPage.KeyLessTransitive | src/pages/Ammunition.tsx:38-64 | the key order chains |
| AmmunitionPage.PrecedesNotAhead | src/pages/Ammunition.tsx:60-64 | x may precede y iff the comparator does not put y first |
| AmmunitionPage.PrecedesTotal | src/pages/Ammunition.tsx:60-64 | of any two rounds one may precede the other |
| AmmunitionPage.PrecedesTransitive | src/pages/Ammunition.tsx:60-64 | precedence chains |
| AmmunitionPage.BeforeIsTotalPreorder | src/pages/Ammunition.tsx:35-65 | the comparator's order is a total preorder, so the list can be sorted by it |
| AmmunitionPage.SortedMeansMonotoneKeys | src/pages/Ammunition.tsx:35-65 | a sorted list has keys non-decreasing ascending and non-increasing descending |
| AmmunitionPage.SortedCopy | src/pages/Ammunition.tsx:35 | the copy is sorted by the field and direction and is a permutation of the list |
| AmmunitionPage.AscDistinctIsStrict | src/pages/Ammunition.tsx:60-61 | with distinct keys an ascending list is strictly increasing |
| AmmunitionPage.DescIsReversedAsc | src/pages/Ammunition.tsx:60-64 | with distinct keys the descending order is exactly the ascending order reversed |
| AmmunitionPage.Ammunition.constructor | src/pages/Ammunition.tsx:6-11 | the initial state: no calibers, no caliber, no list, empty search, sort by name ascending |
| AmmunitionPage.Ammunition.Refresh | src/pages/Ammunition.tsx:21-69 | no caliber leaves the list; otherwise the list is the caliber's group, searched, sorted by field and direction |
| AmmunitionPage.Ammunition.Mount | src/pages/Ammunition.tsx:13-19 | the calibers are loaded, the first one is chosen, and the list shows it |
| AmmunitionPage.Ammunition.SelectCaliber | src/pages/Ammunition.tsx:71-73 | the caliber is set; a new caliber recomputes the list, the same one leaves it; nothing else changes and the list keeps showing the chosen caliber |
| AmmunitionPage.Ammunition.SetSearchQuery | src/pages/Ammunition.tsx:75-77 | the query is set; a new query recomputes the list, the same one leaves it; nothing else changes |
| AmmunitionPage.Ammunition.SetSortBy | src/pages/Ammunition.tsx:79-81 | the field is set; a new field re-sorts the list, the same one leaves it; nothing else changes |
| AmmunitionPage.Ammunition.ToggleSortDirection | src/pages/Ammunition.tsx:83-85 | the direction flips and the list is re-sorted; nothing else changes |
| AmmoDetail.SimilarAmmo | src/pages/AmmoDetail.tsx:21-23 | the first three rounds of the round's caliber with a different id, in catalog order: each comes before every candidate left out, and fewer than three only when there are no more |
| AmmoDetail.CandidatePrefixFirst | src/pages/AmmoDetail.tsx:21-23 | the first n candidates come, in the catalog, before every candidate after them |
| AmmoDetail.MaxVelocity | src/pages/AmmoDetail.tsx:35-36 | undefined iff the group is empty; otherwise the largest velocity of the group |
| AmmoDetail.MaxDispersion | src/pages/AmmoDetail.tsx:37-38 | at least 6, at least every dispersion, and 6 or one of them |
| AmmoDetail.MinDispersion | src/pages/AmmoDetail.tsx:37-39 | at most -2, at most every dispersion, and -2 or one of them |
| AmmoDetail.DispersionSpan | src/pages/AmmoDetail.tsx:38-40 | the dispersion range is at least 8 wide, so normalising never divides by zero |
| AmmoDetail.Round | src/pages/AmmoDetail.tsx:43-54 | rounding lands within half of the value, halves going up |
| AmmoDetail.RoundMonotone | src/pages/AmmoDetail.tsx:43-54 | rounding keeps order |
| AmmoDetail.RoundPercent | src/pages/AmmoDetail.tsx:43-54 | a value in 0..100 rounds into 0..100 |
| AmmoDetail.VelocityRatio | src/pages/AmmoDetail.tsx:36-44 | no peers gives ratio 0 (velocity over minus infinity); a zero top velocity gives no number; otherwise ratio times top equals velocity |
| AmmoDetail.RatioInUnitInterval | src/pages/AmmoDetail.tsx:40-44 | a part of a positive whole is a fraction in 0..1 |
| AmmoDetail.OwnPeer | src/pages/AmmoDetail.tsx:34-39 | a catalog round is one of its group, so the group's extremes bound it |
| AmmoDetail.UnArmoredScore | src/pages/AmmoDetail.tsx:43-45 | undefined exactly when the top velocity is 0 |
| AmmoDetail.LightArmorScore | src/pages/AmmoDetail.tsx:46-49 | defined exactly when the helmet table has IIA and IIA+ and the top velocity is not 0 |
| AmmoDetail.HeavyArmorScore | src/pages/AmmoDetail.tsx:50-54 | defined exactly when the tables have IIIA, IIIA+, III and III+ and the top velocity is not 0 |
| AmmoDetail.CalculateScores | src/pages/AmmoDetail.tsx:33-56 | the unarmored score is undefined exactly when the group's top velocity is 0; a light score implies an unarmored one; a heavy score needs helmet IIIA and IIIA+ |
| AmmoDetail.UnArmoredInRange | src/pages/AmmoDetail.tsx:40-45 | with velocity within 0..top and dispersion within range, the unarmored score is defined and in 0..100 |
| AmmoDetail.UnArmoredScoreBounds | src/pages/AmmoDetail.tsx:33-45 | for a catalog round with positive top velocity, its unarmored score is in 0..100 |
| AmmoDetail.UnArmoredMonotoneInVelocity | src/pages/AmmoDetail.tsx:43-45 | more velocity never lowers the unarmored score |
| AmmoDetail.UnArmoredAntitoneInDispersion | src/pages/AmmoDetail.tsx:40-45 | more dispersion never raises the unarmored score |
| AmmoDetail.LightArmorInRange | src/pages/AmmoDetail.tsx:46-49 | with helmet IIA and IIA+ values in 0..3 and velocity within 0..top, the light-armour score is in 0..100 |
| AmmoDetail.HeavyArmorUndefined | src/pages/AmmoDetail.tsx:50-54 | a well-formed record has no heavy-armour score, since its helmet table lacks IIIA and IIIA+ |
| AmmoDetail.TopPenetrationExample | src/pages/AmmoDetail.tsx:43-49 | velocity 381 of top 390 at the lowest dispersion scores 98 unarmored; helmet values 3 with it score 100 light |
| AmmoDetail.TopPenetrationScores | src/pages/AmmoDetail.tsx:33-56 | a round with those figures in a group with those extremes scores 98, 100 and undefined |
| AmmoDetail.NineMillimetreExtremes | src/pages/AmmoDetail.tsx:35-39 | the 9mm block's top velocity is 390 and its dispersion range is -2..6 |
| AmmoDetail.XtremePenScores | src/pages/AmmoDetail.tsx:33-56 | the catalog's XTREME PEN round scores 98 unarmored, 100 light, and no heavy score |
| AmmoDetail.HeavyScoreUndefinedEverywhere | src/pages/AmmoDetail.tsx:50-54 | no catalog round has a heavy-armour score |
| AmmoDetail.ScoreCompare | src/pages/AmmoDetail.tsx:64 | the comparator is positive iff the second score is larger; an undefined score compares as equal |
| AmmoDetail.Swap | src/pages/AmmoDetail.tsx:64 | two slots trade places and nothing else changes |
| AmmoDetail.RankScores | src/pages/AmmoDetail.tsx:59-64 | the three entries are permuted; with all scores defined they are non-increasing; with only the heavy score undefined the better of the first two comes first, unarmored winning a tie |
| AmmoDetail.VelocityRemark | src/pages/AmmoDetail.tsx:66-70 | above 500 the high-velocity remark, below 350 the lower-velocity remark, and none iff velocity is in 350..500 |
| AmmoDetail.DispersionRemark | src/pages/AmmoDetail.tsx:71-75 | below 0 the reduced-dispersion remark with the '-' of the number, above 2 the increased-dispersion remark with a '+', and none iff dispersion is in 0..2 |
| AmmoDetail.CategoriesDistinct | src/pages/AmmoDetail.tsx:59-63 | the three category names differ |
| AmmoDetail.FirstIsTopRanked | src/pages/AmmoDetail.tsx:64-65 | the entry the ranking puts first is a top-ranked category |
| AmmoDetail.AmmoProfile | src/pages/AmmoDetail.tsx:58-77 | the sentence names a top-ranked category, then adds the velocity and dispersion remarks |
| AmmoDetail.EffectivenessColor | src/pages/AmmoDetail.tsx:80-84 | green iff the score is at least 70, amber iff it is in 40..69, red iff it is below 40 or undefined |
| AmmoDetail.DetailPenetrationColorClass | src/pages/AmmoDetail.tsx:87-95 | "bg-gray-700" exactly when the level is not one of 0..3, a missing level included |
| AmmoDetail.DetailPenetrationColorClassClassifies | src/pages/AmmoDetail.tsx:87-95 | the four levels get four distinct colours |
| AmmoDetail.MissingHelmetCellsGrey | src/pages/AmmoDetail.tsx:234 | a well-formed record's helmet IIIA and IIIA+ cells are grey |
| AmmoDetail.AmmoDetailPage.constructor | src/pages/AmmoDetail.tsx:8-14 | no round, no similar rounds, scores 0/0/0 |
| AmmoDetail.AmmoDetailPage.Load | src/pages/AmmoDetail.tsx:16-31 | an empty id does nothing; an unknown id asks for a redirect and changes nothing; a known id loads the round, its similar rounds and its scores |
| AmmoDetail.AmmoDetailPage.Profile | src/pages/AmmoDetail.tsx:58-77 | the sentence for the loaded round names a top-ranked category under the current scores |
| AmmoComparison.ToggleId | src/components/AmmoComparison.tsx:48-54 | the toggled id's membership flips; every other id's membership is unchanged |
| AmmoComparison.ToggleAppends | src/components/AmmoComparison.tsx:52 | an unticked id is appended after the ticked ones |
| AmmoComparison.ToggleRemoves | src/components/AmmoComparison.tsx:50-51 | a ticked id is removed everywhere; the others keep their counts and their order |
| AmmoComparison.ToggleTwiceRestores | src/components/AmmoComparison.tsx:48-54 | ticking and unticking an id restores the selection |
| AmmoComparison.ToggleTwiceKeepsIds | src/components/AmmoComparison.tsx:48-54 | unticking and re-ticking an id keeps the same ids, the id moving to the end |
| AmmoComparison.ToggleKeepsNoDuplicates | src/components/AmmoComparison.tsx:48-54 | toggling never duplicates an id |
| AmmoComparison.SubsequenceKeepsNoDuplicates | src/components/AmmoComparison.tsx:51 | a list picked out of a duplicate-free list is duplicate-free |
| AmmoComparison.SelectedAmmoData | src/components/AmmoComparison.tsx:56 | the compared rounds are exactly the options whose id is ticked |
| AmmoComparison.SelectedAmmoDataFollowsOptions | src/components/AmmoComparison.tsx:56 | the compared rounds come in options order |
| AmmoComparison.SelectedAmmoDataIgnoresClickOrder | src/components/AmmoComparison.tsx:56 | selections holding the same ids compare the same rounds |
| AmmoComparison.NothingSelectedNothingCompared | src/components/AmmoComparison.tsx:56 | no ticks, no compared rounds |
| AmmoComparison.ChartData | src/components/AmmoComparison.tsx:58-62 | one point per compared round, in order, with its name, velocity and dispersion |
| AmmoComparison.ChartDataAppend | src/components/AmmoComparison.tsx:58-62 | the chart of two lists joined is their charts joined |
| AmmoComparison.PenetrationRow | src/components/AmmoComparison.tsx:166-175 | six dots, one per column; a dot is grey exactly when its column has no value in 0..3 |
| AmmoComparison.PenetrationRowColumns | src/components/AmmoComparison.tsx:166-175 | for a well-formed record the helmet IIIA and IIIA+ dots are grey and the other four are coloured |
| AmmoComparison.Comparison.constructor | src/components/AmmoComparison.tsx:21-24 | nothing chosen, nothing ticked, no options |
| AmmoComparison.Comparison.CaliberChanged | src/components/AmmoComparison.tsx:36-42 | a chosen caliber brings its group as options and clears the ticks; no caliber changes nothing |
| AmmoComparison.Comparison.Mount | src/components/AmmoComparison.tsx:27-33 | the calibers are loaded and the first is chosen, which loads its options when that is a change |
| AmmoComparison.Comparison.ChangeCaliber | src/components/AmmoComparison.tsx:44-46 | choosing a new caliber loads its group and leaves nothing compared; choosing the same one changes nothing |
| AmmoComparison.Comparison.ToggleAmmo | src/components/AmmoComparison.tsx:48-54 | the selection is toggled and stays duplicate-free |

## Left out

- JSX markup, Tailwind classes used only as styling, the recharts bar chart and the card grids are left out. These are presentation. The model keeps the class names that the code computes.
- React scheduling is not modelled. An effect is a method that the state-changing method calls at the end, and only when a value it depends on has changed; a `setState` call that keeps its value re-runs no effect. Navigation to the list is the `redirect` result of `AmmoDetailPage.Load`.
- The catalog a page reads is the field `db`, fixed to the catalog constant. Reading the module-level array is not modelled as a global.
- `toLowerCase` maps ASCII capitals only. String order compares characters one by one, not UTF-16 code units.
- Floating point is not modelled. Scores are exact reals, and an IEEE `NaN` is `None`. A score that only rounding error would change is out of scope.
- Sorting.SortInPlace: an insertion sort. The engine's own algorithm is not modelled. Only sortedness and permutation are claimed, so the order of equal keys is left open. The source's comparator never returns 0. The model lets equal keys come in either order, and it never claims a stable sort.
- AmmoDetail.RankScores: an undefined score compares as 0, as ECMAScript's sort comparison treats `NaN`. With all three scores defined the comparator is consistent and `sort` is stable, so tied entries keep the unarmored, light, heavy order; the contract claims only the non-increasing order and not that tie order. That case never reaches the profile of a loaded catalog round, whose heavy score is always undefined. With an undefined score among defined ones, the comparator is inconsistent and ECMAScript leaves the resulting order to the engine; the contract then claims only the first entry, as the model's insertion sort leaves it.
- The optional `description` field of a record is left out. The core never reads it.
- Number formatting in the profile covers integers only. Every catalog velocity and dispersion is an integer.
- The detail page links to the comparison with `caliber` and `selected` URL parameters (src/pages/AmmoDetail.tsx:127). The comparison panel does not read them, so the model has no such input.
