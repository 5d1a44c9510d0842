/** The detail page of one record (src/pages/AmmoDetail.tsx): the similar
    rounds, the three effectiveness scores, the profile sentence and the two
    colour maps. Scores are computed over exact reals; `None` stands for a
    value that is not a finite number in the program (a lookup of a level the
    record lacks, or a division by a zero maximum velocity). */
module AmmoDetail {
  import opened Wrappers
  import opened Collections
  import opened Text
  import opened AmmoData
  import AmmoCatalog

  // ---------------------------------------------------------------------------
  // Similar rounds

  function Min(a: int, b: int): int {
    if a <= b then a else b
  }

  /** The records of the viewed round's caliber, other than the one viewed,
      in catalog order. */
  function Candidates(db: seq<AmmoType>, ammo: AmmoType, id: string): seq<AmmoType> {
    Filter(ByCaliber(db, ammo.caliber), (a: AmmoType) => a.id != id)
  }

  /** The first `n` candidates come, in the catalog, before every candidate
      after them. */
  lemma CandidatePrefixFirst(db: seq<AmmoType>, ammo: AmmoType, id: string, n: nat)
    requires n <= |Candidates(db, ammo, id)|
    ensures forall i, a :: 0 <= i < n && a in db && a.caliber == ammo.caliber && a.id != id && a !in Candidates(db, ammo, id)[..n] ==>
      FirstIndex(db, Candidates(db, ammo, id)[..n][i]) < FirstIndex(db, a)
  {
    var group := ByCaliber(db, ammo.caliber);
    var others := Candidates(db, ammo, id);
    ByCaliberMembers(db, ammo.caliber);
    forall i, a | 0 <= i < n && a in db && a.caliber == ammo.caliber && a.id != id && a !in others[..n]
      ensures FirstIndex(db, others[..n][i]) < FirstIndex(db, a)
    {
      var x := others[i];
      assert others[..n][i] == x;
      PrefixComesFirst(others, n, i, a);
      FilterKeepsOrder(group, (a: AmmoType) => a.id != id, x, a);
      ByCaliberKeepsOrder(db, ammo.caliber, x, a);
    }
  }

  /** The first three records of the same caliber, other than the one
      viewed, in catalog order. */
  function SimilarAmmo(db: seq<AmmoType>, ammo: AmmoType, id: string): (r: seq<AmmoType>)
    ensures |r| <= 3
    ensures forall a :: a in r ==> a in db && a.caliber == ammo.caliber && a.id != id
    ensures |r| < 3 ==> forall a :: a in db && a.caliber == ammo.caliber && a.id != id ==> a in r
    ensures forall i, a :: 0 <= i < |r| && a in db && a.caliber == ammo.caliber && a.id != id && a !in r ==>
      FirstIndex(db, r[i]) < FirstIndex(db, a)
    ensures IsSubsequence(r, db)
  {
    var group := ByCaliber(db, ammo.caliber);
    var others := Candidates(db, ammo, id);
    ByCaliberMembers(db, ammo.caliber);
    ByCaliberIsSubsequence(db, ammo.caliber);
    FilterIsSubsequence(group, (a: AmmoType) => a.id != id);
    SubsequenceTransitive(others, group, db);
    var n := Min(3, |others|);
    PrefixIsSubsequence(others, db, n);
    assert forall a :: a in others[..n] ==> a in others by {
      forall a | a in others[..n] ensures a in others {
        var k :| 0 <= k < n && others[..n][k] == a;
        assert others[k] == a;
      }
    }
    assert n == |others| ==> others[..n] == others;
    CandidatePrefixFirst(db, ammo, id, n);
    others[..n]
  }

  // ---------------------------------------------------------------------------
  // Extremes over the caliber group

  function Max(a: int, b: int): int {
    if a >= b then a else b
  }

  /** `Math.max(...velocities)`; `None` is the `-Infinity` of an empty
      group. */
  function MaxVelocity(peers: seq<AmmoType>): (m: Option<int>)
    ensures m.None? <==> peers == []
    ensures m.Some? ==> forall k :: 0 <= k < |peers| ==> peers[k].velocity <= m.value
    ensures m.Some? ==> exists k :: 0 <= k < |peers| && peers[k].velocity == m.value
    decreases |peers|
  {
    if peers == [] then None
    else
      var rest := MaxVelocity(peers[1..]);
      if rest.None? then Some(peers[0].velocity)
      else
        assert forall k :: 1 <= k < |peers| ==> peers[k] == peers[1..][k - 1];
        Some(Max(peers[0].velocity, rest.value))
  }

  /** `Math.max(...dispersions, 6)`. */
  function MaxDispersion(peers: seq<AmmoType>): (m: int)
    ensures m >= 6
    ensures forall k :: 0 <= k < |peers| ==> peers[k].dispersion <= m
    ensures m == 6 || exists k :: 0 <= k < |peers| && peers[k].dispersion == m
    decreases |peers|
  {
    if peers == [] then 6
    else
      var rest := MaxDispersion(peers[1..]);
      assert forall k :: 1 <= k < |peers| ==> peers[k] == peers[1..][k - 1];
      Max(peers[0].dispersion, rest)
  }

  /** `Math.min(...dispersions, -2)`. */
  function MinDispersion(peers: seq<AmmoType>): (m: int)
    ensures m <= -2
    ensures forall k :: 0 <= k < |peers| ==> m <= peers[k].dispersion
    ensures m == -2 || exists k :: 0 <= k < |peers| && peers[k].dispersion == m
    decreases |peers|
  {
    if peers == [] then -2
    else
      var rest := MinDispersion(peers[1..]);
      assert forall k :: 1 <= k < |peers| ==> peers[k] == peers[1..][k - 1];
      Min(peers[0].dispersion, rest)
  }

  /** The denominator of the normalised dispersion is at least 8, so it is
      never zero. */
  lemma DispersionSpan(peers: seq<AmmoType>)
    ensures MaxDispersion(peers) - MinDispersion(peers) >= 8
  {
  }

  // ---------------------------------------------------------------------------
  // Scores

  /** `Math.round`: the nearest integer, halves rounded up. */
  function Round(x: real): (n: int)
    ensures x - 0.5 < n as real <= x + 0.5
  {
    (x + 0.5).Floor
  }

  lemma RoundMonotone(x: real, y: real)
    requires x <= y
    ensures Round(x) <= Round(y)
  {
  }

  /** A value in [0, 100] rounds to an integer in [0, 100]. */
  lemma RoundPercent(x: real)
    requires 0.0 <= x <= 100.0
    ensures 0 <= Round(x) <= 100
  {
    RoundMonotone(0.0, x);
    RoundMonotone(x, 100.0);
  }

  /** `velocity / maxVelocity`. Dividing by `-Infinity` gives 0; dividing by 0
      gives no finite number. */
  function VelocityRatio(velocity: int, maxVelocity: Option<int>): (r: Option<real>)
    ensures maxVelocity.None? ==> r == Some(0.0)
    ensures r.None? <==> maxVelocity == Some(0)
    ensures r.Some? && maxVelocity.Some? ==> r.value * maxVelocity.value as real == velocity as real
  {
    match maxVelocity
    case None => Some(0.0)
    case Some(m) => if m == 0 then None else Some(velocity as real / m as real)
  }

  /** `(dispersion - minDispersion) / (maxDispersion - minDispersion)`. */
  function NormalizedDispersion(dispersion: int, minD: int, maxD: int): real
    requires minD < maxD
  {
    (dispersion - minD) as real / (maxD - minD) as real
  }

  lemma RatioInUnitInterval(a: real, b: real)
    requires 0.0 <= a <= b && b > 0.0
    ensures 0.0 <= a / b <= 1.0
  {
    assert a / b * b == a;
  }

  lemma RatioMonotone(a: real, c: real, b: real)
    requires a <= c && b > 0.0
    ensures a / b <= c / b
  {
    assert a / b * b == a && c / b * b == c;
  }

  /** Undefined (`NaN`) exactly when the group's top velocity is 0. */
  function UnArmoredScore(velocity: int, maxVelocity: Option<int>, dispersion: int, minD: int, maxD: int): (r: Option<int>)
    requires minD < maxD
    ensures r.None? <==> maxVelocity == Some(0)
  {
    match VelocityRatio(velocity, maxVelocity)
    case None => None
    case Some(ratio) =>
      var inverted := 1.0 - NormalizedDispersion(dispersion, minD, maxD);
      Some(Round((ratio * 0.7 + inverted * 0.3) * 100.0))
  }

  /** Defined exactly when the table has levels IIA and IIA+ and the top
      velocity is not 0. */
  function LightArmorScore(helm: PenetrationMap, velocity: int, maxVelocity: Option<int>): (r: Option<int>)
    ensures r.Some? <==> IIA in helm && IIAPlus in helm && maxVelocity != Some(0)
  {
    match (Lookup(helm, IIA), Lookup(helm, IIAPlus), VelocityRatio(velocity, maxVelocity))
    case (Some(a), Some(b), Some(ratio)) =>
      Some(Round((a + b) as real / 6.0 * 100.0 * 0.8 + ratio * 0.2 * 100.0))
    case _ => None
  }

  /** Reads helmet levels IIIA and IIIA+, which a record's helmet table does
      not have; defined exactly when all four levels are present and the top
      velocity is not 0. */
  function HeavyArmorScore(helm: PenetrationMap, body: PenetrationMap, velocity: int, maxVelocity: Option<int>): (r: Option<int>)
    ensures r.Some? <==> IIIA in helm && IIIAPlus in helm && III in body && IIIPlus in body && maxVelocity != Some(0)
  {
    match (Lookup(helm, IIIA), Lookup(helm, IIIAPlus), Lookup(body, III), Lookup(body, IIIPlus))
    case (Some(a), Some(b), Some(c), Some(d)) =>
      (match VelocityRatio(velocity, maxVelocity)
       case Some(ratio) => Some(Round((a + b + c + d) as real / 12.0 * 100.0 * 0.8 + ratio * 0.2 * 100.0))
       case None => None)
    case _ => None
  }

  datatype Scores = Scores(unArmored: Option<int>, lightArmor: Option<int>, heavyArmor: Option<int>)

  /** `calculateScores`: the record against the extremes of its caliber
      group. The unarmored score is undefined only when every round of the
      group has velocity 0; the heavy score needs helmet levels a record
      does not carry. */
  function CalculateScores(db: seq<AmmoType>, ammo: AmmoType): (r: Scores)
    ensures r.unArmored.None? <==> MaxVelocity(ByCaliber(db, ammo.caliber)) == Some(0)
    ensures r.lightArmor.Some? ==> r.unArmored.Some?
    ensures r.heavyArmor.Some? ==> IIIA in ammo.helmPenetration && IIIAPlus in ammo.helmPenetration
  {
    var peers := ByCaliber(db, ammo.caliber);
    var maxV := MaxVelocity(peers);
    var maxD, minD := MaxDispersion(peers), MinDispersion(peers);
    Scores(
      UnArmoredScore(ammo.velocity, maxV, ammo.dispersion, minD, maxD),
      LightArmorScore(ammo.helmPenetration, ammo.velocity, maxV),
      HeavyArmorScore(ammo.helmPenetration, ammo.bodyPenetration, ammo.velocity, maxV))
  }

  /** The record is one of its own peers, so the extremes bound it. */
  lemma OwnPeer(db: seq<AmmoType>, ammo: AmmoType)
    requires ammo in db
    ensures ammo in ByCaliber(db, ammo.caliber)
    ensures MaxVelocity(ByCaliber(db, ammo.caliber)).Some?
    ensures ammo.velocity <= MaxVelocity(ByCaliber(db, ammo.caliber)).value
    ensures MinDispersion(ByCaliber(db, ammo.caliber)) <= ammo.dispersion <= MaxDispersion(ByCaliber(db, ammo.caliber))
  {
    ByCaliberMembers(db, ammo.caliber);
    var peers := ByCaliber(db, ammo.caliber);
    var k :| 0 <= k < |peers| && peers[k] == ammo;
  }

  /** Both parts of the unarmored blend lie in [0, 1], so the score is a
      whole percentage. */
  lemma UnArmoredInRange(velocity: int, maxVelocity: int, dispersion: int, minD: int, maxD: int)
    requires 0 <= velocity <= maxVelocity && maxVelocity > 0
    requires minD <= dispersion <= maxD && minD < maxD
    ensures UnArmoredScore(velocity, Some(maxVelocity), dispersion, minD, maxD).Some?
    ensures 0 <= UnArmoredScore(velocity, Some(maxVelocity), dispersion, minD, maxD).value <= 100
  {
    var ratio := velocity as real / maxVelocity as real;
    RatioInUnitInterval(velocity as real, maxVelocity as real);
    RatioInUnitInterval((dispersion - minD) as real, (maxD - minD) as real);
    RoundPercent((ratio * 0.7 + (1.0 - NormalizedDispersion(dispersion, minD, maxD)) * 0.3) * 100.0);
  }

  /** For a record of the catalog with a positive top velocity in its group,
      the unarmored score is defined and lies in [0, 100]. */
  lemma UnArmoredScoreBounds(db: seq<AmmoType>, ammo: AmmoType)
    requires ammo in db && ammo.velocity >= 0
    requires MaxVelocity(ByCaliber(db, ammo.caliber)).value > 0
    ensures CalculateScores(db, ammo).unArmored.Some?
    ensures 0 <= CalculateScores(db, ammo).unArmored.value <= 100
  {
    OwnPeer(db, ammo);
    var peers := ByCaliber(db, ammo.caliber);
    UnArmoredInRange(ammo.velocity, MaxVelocity(peers).value, ammo.dispersion, MinDispersion(peers), MaxDispersion(peers));
  }

  /** With the group fixed, a faster round never scores lower unarmored. */
  lemma UnArmoredMonotoneInVelocity(v1: int, v2: int, maxVelocity: int, dispersion: int, minD: int, maxD: int)
    requires v1 <= v2 && maxVelocity > 0 && minD < maxD
    ensures UnArmoredScore(v1, Some(maxVelocity), dispersion, minD, maxD).value <=
            UnArmoredScore(v2, Some(maxVelocity), dispersion, minD, maxD).value
  {
    RatioMonotone(v1 as real, v2 as real, maxVelocity as real);
    var inverted := 1.0 - NormalizedDispersion(dispersion, minD, maxD);
    RoundMonotone((v1 as real / maxVelocity as real * 0.7 + inverted * 0.3) * 100.0,
                  (v2 as real / maxVelocity as real * 0.7 + inverted * 0.3) * 100.0);
  }

  /** With the velocity fixed, a wider spread never scores higher
      unarmored. */
  lemma UnArmoredAntitoneInDispersion(velocity: int, maxVelocity: Option<int>, d1: int, d2: int, minD: int, maxD: int)
    requires d1 <= d2 && minD < maxD && maxVelocity != Some(0)
    ensures UnArmoredScore(velocity, maxVelocity, d2, minD, maxD).value <=
            UnArmoredScore(velocity, maxVelocity, d1, minD, maxD).value
  {
    var ratio := VelocityRatio(velocity, maxVelocity).value;
    RatioMonotone((d1 - minD) as real, (d2 - minD) as real, (maxD - minD) as real);
    RoundMonotone((ratio * 0.7 + (1.0 - NormalizedDispersion(d2, minD, maxD)) * 0.3) * 100.0,
                  (ratio * 0.7 + (1.0 - NormalizedDispersion(d1, minD, maxD)) * 0.3) * 100.0);
  }

  /** With helmet IIA and IIA+ values in 0..3 and the velocity within the
      group's maximum, the light-armour score lies in [0, 100]. */
  lemma LightArmorInRange(helm: PenetrationMap, velocity: int, maxVelocity: int)
    requires Lookup(helm, IIA).Some? && IsPenetrationValue(Lookup(helm, IIA).value)
    requires Lookup(helm, IIAPlus).Some? && IsPenetrationValue(Lookup(helm, IIAPlus).value)
    requires 0 <= velocity <= maxVelocity && maxVelocity > 0
    ensures LightArmorScore(helm, velocity, Some(maxVelocity)).Some?
    ensures 0 <= LightArmorScore(helm, velocity, Some(maxVelocity)).value <= 100
  {
    var a, b := Lookup(helm, IIA).value, Lookup(helm, IIAPlus).value;
    var ratio := velocity as real / maxVelocity as real;
    RatioInUnitInterval(velocity as real, maxVelocity as real);
    RoundPercent((a + b) as real / 6.0 * 100.0 * 0.8 + ratio * 0.2 * 100.0);
  }

  /** A helmet table without level IIIA leaves the heavy-armour score
      undefined; every well-formed record is such a table. */
  lemma HeavyArmorUndefined(db: seq<AmmoType>, ammo: AmmoType)
    requires ValidRecord(ammo)
    ensures CalculateScores(db, ammo).heavyArmor.None?
  {
    assert IIIA !in ammo.helmPenetration;
  }

  /** The formula on the figures of a round whose velocity is 381 in a group
      whose top velocity is 390, at the smallest dispersion, with every
      helmet value 3: 98 unarmored and 100 against light armour. */
  lemma TopPenetrationExample()
    ensures UnArmoredScore(381, Some(390), -2, -2, 6) == Some(98)
    ensures LightArmorScore(Helm(3, 3, 3), 381, Some(390)) == Some(100)
  {
    assert Lookup(Helm(3, 3, 3), IIA) == Some(3) && Lookup(Helm(3, 3, 3), IIAPlus) == Some(3);
    assert Round((381.0 / 390.0 * 0.7 + 1.0 * 0.3) * 100.0) == 98;
    assert Round(6.0 / 6.0 * 100.0 * 0.8 + 381.0 / 390.0 * 0.2 * 100.0) == 100;
  }

  // ---------------------------------------------------------------------------
  // Profile sentence

  datatype RankedScore = RankedScore(category: string, score: Option<int>)

  /** `b.score - a.score`; a NaN result counts as 0, as `sort` reads it. */
  function ScoreCompare(x: RankedScore, y: RankedScore): (r: int)
    ensures x.score.None? || y.score.None? ==> r == 0
    ensures x.score.Some? && y.score.Some? ==> (r > 0 <==> y.score.value > x.score.value)
  {
    if x.score.Some? && y.score.Some? then y.score.value - x.score.value else 0
  }

  method Swap(a: array<RankedScore>, i: int, j: int)
    requires 0 <= i < a.Length && 0 <= j < a.Length
    modifies a
    ensures a[i] == old(a[j]) && a[j] == old(a[i])
    ensures forall k :: 0 <= k < a.Length && k != i && k != j ==> a[k] == old(a[k])
    ensures multiset(a[..]) == multiset(old(a[..]))
  {
    a[i], a[j] := a[j], a[i];
  }

  /** `scores.sort((a, b) => b.score - a.score)` on the three categories, by
      insertion: an element moves forward only past one the comparator puts
      after it. */
  method RankScores(a: array<RankedScore>)
    requires a.Length == 3
    modifies a
    ensures multiset(a[..]) == multiset(old(a[..]))
    ensures (forall k :: 0 <= k < 3 ==> old(a[k]).score.Some?) ==>
      a[0].score.Some? && a[1].score.Some? && a[2].score.Some? &&
      a[0].score.value >= a[1].score.value >= a[2].score.value
    ensures old(a[0]).score.Some? && old(a[1]).score.Some? && old(a[2]).score.None? ==>
      a[0] == (if old(a[1]).score.value > old(a[0]).score.value then old(a[1]) else old(a[0]))
  {
    if ScoreCompare(a[0], a[1]) > 0 {
      Swap(a, 0, 1);
    }
    if ScoreCompare(a[1], a[2]) > 0 {
      Swap(a, 1, 2);
      if ScoreCompare(a[0], a[1]) > 0 {
        Swap(a, 0, 1);
      }
    }
  }

  const Categories: seq<string> := ["unarmored targets", "lightly armored targets", "heavily armored targets"]

  function ScoreAt(scores: Scores, k: int): Option<int>
    requires 0 <= k < 3
  {
    if k == 0 then scores.unArmored else if k == 1 then scores.lightArmor else scores.heavyArmor
  }

  function Headline(name: string, category: string): string {
    "This " + name + " ammunition excels against " + category + "."
  }

  /** The velocity remark, by speed band: none from 350 to 500 m/s. */
  function VelocityRemark(velocity: int): (r: string)
    ensures velocity > 500 ==> " Its high velocity (" <= r
    ensures velocity < 350 ==> " Its lower velocity (" <= r
    ensures 350 <= velocity <= 500 <==> r == ""
  {
    if velocity > 500 then " Its high velocity (" + IntToString(velocity) + " m/s) ensures significant impact at range."
    else if velocity < 350 then " Its lower velocity (" + IntToString(velocity) + " m/s) might reduce effectiveness at extended distances."
    else ""
  }

  /** The dispersion remark: none from 0 to 2, and a positive dispersion is
      shown with a `+` sign before its digits. */
  function DispersionRemark(dispersion: int): (r: string)
    ensures dispersion < 0 ==> " The reduced dispersion (-" <= r
    ensures dispersion > 2 ==> " Be mindful of its increased dispersion (+" <= r
    ensures 0 <= dispersion <= 2 <==> r == ""
  {
    if dispersion < 0 then
      var digits := IntToString(dispersion);
      assert (" The reduced dispersion (" + digits + "%) significantly enhances accuracy.")[25] == digits[0] == '-';
      " The reduced dispersion (" + digits + "%) significantly enhances accuracy."
    else if dispersion > 2 then
      " Be mindful of its increased dispersion (" + (if dispersion > 0 then "+" else "") + IntToString(dispersion) + "%) which can affect precision."
    else ""
  }

  function ProfileText(name: string, category: string, velocity: int, dispersion: int): string {
    Headline(name, category) + VelocityRemark(velocity) + DispersionRemark(dispersion)
  }

  /** Category `k` may head the profile: its score is maximal when all three
      are defined, and it is the better of unarmored and light armour, the
      former on a tie, when only the heavy score is undefined. */
  predicate TopRanked(scores: Scores, k: int)
    requires 0 <= k < 3
  {
    ((forall m :: 0 <= m < 3 ==> ScoreAt(scores, m).Some?) ==>
      forall m :: 0 <= m < 3 ==> ScoreAt(scores, k).value >= ScoreAt(scores, m).value) &&
    (scores.unArmored.Some? && scores.lightArmor.Some? && scores.heavyArmor.None? ==>
      k == if scores.lightArmor.value > scores.unArmored.value then 1 else 0)
  }

  lemma CategoriesDistinct()
    ensures forall i, j :: 0 <= i < j < 3 ==> Categories[i] != Categories[j]
  {
    assert Categories[0][0] == 'u' && Categories[1][0] == 'l' && Categories[2][0] == 'h';
  }

  /** The first entry after ranking is the entry of a top-ranked category. */
  lemma FirstIsTopRanked(scores: Scores, before: seq<RankedScore>, after: seq<RankedScore>) returns (k: int)
    requires |before| == 3 && |after| == 3
    requires forall m :: 0 <= m < 3 ==> before[m] == RankedScore(Categories[m], ScoreAt(scores, m))
    requires multiset(after) == multiset(before)
    requires (forall m :: 0 <= m < 3 ==> before[m].score.Some?) ==>
      after[0].score.Some? && after[1].score.Some? && after[2].score.Some? &&
      after[0].score.value >= after[1].score.value >= after[2].score.value
    requires before[0].score.Some? && before[1].score.Some? && before[2].score.None? ==>
      after[0] == (if before[1].score.value > before[0].score.value then before[1] else before[0])
    ensures 0 <= k < 3 && after[0] == before[k] && TopRanked(scores, k)
  {
    assert after[0] in multiset(before) by {
      assert after[0] in multiset(after);
    }
    k :| 0 <= k < 3 && before[k] == after[0];
    CategoriesDistinct();
    if forall m :: 0 <= m < 3 ==> ScoreAt(scores, m).Some? {
      forall m | 0 <= m < 3 ensures ScoreAt(scores, k).value >= ScoreAt(scores, m).value {
        assert before[m] in multiset(after) by {
          assert before[m] in multiset(before);
        }
        var j :| 0 <= j < 3 && after[j] == before[m];
      }
    }
  }

  /** `getAmmoProfile`: the headline names the category ranked first, then
      the velocity and dispersion remarks follow. */
  method AmmoProfile(ammo: AmmoType, scores: Scores) returns (description: string)
    ensures exists k :: (0 <= k < 3 && TopRanked(scores, k) &&
      description == ProfileText(ammo.name, Categories[k], ammo.velocity, ammo.dispersion))
  {
    var ranked := new RankedScore[3];
    ranked[0] := RankedScore(Categories[0], scores.unArmored);
    ranked[1] := RankedScore(Categories[1], scores.lightArmor);
    ranked[2] := RankedScore(Categories[2], scores.heavyArmor);
    ghost var before := ranked[..];
    RankScores(ranked);
    ghost var k := FirstIsTopRanked(scores, before, ranked[..]);
    description := Headline(ammo.name, ranked[0].category);
    description := description + VelocityRemark(ammo.velocity);
    description := description + DispersionRemark(ammo.dispersion);
    assert description == ProfileText(ammo.name, Categories[k], ammo.velocity, ammo.dispersion);
  }

  // ---------------------------------------------------------------------------
  // Colour maps

  const StrongBar := "bg-gradient-to-r from-emerald-500 to-green-500"
  const FairBar := "bg-gradient-to-r from-amber-500 to-yellow-500"
  const WeakBar := "bg-gradient-to-r from-rose-600 to-red-600"

  /** `getEffectivenessColor`: green from 70 up, amber from 40 to 69, red
      below 40 or when the score is undefined, which fails both comparisons. */
  function EffectivenessColor(score: Option<int>): (r: string)
    ensures r == StrongBar <==> score.Some? && score.value >= 70
    ensures r == FairBar <==> score.Some? && 40 <= score.value < 70
    ensures r == WeakBar <==> score.None? || score.value < 40
  {
    assert StrongBar[22] == 'e' && FairBar[22] == 'a' && WeakBar[22] == 'r';
    if score.Some? && score.value >= 70 then StrongBar
    else if score.Some? && score.value >= 40 then FairBar
    else WeakBar
  }

  /** `getPenetrationColorClass`, the detail page's own palette: dark grey
      exactly when the level is not one of 0 to 3, a missing level included. */
  function DetailPenetrationColorClass(level: Option<int>): (r: string)
    ensures r == "bg-gray-700" <==> !(level.Some? && IsPenetrationValue(level.value))
  {
    match level
    case Some(0) => "bg-red-600"
    case Some(1) => "bg-yellow-500"
    case Some(2) => "bg-green-500"
    case Some(3) => "bg-blue-600"
    case _ => "bg-gray-700"
  }

  /** The four penetration values get four different colours. */
  lemma DetailPenetrationColorClassClassifies(v: Option<int>, w: Option<int>)
    ensures v.Some? && w.Some? && IsPenetrationValue(v.value) && IsPenetrationValue(w.value) ==>
      (DetailPenetrationColorClass(v) == DetailPenetrationColorClass(w) <==> v == w)
  {
  }

  /** The scores of a round with the figures of `TopPenetrationExample`,
      whatever the rest of its group is. */
  lemma TopPenetrationScores(db: seq<AmmoType>, ammo: AmmoType)
    requires ammo.velocity == 381 && ammo.dispersion == -2 && ammo.helmPenetration == Helm(3, 3, 3)
    requires MaxVelocity(ByCaliber(db, ammo.caliber)) == Some(390)
    requires MaxDispersion(ByCaliber(db, ammo.caliber)) == 6 && MinDispersion(ByCaliber(db, ammo.caliber)) == -2
    ensures CalculateScores(db, ammo) == Scores(Some(98), Some(100), None)
  {
    TopPenetrationExample();
    assert Lookup(ammo.helmPenetration, IIIA) == None;
  }

  /** The extremes of the 9mm block. */
  lemma NineMillimetreExtremes()
    ensures MaxVelocity(AmmoCatalog.Parabellum9mm) == Some(390)
    ensures MaxDispersion(AmmoCatalog.Parabellum9mm) == 6 && MinDispersion(AmmoCatalog.Parabellum9mm) == -2
  {
  }

  /** The catalog's "XTREME PEN" 9mm round scores 98 unarmored although it
      tops the helmet penetration scale, 100 against light armour, and no
      heavy-armour score. */
  lemma XtremePenScores()
    ensures AmmoCatalog.Parabellum9mm[3].name == "XTREME PEN"
    ensures CalculateScores(AmmoCatalog.Catalog, AmmoCatalog.Parabellum9mm[3]) == Scores(Some(98), Some(100), None)
  {
    var x := AmmoCatalog.Parabellum9mm[3];
    assert x.caliber == "9mm" && x.velocity == 381 && x.dispersion == -2 && x.helmPenetration == Helm(3, 3, 3);
    AmmoCatalog.CaliberGroupIsBlock(2);
    assert AmmoCatalog.Blocks[2] == AmmoCatalog.Parabellum9mm && AmmoCatalog.BlockCalibers[2] == "9mm";
    NineMillimetreExtremes();
    TopPenetrationScores(AmmoCatalog.Catalog, x);
  }

  /** No record of the catalog has a heavy-armour score. */
  lemma HeavyScoreUndefinedEverywhere(a: AmmoType)
    requires a in AmmoCatalog.Catalog
    ensures CalculateScores(AmmoCatalog.Catalog, a).heavyArmor.None?
  {
    AmmoCatalog.CatalogIsValid();
    HeavyArmorUndefined(AmmoCatalog.Catalog, a);
  }

  /** The penetration grid's helmet IIIA and IIIA+ cells read levels a
      well-formed record does not have, so they are grey. */
  lemma MissingHelmetCellsGrey(ammo: AmmoType)
    requires ValidRecord(ammo)
    ensures DetailPenetrationColorClass(Lookup(ammo.helmPenetration, IIIA)) == "bg-gray-700"
    ensures DetailPenetrationColorClass(Lookup(ammo.helmPenetration, IIIAPlus)) == "bg-gray-700"
  {
    assert IIIA !in ammo.helmPenetration && IIIAPlus !in ammo.helmPenetration;
  }

  // ---------------------------------------------------------------------------
  // The page state

  /** The detail page's state. `db` is the catalog the page reads, fixed when
      the page is created. */
  class AmmoDetailPage {
    const db: seq<AmmoType>
    var ammo: Option<AmmoType>
    var similarAmmo: seq<AmmoType>
    var effectivenessScores: Scores

    constructor()
      ensures db == AmmoCatalog.Catalog
      ensures ammo == None && similarAmmo == []
      ensures effectivenessScores == Scores(Some(0), Some(0), Some(0))
    {
      db := AmmoCatalog.Catalog;
      ammo, similarAmmo := None, [];
      effectivenessScores := Scores(Some(0), Some(0), Some(0));
    }

    /** The load effect for the route's `id`. An empty id does nothing; an
        unknown id leaves the state as it is and asks for a redirect to the
        list; a known id loads the record, its similar rounds and its
        scores. */
    method Load(id: string) returns (redirect: bool)
      modifies this
      ensures redirect <==> id != "" && FindById(db, id).None?
      ensures id == "" || redirect ==>
        ammo == old(ammo) && similarAmmo == old(similarAmmo) && effectivenessScores == old(effectivenessScores)
      ensures id != "" && FindById(db, id).Some? ==>
        ammo == FindById(db, id) &&
        similarAmmo == SimilarAmmo(db, ammo.value, id) &&
        effectivenessScores == CalculateScores(db, ammo.value)
    {
      redirect := false;
      if id != "" {
        var found := FindById(db, id);
        if found.Some? {
          ammo := found;
          similarAmmo := SimilarAmmo(db, found.value, id);
          effectivenessScores := CalculateScores(db, found.value);
        } else {
          redirect := true;
        }
      }
    }

    /** The profile sentence under the current scores. */
    method Profile() returns (description: string)
      requires ammo.Some?
      ensures exists k :: (0 <= k < 3 && TopRanked(effectivenessScores, k) &&
        description == ProfileText(ammo.value.name, Categories[k], ammo.value.velocity, ammo.value.dispersion))
    {
      description := AmmoProfile(ammo.value, effectivenessScores);
    }
  }
}
