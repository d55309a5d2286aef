/** `PersonalityManager`: an assignment store from instance id to profile id
    over a copy of the catalog, plus the decision functions that read it.
    Each `Math.random()` the source calls is a `real` parameter. */
module Personalities {
  import opened Wrappers
  import opened Types
  import opened Weighted
  import opened Draws
  import Config = PersonalityConfig

  datatype Manager = Manager(personalities: seq<PersonalityProfile>, assignments: map<string, string>)

  /** One row of `getPersonalityStats`. */
  datatype Stat = Stat(id: string, name: string, count: nat)

  /** The manager as its constructor leaves it: the catalog copied, nothing
      assigned. */
  function NewManager(): (m: Manager)
    ensures m.personalities == Config.Profiles && |m.assignments| == 0
  {
    Manager(Config.Profiles, map[])
  }

  /** Every assigned profile id names a profile of the manager's catalog. */
  ghost predicate AssignedInCatalog(m: Manager)
  {
    forall k | k in m.assignments :: exists i :: 0 <= i < |m.personalities| && m.personalities[i].id == m.assignments[k]
  }

  ghost predicate DistinctIds(catalog: seq<PersonalityProfile>)
  {
    forall i, j :: 0 <= i < j < |catalog| ==> catalog[i].id != catalog[j].id
  }

  // ---------------------------------------------------------------------
  // Lookup

  /** `personalities.find(p => p.id === pid)`: the first profile with that id. */
  function FindById(catalog: seq<PersonalityProfile>, pid: string): (res: Option<nat>)
    ensures res.Some? ==> res.value < |catalog| && catalog[res.value].id == pid
    ensures res.Some? ==> forall j :: 0 <= j < res.value ==> catalog[j].id != pid
    ensures res.None? ==> forall j :: 0 <= j < |catalog| ==> catalog[j].id != pid
  {
    if |catalog| == 0 then None
    else if catalog[0].id == pid then Some(0)
    else
      match FindById(catalog[1..], pid)
      case None => None
      case Some(i) => Some(i + 1)
  }

  /** `getPersonality`: the instance's profile, or `None` when it has no
      assignment (an empty profile id counts as none) or the id is unknown. */
  function GetPersonality(m: Manager, id: string): (res: Option<PersonalityProfile>)
    ensures id !in m.assignments ==> res.None?
    ensures res.Some? ==> res.value in m.personalities && res.value.id == m.assignments[id]
    ensures id in m.assignments && m.assignments[id] != "" && AssignedInCatalog(m) ==> res.Some?
  {
    if id !in m.assignments || m.assignments[id] == "" then None
    else
      match FindById(m.personalities, m.assignments[id])
      case None => None
      case Some(i) => Some(m.personalities[i])
  }

  // ---------------------------------------------------------------------
  // Weighted assignment

  /** `selectPersonalityByWeight` for draw `r`: the first profile whose
      running weight sum reaches `r`, else the first profile, else nothing. */
  function SelectPersonalityByWeight(catalog: seq<PersonalityProfile>, r: real): (res: Option<PersonalityProfile>)
    ensures res.None? <==> |catalog| == 0
    ensures forall j: nat :: StopsAt(Config.CatalogWeights(catalog), r, 0, j) ==> res == Some(catalog[j])
    ensures NeverReaches(Config.CatalogWeights(catalog), r, 0) && |catalog| > 0 ==> res == Some(catalog[0])
  {
    var ws := Config.CatalogWeights(catalog);
    match FirstReaching(ws, r)
    case Some(j) =>
      forall j' | StopsAt(ws, r, 0, j') ensures j' == j { StopIsUnique(ws, r, j, j'); }
      Some(catalog[j])
    case None =>
      if |catalog| == 0 then None else Some(catalog[0])
  }

  /** On the constant catalog the weights sum to 1, so every draw in [0, 1)
      is reached by some running sum and the first-entry fallback is never
      taken. */
  lemma {:induction false} CatalogDrawNeverFallsBack(r: real)
    requires IsDraw(r)
    ensures FirstReaching(Config.CatalogWeights(Config.Profiles), r).Some?
    ensures SelectPersonalityByWeight(Config.Profiles, r) ==
      Some(Config.Profiles[FirstReaching(Config.CatalogWeights(Config.Profiles), r).value])
  {
    Config.WeightsSumToOne();
    TotalReachedMeansMatch(Config.CatalogWeights(Config.Profiles), r);
  }

  /** The outcome of `assignPersonality`: the new store and the profile it
      returned. */
  datatype Assignment = Assignment(manager: Manager, chosen: Option<PersonalityProfile>)

  /** `assignPersonality(id)`: drop the id's assignment, draw a profile, and
      store it (when one was drawn). */
  function AssignPersonality(m: Manager, id: string, r: real): (a: Assignment)
    ensures a.chosen == SelectPersonalityByWeight(m.personalities, r)
    ensures a.manager.personalities == m.personalities
    ensures a.chosen.Some? ==>
      a.manager.assignments.Keys == m.assignments.Keys + {id} && a.manager.assignments[id] == a.chosen.value.id
    ensures a.chosen.None? ==> a.manager.assignments.Keys == m.assignments.Keys - {id}
    ensures forall k | k in m.assignments && k != id :: a.manager.assignments[k] == m.assignments[k]
    ensures AssignedInCatalog(m) ==> AssignedInCatalog(a.manager)
  {
    var cleared := m.assignments - {id};
    var chosen := SelectPersonalityByWeight(m.personalities, r);
    match chosen
    case None => Assignment(m.(assignments := cleared), None)
    case Some(p) =>
      var m' := m.(assignments := cleared[id := p.id]);
      assert AssignedInCatalog(m) ==> AssignedInCatalog(m') by {
        var i :| 0 <= i < |m.personalities| && m.personalities[i] == p;
      }
      Assignment(m', chosen)
  }

  /** After `assignPersonality`, `getPersonality` returns the profile it
      returned, provided the catalog ids are distinct. */
  lemma AssignThenGet(m: Manager, id: string, r: real)
    requires DistinctIds(m.personalities)
    requires forall p | p in m.personalities :: p.id != ""
    ensures GetPersonality(AssignPersonality(m, id, r).manager, id) == AssignPersonality(m, id, r).chosen
  {
    var a := AssignPersonality(m, id, r);
    if a.chosen.Some? {
      var p := a.chosen.value;
      var i :| 0 <= i < |m.personalities| && m.personalities[i] == p;
      var found := FindById(m.personalities, p.id);
      assert found.Some?;
      assert m.personalities[found.value].id == m.personalities[i].id;
    }
  }

  /** The set of ids listed in `ids[from..]`. */
  function IdsFrom(ids: seq<string>, from: nat): (s: set<string>)
    requires from <= |ids|
    ensures forall j :: from <= j < |ids| ==> ids[j] in s
    ensures forall k | k in s :: exists j :: from <= j < |ids| && ids[j] == k
  {
    set j | from <= j < |ids| :: ids[j]
  }

  /** The second loop of `assignPersonalities`, from position `i` on: each id
      not yet assigned gets a fresh draw; `draws[j]` is the draw for `ids[j]`. */
  function AssignNew(m: Manager, ids: seq<string>, draws: seq<real>, i: nat): (m': Manager)
    requires i <= |ids| == |draws|
    ensures m'.personalities == m.personalities
    ensures |m.personalities| > 0 ==> m'.assignments.Keys == m.assignments.Keys + IdsFrom(ids, i)
    ensures |m.personalities| == 0 ==> m'.assignments.Keys <= m.assignments.Keys
    ensures forall k | k in m.assignments :: k in m'.assignments && m'.assignments[k] == m.assignments[k]
    ensures AssignedInCatalog(m) ==> AssignedInCatalog(m')
    decreases |ids| - i
  {
    if i == |ids| then m
    else
      var next := if ids[i] in m.assignments then m else AssignPersonality(m, ids[i], draws[i]).manager;
      AssignNew(next, ids, draws, i + 1)
  }

  /** `assignPersonalities(ids)`: drop assignments of ids no longer listed,
      then assign every listed id that has none. */
  function AssignPersonalities(m: Manager, ids: seq<string>, draws: seq<real>): (m': Manager)
    requires |draws| == |ids|
    ensures m'.personalities == m.personalities
    ensures |m.personalities| > 0 ==> m'.assignments.Keys == IdsFrom(ids, 0)
    ensures forall k | k in m.assignments && k in ids :: k in m'.assignments && m'.assignments[k] == m.assignments[k]
    ensures forall k | k in m'.assignments :: k in ids
    ensures AssignedInCatalog(m) ==> AssignedInCatalog(m')
  {
    var kept := map k | k in m.assignments && k in ids :: m.assignments[k];
    AssignNew(m.(assignments := kept), ids, draws, 0)
  }

  // ---------------------------------------------------------------------
  // Decisions

  /** `generatePersonalizedMessage`: a uniformly drawn vocabulary entry, or
      `None` without a profile or with an empty vocabulary. */
  function GeneratePersonalizedMessage(m: Manager, id: string, r: real): (res: Option<string>)
    requires IsDraw(r)
    ensures res.None? <==> GetPersonality(m, id).None? || |GetPersonality(m, id).value.vocabulary| == 0
    ensures res.Some? ==> res.value in GetPersonality(m, id).value.vocabulary
  {
    match GetPersonality(m, id)
    case None => None
    case Some(p) =>
      if |p.vocabulary| == 0 then None
      else Some(p.vocabulary[Index(r, |p.vocabulary|)])
  }

  /** Every catalog profile has a vocabulary, so an instance assigned from the
      catalog always gets a line of its profile's vocabulary. */
  lemma CatalogMessageAlwaysGenerated(m: Manager, id: string, r: real)
    requires IsDraw(r) && m.personalities == Config.Profiles
    requires AssignedInCatalog(m) && id in m.assignments
    ensures GeneratePersonalizedMessage(m, id, r).Some?
  {
    Config.VocabulariesNonEmpty();
    var i :| 0 <= i < |m.personalities| && m.personalities[i].id == m.assignments[id];
    assert m.assignments[id] != "";
  }

  ghost predicate RangesNonEmpty(catalog: seq<PersonalityProfile>)
  {
    forall p | p in catalog :: p.messageFrequency.min < p.messageFrequency.max
  }

  /** Clamp into [0, 1]: `Math.max(0, Math.min(1, x))`. */
  function Clamp01(x: real): (y: real)
    ensures 0.0 <= y <= 1.0
    ensures 0.0 <= x <= 1.0 ==> y == x
  {
    if x < 0.0 then 0.0 else if x > 1.0 then 1.0 else x
  }

  /** The position in [0, 1] the interval is drawn at: the uniform draw `u0`,
      or (when `b < 0.7`) a point within 0.15 of the normalised peak. */
  function IntervalPosition(f: Frequency, u0: real, b: real, u: real): (x: real)
    requires f.min < f.max && IsDraw(u0) && IsDraw(u)
    ensures 0.0 <= x <= 1.0
  {
    var range := (f.max - f.min) as real;
    var normalizedPeak := (f.peak - f.min) as real / range;
    if b < 0.7 then Clamp01(normalizedPeak + (u - 0.5) * 0.3) else u0
  }

  /** `Math.floor(random * range) + min` for the position above. */
  function IntervalFor(f: Frequency, u0: real, b: real, u: real): (v: int)
    requires f.min < f.max && IsDraw(u0) && IsDraw(u)
    ensures f.min <= v <= f.max
  {
    var x := IntervalPosition(f, u0, b, u);
    var range := f.max - f.min;
    ScaledFloorInRange(x, range);
    (x * range as real).Floor + f.min
  }

  lemma ScaledFloorInRange(x: real, range: int)
    requires 0.0 <= x <= 1.0 && range > 0
    ensures 0 <= (x * range as real).Floor <= range
  {
    MulBound(x, 1.0, range as real);
    MulBound(0.0, x, range as real);
  }

  /** `calculateMessageInterval`: `None` without a profile, otherwise an
      integer within the profile's [min, max]. */
  function CalculateMessageInterval(m: Manager, id: string, u0: real, b: real, u: real): (res: Option<int>)
    requires IsDraw(u0) && IsDraw(b) && IsDraw(u)
    requires RangesNonEmpty(m.personalities)
    ensures res.None? <==> GetPersonality(m, id).None?
    ensures res.Some? ==> GetPersonality(m, id).value.messageFrequency.min <= res.value
                          <= GetPersonality(m, id).value.messageFrequency.max
  {
    match GetPersonality(m, id)
    case None => None
    case Some(p) => Some(IntervalFor(p.messageFrequency, u0, b, u))
  }

  /** In the near-peak branch (`b < 0.7`) the interval lies within
      0.15 * (max - min) of the peak, plus one for the floor. */
  lemma NearPeakBound(f: Frequency, u0: real, b: real, u: real)
    requires f.min <= f.peak <= f.max && f.min < f.max && IsDraw(u0) && IsDraw(u) && b < 0.7
    ensures var v := IntervalFor(f, u0, b, u);
      && (f.peak as real) - 0.15 * (f.max - f.min) as real - 1.0 <= v as real
      && v as real <= (f.peak as real) + 0.15 * (f.max - f.min) as real
  {
    var x := IntervalPosition(f, u0, b, u);
    NearPeakPosition(f, u0, b, u);
    PositionNearPeak(f, x, 0.15);
    assert IntervalFor(f, u0, b, u) == (x * (f.max - f.min) as real).Floor + f.min;
  }

  /** In the near-peak branch the position is within 0.15 of the normalised
      peak. */
  lemma NearPeakPosition(f: Frequency, u0: real, b: real, u: real)
    requires f.min <= f.peak <= f.max && f.min < f.max && IsDraw(u0) && IsDraw(u) && b < 0.7
    ensures var np := (f.peak - f.min) as real / (f.max - f.min) as real;
      np - 0.15 <= IntervalPosition(f, u0, b, u) <= np + 0.15
  {
    var range := (f.max - f.min) as real;
    var np := (f.peak - f.min) as real / range;
    UnitFraction((f.peak - f.min) as real, range);
    ClampStaysNear(np, u);
  }

  /** Any position within `d` of the normalised peak maps to an interval
      within `d * (max - min)` of the peak, less one for the floor. */
  lemma PositionNearPeak(f: Frequency, x: real, d: real)
    requires f.min < f.max
    requires var np := (f.peak - f.min) as real / (f.max - f.min) as real; np - d <= x <= np + d
    ensures var v := (x * (f.max - f.min) as real).Floor + f.min;
      && (f.peak as real) - d * (f.max - f.min) as real - 1.0 <= v as real
      && v as real <= (f.peak as real) + d * (f.max - f.min) as real
  {
    var range := (f.max - f.min) as real;
    var np := (f.peak - f.min) as real / range;
    assert np * range == (f.peak - f.min) as real;
    ScaledFloorNear(x, np, range, d);
    var fl := (x * range).Floor;
    assert (fl + f.min) as real == fl as real + f.min as real;
    assert f.peak as real == np * range + f.min as real;
  }

  /** Clamping a point within 0.15 of `np`, for `np` in [0, 1], keeps it
      within 0.15 of `np`. */
  lemma ClampStaysNear(np: real, u: real)
    requires 0.0 <= np <= 1.0 && IsDraw(u)
    ensures var x := Clamp01(np + (u - 0.5) * 0.3); np - 0.15 <= x <= np + 0.15
  {
  }

  /** Scaling a point within `d` of `np` by a positive range and flooring
      it lands within `d * range` of `np * range`, less one for the floor. */
  lemma ScaledFloorNear(x: real, np: real, range: real, d: real)
    requires np - d <= x <= np + d && range > 0.0
    ensures np * range - d * range - 1.0 <= (x * range).Floor as real <= np * range + d * range
  {
    MulBound(x - np, d, range);
    MulBound(np - x, d, range);
  }

  lemma MulBound(a: real, c: real, k: real)
    requires a <= c && k > 0.0
    ensures a * k <= c * k
  {
  }

  lemma UnitFraction(a: real, k: real)
    requires 0.0 <= a <= k && k > 0.0
    ensures 0.0 <= a / k <= 1.0 && (a / k) * k == a
  {
    assert (a / k) * k == a;
  }

  /** `isActiveTime` at the current local hour `hour`. */
  function IsActiveTime(m: Manager, id: string, hour: int): (active: bool)
    ensures GetPersonality(m, id).None? ==> active
    ensures GetPersonality(m, id).Some? ==>
      var h := GetPersonality(m, id).value.activeHours;
      (h.start <= h.end ==> (active <==> h.start <= hour <= h.end)) &&
      (h.start > h.end ==> (active <==> hour >= h.start || hour <= h.end))
  {
    match GetPersonality(m, id)
    case None => true
    case Some(p) => InWindow(p.activeHours, hour)
  }

  /** The window test of `isActiveTime`, as the source writes it. */
  function InWindow(h: ActiveHours, hour: int): bool
  {
    if h.start <= h.end then hour >= h.start && hour <= h.end
    else hour >= h.start || hour <= h.end
  }

  /** An independent reading of a window on the 24-hour clock: the hours met
      when walking forward from `start` until `end`, wrapping at midnight. */
  predicate OnClockArc(h: ActiveHours, hour: int)
  {
    (hour - h.start) % 24 <= (h.end - h.start) % 24
  }

  /** For bounds and hours in 0-23 the source's two-case test is exactly the
      clock-arc reading, in both the plain and the wrapping case. */
  lemma WindowIsClockArc(h: ActiveHours, hour: int)
    requires 0 <= h.start <= 23 && 0 <= h.end <= 23 && 0 <= hour <= 23
    ensures InWindow(h, hour) <==> OnClockArc(h, hour)
  {
    if hour >= h.start {
      assert (hour - h.start) % 24 == hour - h.start;
    } else {
      assert (hour - h.start) % 24 == hour - h.start + 24;
    }
    if h.end >= h.start {
      assert (h.end - h.start) % 24 == h.end - h.start;
    } else {
      assert (h.end - h.start) % 24 == h.end - h.start + 24;
    }
  }

  /** The documented check cases for the night_owl window, and social
      butterfly's `end: 24` as written: active exactly from 6 h onwards, so
      not at midnight even though 24 h reads as midnight on the clock. */
  lemma CatalogWindows()
    ensures InWindow(Config.NightOwl.activeHours, 23) && InWindow(Config.NightOwl.activeHours, 6)
    ensures !InWindow(Config.NightOwl.activeHours, 12) && !InWindow(Config.NightOwl.activeHours, 7)
    ensures forall hour | 0 <= hour <= 23 :: InWindow(Config.SocialButterfly.activeHours, hour) <==> hour >= 6
    ensures !InWindow(Config.SocialButterfly.activeHours, 0) && OnClockArc(Config.SocialButterfly.activeHours, 0)
  {
  }

  /** `shouldRespond`. */
  function ShouldRespond(m: Manager, id: string, r: real): (yes: bool)
    ensures GetPersonality(m, id).None? ==> yes
    ensures GetPersonality(m, id).Some? ==> (yes <==> r < GetPersonality(m, id).value.behaviorTraits.responseChance)
  {
    match GetPersonality(m, id)
    case None => true
    case Some(p) => r < p.behaviorTraits.responseChance
  }

  /** `shouldInitiateConversation`. */
  function ShouldInitiateConversation(m: Manager, id: string, r: real): (yes: bool)
    ensures GetPersonality(m, id).None? ==> yes
    ensures GetPersonality(m, id).Some? ==> (yes <==> r < GetPersonality(m, id).value.behaviorTraits.initiateConversationChance)
  {
    match GetPersonality(m, id)
    case None => true
    case Some(p) => r < p.behaviorTraits.initiateConversationChance
  }

  /** `shouldSendMessage`: the draw against the mean of the two chances. */
  function ShouldSendMessage(m: Manager, id: string, r: real): (yes: bool)
    ensures GetPersonality(m, id).None? ==> yes
    ensures GetPersonality(m, id).Some? ==>
      var t := GetPersonality(m, id).value.behaviorTraits;
      (yes <==> r < (t.responseChance + t.initiateConversationChance) / 2.0)
  {
    match GetPersonality(m, id)
    case None => true
    case Some(p) => r < (p.behaviorTraits.responseChance + p.behaviorTraits.initiateConversationChance) / 2.0
  }

  /** The send decision lies between the two single decisions for the same
      draw: it passes when both pass and fails when both fail. */
  lemma SendBetweenRespondAndInitiate(m: Manager, id: string, r: real)
    ensures ShouldRespond(m, id, r) && ShouldInitiateConversation(m, id, r) ==> ShouldSendMessage(m, id, r)
    ensures !ShouldRespond(m, id, r) && !ShouldInitiateConversation(m, id, r) ==> !ShouldSendMessage(m, id, r)
  {
  }

  /** The preference weights divided by their total. */
  function Normalised(prefs: MediaPreferences, total: real): (ns: seq<real>)
    requires total != 0.0
    ensures |ns| == |prefs|
    ensures forall i :: 0 <= i < |prefs| ==> ns[i] == prefs[i].1 / total
  {
    seq(|prefs|, i requires 0 <= i < |prefs| => prefs[i].1 / total)
  }

  /** The values the running sum of `weight / totalWeight` takes when the
      total is 0: the initial 0, then IEEE-754 infinities and NaN. */
  datatype OverZeroSum = Zero | PlusInfinity | MinusInfinity | NotANumber

  /** `w / 0`: an infinity of the sign of `w`, and NaN for `0 / 0`. */
  function OverZero(w: real): (q: OverZeroSum)
    ensures q == PlusInfinity <==> w > 0.0
    ensures q != Zero
  {
    if w > 0.0 then PlusInfinity else if w < 0.0 then MinusInfinity else NotANumber
  }

  /** IEEE addition of a quotient to the running sum: NaN absorbs,
      opposite infinities give NaN, and 0 is the identity. */
  function AddOverZero(acc: OverZeroSum, q: OverZeroSum): (s: OverZeroSum)
    ensures s == PlusInfinity <==> (acc == Zero || acc == PlusInfinity) && (q == Zero || q == PlusInfinity) && (acc, q) != (Zero, Zero)
  {
    if acc == Zero then q
    else if q == Zero then acc
    else if acc == NotANumber || q == NotANumber then NotANumber
    else if acc == q then acc
    else NotANumber
  }

  /** The walk of `selectMediaType` when the total weight is 0. A finite
      draw is `<=` the running sum only when that sum is +Infinity. */
  function OverZeroWalk(prefs: MediaPreferences, i: nat, acc: OverZeroSum): MessageType
    requires i <= |prefs|
    decreases |prefs| - i
  {
    if i == |prefs| then Text
    else
      var acc' := AddOverZero(acc, OverZero(prefs[i].1));
      if acc' == PlusInfinity then prefs[i].0 else OverZeroWalk(prefs, i + 1, acc')
  }

  /** Once the running sum is -Infinity or NaN it never becomes +Infinity,
      so the walk ends in the TEXT fallback. */
  lemma {:induction false} OverZeroNeverRecovers(prefs: MediaPreferences, i: nat, acc: OverZeroSum)
    requires i <= |prefs| && (acc == MinusInfinity || acc == NotANumber)
    ensures OverZeroWalk(prefs, i, acc) == Text
    decreases |prefs| - i
  {
    if i < |prefs| {
      OverZeroNeverRecovers(prefs, i + 1, AddOverZero(acc, OverZero(prefs[i].1)));
    }
  }

  /** The kind `selectMediaType` picks from a preference list: the first
      whose normalised running sum reaches `r`, else TEXT. When the weights
      sum to 0 every quotient is an infinity or NaN: the first kind is picked
      exactly when its weight is positive, and TEXT otherwise. */
  function PickKind(prefs: MediaPreferences, r: real): (k: MessageType)
    ensures Sum(Weights(prefs)) == 0.0 ==>
      k == if |prefs| > 0 && prefs[0].1 > 0.0 then prefs[0].0 else Text
    ensures Sum(Weights(prefs)) != 0.0 ==>
      var ns := Normalised(prefs, Sum(Weights(prefs)));
      (forall j: nat :: StopsAt(ns, r, 0, j) ==> k == prefs[j].0) &&
      (NeverReaches(ns, r, 0) ==> k == Text)
  {
    var total := Sum(Weights(prefs));
    if total == 0.0 then
      if |prefs| > 0 && prefs[0].1 <= 0.0 then
        OverZeroNeverRecovers(prefs, 1, OverZero(prefs[0].1));
        OverZeroWalk(prefs, 0, Zero)
      else OverZeroWalk(prefs, 0, Zero)
    else
      var ns := Normalised(prefs, total);
      match FirstReaching(ns, r)
      case None => Text
      case Some(j) =>
        forall j' | StopsAt(ns, r, 0, j') ensures j' == j { StopIsUnique(ns, r, j, j'); }
        prefs[j].0
  }

  /** `selectMediaType`. */
  function SelectMediaType(m: Manager, id: string, r: real): (k: MessageType)
    ensures GetPersonality(m, id).None? ==> k == Text
    ensures GetPersonality(m, id).Some? ==> k == PickKind(GetPersonality(m, id).value.mediaPreferences, r)
  {
    match GetPersonality(m, id)
    case None => Text
    case Some(p) => PickKind(p.mediaPreferences, r)
  }

  /** With a positive total, the normalised walk stops where the raw walk
      stops against the scaled draw `r * total`. */
  lemma NormalisedWalkIsScaledWalk(prefs: MediaPreferences, r: real, j: nat)
    requires Sum(Weights(prefs)) > 0.0
    ensures StopsAt(Normalised(prefs, Sum(Weights(prefs))), r, 0, j) <==> StopsAt(Weights(prefs), r * Sum(Weights(prefs)), 0, j)
  {
    var ws := Weights(prefs);
    var total := Sum(ws);
    var ns := Normalised(prefs, total);
    forall t | 0 <= t < |ws| ensures (r <= Cumulative(ns, t) <==> r * total <= Cumulative(ws, t))
    {
      ScaledComparison(prefs, r, t);
    }
  }

  /** One position of the two walks: the normalised running sum reaches `r`
      exactly when the raw running sum reaches `r * total`. */
  lemma ScaledComparison(prefs: MediaPreferences, r: real, t: nat)
    requires Sum(Weights(prefs)) > 0.0 && t < |prefs|
    ensures var total := Sum(Weights(prefs));
      r <= Cumulative(Normalised(prefs, total), t) <==> r * total <= Cumulative(Weights(prefs), t)
  {
    var ws := Weights(prefs);
    var total := Sum(ws);
    NormalisedPrefixSum(ws, Normalised(prefs, total), total, t + 1);
    DivCompare(r, Cumulative(ws, t), total);
  }


  lemma DivCompare(r: real, c: real, total: real)
    requires total > 0.0
    ensures r <= c / total <==> r * total <= c
  {
    assert (c / total) * total == c;
    if r <= c / total {
      assert r * total <= (c / total) * total;
    } else {
      assert (c / total) * total < r * total;
    }
  }

  /** For a positive draw, a kind other than the TEXT fallback is only ever
      chosen through a position whose weight is non-zero: a kind whose
      weight is 0 is never selected. */
  lemma ZeroWeightKindNeverSelected(prefs: MediaPreferences, r: real)
    requires 0.0 < r
    ensures PickKind(prefs, r) == Text
      || exists j :: 0 <= j < |prefs| && prefs[j].0 == PickKind(prefs, r) && prefs[j].1 != 0.0
  {
    var total := Sum(Weights(prefs));
    if total != 0.0 {
      var ns := Normalised(prefs, total);
      match FirstReaching(ns, r)
      case None =>
      case Some(j) =>
        ZeroWeightNeverChosen(ns, r);
        assert prefs[j].1 != 0.0;
    }
  }

  /** No catalog profile ever selects LOCATION for a positive draw: every
      catalog entry gives it weight 0. */
  lemma CatalogNeverSelectsLocation(p: PersonalityProfile, r: real)
    requires p in Config.Profiles && 0.0 < r
    ensures PickKind(p.mediaPreferences, r) != Location
  {
    Config.MediaPreferencesOfOne(p);
    assert p.mediaPreferences[6].1 == 0.0;
    UnweightedLastKind(p.mediaPreferences, r);
  }

  /** A well-formed list whose last kind (location) has weight 0 never
      yields that kind for a positive draw. */
  lemma UnweightedLastKind(prefs: MediaPreferences, r: real)
    requires Config.MediaPreferencesOk(prefs) && prefs[6].1 == 0.0 && 0.0 < r
    ensures PickKind(prefs, r) != Location
  {
    ZeroWeightKindNeverSelected(prefs, r);
    forall j | 0 <= j < |prefs| && prefs[j].0 == Location
      ensures j == 6
    {
      assert Keys(prefs)[j] == AllKinds[j];
    }
  }

  // ---------------------------------------------------------------------
  // Listing and statistics

  /** `listAssignedPersonalities`: each assigned instance whose profile id is
      found, with that profile (the listing's order is not modelled). */
  function ListAssignedPersonalities(m: Manager): (listed: map<string, PersonalityProfile>)
    ensures forall k | k in listed :: k in m.assignments && listed[k] in m.personalities && listed[k].id == m.assignments[k]
    ensures forall k | k in m.assignments :: k in listed || forall p | p in m.personalities :: p.id != m.assignments[k]
  {
    map k | k in m.assignments && FindById(m.personalities, m.assignments[k]).Some? ::
      m.personalities[FindById(m.personalities, m.assignments[k]).value]
  }

  /** When every assignment names a catalog profile, every assigned
      instance is listed. */
  lemma ListingIsComplete(m: Manager)
    requires AssignedInCatalog(m)
    ensures ListAssignedPersonalities(m).Keys == m.assignments.Keys
  {
    forall k | k in m.assignments ensures k in ListAssignedPersonalities(m)
    {
      var i :| 0 <= i < |m.personalities| && m.personalities[i].id == m.assignments[k];
    }
  }

  /** The instances assigned to any profile id in `pids`. */
  function AssignedTo(a: map<string, string>, pids: set<string>): set<string>
  {
    set k | k in a && a[k] in pids
  }

  function Count(a: map<string, string>, pid: string): nat
  {
    |set k | k in a && a[k] == pid|
  }

  /** `getPersonalityStats`: one row per catalog profile, in catalog order,
      counting the instances assigned to it. */
  function GetPersonalityStats(m: Manager): (stats: seq<Stat>)
    ensures |stats| == |m.personalities|
    ensures forall i | 0 <= i < |stats| ::
      stats[i].id == m.personalities[i].id && stats[i].name == m.personalities[i].name
      && stats[i].count == Count(m.assignments, m.personalities[i].id)
  {
    seq(|m.personalities|, i requires 0 <= i < |m.personalities| =>
      Stat(m.personalities[i].id, m.personalities[i].name, Count(m.assignments, m.personalities[i].id)))
  }

  function SumCounts(stats: seq<Stat>): nat
  {
    if |stats| == 0 then 0 else SumCounts(stats[..|stats| - 1]) + stats[|stats| - 1].count
  }

  function IdsOf(catalog: seq<PersonalityProfile>): set<string>
  {
    set p | p in catalog :: p.id
  }

  lemma {:induction false} SumCountsIsAssignedTo(m: Manager, n: nat)
    requires n <= |m.personalities| && DistinctIds(m.personalities)
    ensures SumCounts(GetPersonalityStats(m)[..n]) == |AssignedTo(m.assignments, IdsOf(m.personalities[..n]))|
  {
    var stats := GetPersonalityStats(m);
    if n == 0 {
      assert AssignedTo(m.assignments, IdsOf(m.personalities[..0])) == {};
    } else {
      SumCountsIsAssignedTo(m, n - 1);
      assert stats[..n][..n - 1] == stats[..n - 1];
      IdsOfPrefix(m.personalities, n);
      AssignedToAddOne(m.assignments, IdsOf(m.personalities[..n - 1]), m.personalities[n - 1].id);
    }
  }

  /** The ids of a catalog prefix grow by one id per profile; with distinct
      ids the new one is not among the earlier ones. */
  lemma IdsOfPrefix(catalog: seq<PersonalityProfile>, n: nat)
    requires 0 < n <= |catalog| && DistinctIds(catalog)
    ensures IdsOf(catalog[..n]) == IdsOf(catalog[..n - 1]) + {catalog[n - 1].id}
    ensures catalog[n - 1].id !in IdsOf(catalog[..n - 1])
  {
    assert catalog[..n] == catalog[..n - 1] + [catalog[n - 1]];
    forall p | p in catalog[..n - 1] ensures p.id != catalog[n - 1].id
    {
      var i :| 0 <= i < n - 1 && catalog[..n - 1][i] == p;
      assert catalog[i] == p;
    }
  }

  /** Counting the instances assigned to one more, new profile id. */
  lemma AssignedToAddOne(a: map<string, string>, pids: set<string>, pid: string)
    requires pid !in pids
    ensures |AssignedTo(a, pids + {pid})| == |AssignedTo(a, pids)| + Count(a, pid)
  {
    var before := AssignedTo(a, pids);
    var one := set k | k in a && a[k] == pid;
    assert before !! one;
    assert AssignedTo(a, pids + {pid}) == before + one;
  }


  /** With distinct catalog ids and every assignment in the catalog, the
      counts add up to the number of assigned instances. */
  lemma StatsCountEveryAssignment(m: Manager)
    requires DistinctIds(m.personalities) && AssignedInCatalog(m)
    ensures SumCounts(GetPersonalityStats(m)) == |m.assignments|
  {
    SumCountsIsAssignedTo(m, |m.personalities|);
    var stats := GetPersonalityStats(m);
    assert stats[..|m.personalities|] == stats;
    assert m.personalities[..|m.personalities|] == m.personalities;
    assert AssignedTo(m.assignments, IdsOf(m.personalities)) == m.assignments.Keys by {
      forall k | k in m.assignments ensures m.assignments[k] in IdsOf(m.personalities)
      {
        var i :| 0 <= i < |m.personalities| && m.personalities[i].id == m.assignments[k];
        assert m.personalities[i] in m.personalities;
      }
    }
  }
}
