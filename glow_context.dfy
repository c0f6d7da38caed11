/**
 * The scan and profile store (contexts/GlowContext.tsx): two records kept in
 * AsyncStorage, the query caches that read them back, and the operations the
 * screens call. "Today", the scan id and its timestamp are parameters.
 */
module GlowContext {
  import opened Wrappers
  import opened Types
  import opened Js
  import opened GlowData

  /** The history keeps at most this many scans, newest first. */
  const HistoryLimit: nat := 50

  /** DEFAULT_PROFILE: free tier, three scans a day, nothing counted yet. */
  const DefaultProfile: UserProfile := UserProfile(
    isPremium := false,
    dailyScansUsed := 0,
    dailyScansLimit := 3,
    lastScanDate := "",
    totalScans := 0,
    averageScore := 0.0,
    streak := 0)

  // ---------------------------------------------------------------------
  // Reading the stored records
  // ---------------------------------------------------------------------

  /** historyQuery: the stored list, or an empty one when nothing is stored. */
  function LoadHistory(stored: Option<seq<ScanResult>>): (h: seq<ScanResult>)
    ensures stored.None? ==> h == []
    ensures stored.Some? ==> h == stored.value
  {
    stored.GetOr([])
  }

  /**
   * profileQuery: the defaults when nothing is stored; a stored profile from
   * another day comes back with its daily counter reset and today's date,
   * every other field as stored; one from today comes back as stored.
   */
  function LoadProfile(stored: Option<UserProfile>, today: string): (p: UserProfile)
    ensures stored.None? ==> p == DefaultProfile
    ensures stored.Some? && stored.value.lastScanDate == today ==> p == stored.value
    ensures stored.Some? && stored.value.lastScanDate != today ==>
      && p.dailyScansUsed == 0 && p.lastScanDate == today
      && p.isPremium == stored.value.isPremium
      && p.dailyScansLimit == stored.value.dailyScansLimit
      && p.totalScans == stored.value.totalScans
      && p.averageScore == stored.value.averageScore
      && p.streak == stored.value.streak
  {
    match stored
    case None => DefaultProfile
    case Some(profile) =>
      if profile.lastScanDate != today then profile.(dailyScansUsed := 0, lastScanDate := today)
      else profile
  }

  /** Writing back a loaded profile and reading it again the same day gives the same profile. */
  lemma LoadProfileStable(stored: UserProfile, today: string)
    ensures LoadProfile(Some(LoadProfile(Some(stored), today)), today) == LoadProfile(Some(stored), today)
    ensures LoadProfile(Some(stored), today).lastScanDate == today
  {
  }

  /** A stored profile from another day gets its whole daily quota back. */
  lemma NewDayRestoresQuota(stored: UserProfile, today: string)
    requires stored.lastScanDate != today
    ensures var p := LoadProfile(Some(stored), today);
      && ScansRemaining(p) == (if stored.isPremium then Unlimited else Finite(stored.dailyScansLimit))
      && (CanScan(p) <==> stored.isPremium || stored.dailyScansLimit > 0)
  {
  }

  // ---------------------------------------------------------------------
  // saveScanMutation: [scan, ...history].slice(0, 50)
  // ---------------------------------------------------------------------

  /**
   * The new scan first, then the old history in its order, cut to the
   * fifty newest.
   */
  function PrependScan(scan: ScanResult, history: seq<ScanResult>): (h: seq<ScanResult>)
    ensures |h| == if |history| < HistoryLimit then |history| + 1 else HistoryLimit
    ensures h[0] == scan
    ensures h[1..] == history[..|h| - 1]
  {
    var all := [scan] + history;
    assert all[1..] == history;
    all[..SliceEnd(|all|, HistoryLimit)]
  }

  /** Below the limit nothing is lost; at the limit exactly the oldest scan goes. */
  lemma PrependScanEvicts(scan: ScanResult, history: seq<ScanResult>)
    ensures |history| < HistoryLimit ==> PrependScan(scan, history) == [scan] + history
    ensures |history| == HistoryLimit ==>
      PrependScan(scan, history) == [scan] + history[..HistoryLimit - 1]
  {
    var h := PrependScan(scan, history);
    assert h == [h[0]] + h[1..];
  }

  /** Saving `scans` one after another, first to last. */
  function SaveAll(scans: seq<ScanResult>, history: seq<ScanResult>): seq<ScanResult> {
    if scans == [] then history else SaveAll(scans[1..], PrependScan(scans[0], history))
  }

  function Reverse(s: seq<ScanResult>): (r: seq<ScanResult>)
    ensures |r| == |s|
  {
    if s == [] then [] else Reverse(s[1..]) + [s[0]]
  }

  /**
   * However many scans are saved, the history holds the fifty newest of
   * everything seen, newest first.
   */
  lemma {:induction false} SaveAllKeepsNewest(scans: seq<ScanResult>, history: seq<ScanResult>)
    requires |history| <= HistoryLimit
    ensures SaveAll(scans, history) ==
      (Reverse(scans) + history)[..SliceEnd(|scans| + |history|, HistoryLimit)]
  {
    if scans == [] {
      assert Reverse(scans) + history == history;
    } else {
      var s := scans[0];
      var next := PrependScan(s, history);
      SaveAllKeepsNewest(scans[1..], next);
      var rest := Reverse(scans[1..]);
      assert Reverse(scans) + history == rest + ([s] + history);
      var m := SliceEnd(|scans| + |history|, HistoryLimit);
      assert next == ([s] + history)[..|next|];
      assert (rest + next)[..m] == (rest + ([s] + history))[..m];
    }
  }

  // ---------------------------------------------------------------------
  // updateProfileMutation: { ...current, ...updates }
  // ---------------------------------------------------------------------

  /** A Partial<UserProfile>: the fields the caller sets. */
  datatype ProfileUpdate = ProfileUpdate(
    isPremium: Option<bool>,
    dailyScansUsed: Option<nat>,
    dailyScansLimit: Option<nat>,
    lastScanDate: Option<string>,
    totalScans: Option<nat>,
    averageScore: Option<real>,
    streak: Option<nat>)

  const NoChange: ProfileUpdate := ProfileUpdate(None, None, None, None, None, None, None)

  /** The spread: every field the update sets wins, every other field stays. */
  function MergeProfile(current: UserProfile, updates: ProfileUpdate): (p: UserProfile)
    ensures p.isPremium == updates.isPremium.GetOr(current.isPremium)
    ensures p.dailyScansUsed == updates.dailyScansUsed.GetOr(current.dailyScansUsed)
    ensures p.dailyScansLimit == updates.dailyScansLimit.GetOr(current.dailyScansLimit)
    ensures p.lastScanDate == updates.lastScanDate.GetOr(current.lastScanDate)
    ensures p.totalScans == updates.totalScans.GetOr(current.totalScans)
    ensures p.averageScore == updates.averageScore.GetOr(current.averageScore)
    ensures p.streak == updates.streak.GetOr(current.streak)
  {
    UserProfile(
      updates.isPremium.GetOr(current.isPremium),
      updates.dailyScansUsed.GetOr(current.dailyScansUsed),
      updates.dailyScansLimit.GetOr(current.dailyScansLimit),
      updates.lastScanDate.GetOr(current.lastScanDate),
      updates.totalScans.GetOr(current.totalScans),
      updates.averageScore.GetOr(current.averageScore),
      updates.streak.GetOr(current.streak))
  }

  /** The later update's fields win over the earlier one's. */
  function Then(first: ProfileUpdate, second: ProfileUpdate): ProfileUpdate {
    ProfileUpdate(
      if second.isPremium.Some? then second.isPremium else first.isPremium,
      if second.dailyScansUsed.Some? then second.dailyScansUsed else first.dailyScansUsed,
      if second.dailyScansLimit.Some? then second.dailyScansLimit else first.dailyScansLimit,
      if second.lastScanDate.Some? then second.lastScanDate else first.lastScanDate,
      if second.totalScans.Some? then second.totalScans else first.totalScans,
      if second.averageScore.Some? then second.averageScore else first.averageScore,
      if second.streak.Some? then second.streak else first.streak)
  }

  /**
   * An empty update changes nothing, applying an update twice is applying it
   * once, and two updates in a row are one combined update.
   */
  lemma MergeLaws(p: UserProfile, u: ProfileUpdate, v: ProfileUpdate)
    ensures MergeProfile(p, NoChange) == p
    ensures MergeProfile(MergeProfile(p, u), u) == MergeProfile(p, u)
    ensures MergeProfile(MergeProfile(p, u), v) == MergeProfile(p, Then(u, v))
  {
  }

  // ---------------------------------------------------------------------
  // canScan and scansRemaining
  // ---------------------------------------------------------------------

  /** scansRemaining: Infinity for premium users, else a count. */
  datatype Remaining = Unlimited | Finite(n: nat)

  /** canScan: premium users always, others while today's count is below the limit. */
  predicate CanScan(p: UserProfile)
    ensures p.isPremium ==> CanScan(p)
    ensures !p.isPremium ==> (CanScan(p) <==> p.dailyScansUsed < p.dailyScansLimit)
  {
    p.isPremium || p.dailyScansUsed < p.dailyScansLimit
  }

  /** Math.max(0, dailyScansLimit - dailyScansUsed), never negative, never above the limit. */
  function ScansRemaining(p: UserProfile): (r: Remaining)
    ensures r == Unlimited <==> p.isPremium
    ensures r.Finite? ==> r.n <= p.dailyScansLimit && r.n + p.dailyScansUsed >= p.dailyScansLimit
    ensures r.Finite? && p.dailyScansUsed <= p.dailyScansLimit ==> r.n + p.dailyScansUsed == p.dailyScansLimit
    ensures r.Finite? && p.dailyScansLimit <= p.dailyScansUsed ==> r.n == 0
  {
    if p.isPremium then Unlimited
    else if p.dailyScansLimit < p.dailyScansUsed then Finite(0)
    else Finite(p.dailyScansLimit - p.dailyScansUsed)
  }

  /** The two quota views agree: a scan is allowed exactly when some remain. */
  lemma CanScanIffRemaining(p: UserProfile)
    ensures CanScan(p) <==> ScansRemaining(p) != Finite(0)
  {
  }

  // ---------------------------------------------------------------------
  // processSelfie's profile update, upgradeToPremium
  // ---------------------------------------------------------------------

  /** Math.round(((average * total) + score) / (total + 1) * 10) / 10 */
  function RunningAverage(average: real, total: nat, score: real): (a: real)
    ensures IsTenths(a)
    ensures var exact := (average * total as real + score) / (total as real + 1.0);
      exact - 0.05 < a <= exact + 0.05
  {
    Round1IsTenths((average * total as real + score) / (total as real + 1.0));
    Round1((average * total as real + score) / (total as real + 1.0))
  }

  /** The update processSelfie hands to updateProfile. */
  function ScanUpdate(p: UserProfile, score: real, today: string): (u: ProfileUpdate)
    ensures u.isPremium.None? && u.dailyScansLimit.None? && u.streak.None?
    ensures u.lastScanDate == Some(today)
    ensures u.totalScans == Some(p.totalScans + 1) && u.dailyScansUsed == Some(p.dailyScansUsed + 1)
  {
    NoChange.(
      dailyScansUsed := Some(p.dailyScansUsed + 1),
      lastScanDate := Some(today),
      totalScans := Some(p.totalScans + 1),
      averageScore := Some(RunningAverage(p.averageScore, p.totalScans, score)))
  }

  /**
   * A scan counts once in the total and once against today's quota, dates
   * the profile today and folds the score into the rounded running average;
   * the premium flag, the limit and the streak stay. The quota is not
   * consulted: a profile already at its limit goes past it.
   */
  lemma ScanUpdateEffect(p: UserProfile, score: real, today: string)
    ensures var q := MergeProfile(p, ScanUpdate(p, score, today));
      && q.totalScans == p.totalScans + 1
      && q.dailyScansUsed == p.dailyScansUsed + 1
      && q.lastScanDate == today
      && q.averageScore == RunningAverage(p.averageScore, p.totalScans, score)
      && q.isPremium == p.isPremium && q.dailyScansLimit == p.dailyScansLimit && q.streak == p.streak
      && (!CanScan(p) ==> q.dailyScansUsed > q.dailyScansLimit)
  {
  }

  /** For a free user a scan uses up one of the remaining scans. */
  lemma ScanUsesOneFromQuota(p: UserProfile, score: real, today: string)
    requires !p.isPremium && CanScan(p)
    ensures ScansRemaining(MergeProfile(p, ScanUpdate(p, score, today))).n + 1 == ScansRemaining(p).n
  {
  }

  /** total scores of at most 10 each sum to at most 10 * total. */
  lemma {:induction false} ScaledAverageBounds(average: real, total: nat)
    requires 0.0 <= average <= 10.0
    ensures 0.0 <= average * total as real <= 10.0 * total as real
  {
    if total > 0 {
      ScaledAverageBounds(average, total - 1);
      assert average * total as real == average * (total - 1) as real + average;
    }
  }

  lemma MeanAtMostTen(sum: real, count: real)
    requires count > 0.0 && 0.0 <= sum <= 10.0 * count
    ensures 0.0 <= sum / count <= 10.0
  {
    var q := sum / count;
    assert q * count == sum;
    assert (10.0 - q) * count == 10.0 * count - sum;
  }

  /** The running average of scores in [0, 10] stays in [0, 10] with one decimal. */
  lemma {:induction false} RunningAverageInRange(average: real, total: nat, score: real)
    requires 0.0 <= average <= 10.0 && 0.0 <= score <= 10.0
    ensures 0.0 <= RunningAverage(average, total, score) <= 10.0
    ensures IsTenths(RunningAverage(average, total, score))
  {
    var mean := (average * total as real + score) / (total as real + 1.0);
    ScaledAverageBounds(average, total);
    MeanAtMostTen(average * total as real + score, total as real + 1.0);
    FloorUnique(0.0, 0);
    FloorUnique(100.0, 100);
    Round1Within(mean, 0.0, 10.0);
    Round1IsTenths(mean);
  }

  /** The first scan's score becomes the average as it is. */
  lemma FirstScanAverage(average: real, score: real)
    requires IsTenths(score)
    ensures RunningAverage(average, 0, score) == score
  {
    Round1OfTenths(score);
  }

  /** Two scans averaging 7.0 and a third scoring 9.0 give 7.7 (23/3 rounded). */
  lemma RunningAverageExample()
    ensures RunningAverage(7.0, 2, 9.0) == 7.7
  {
    FloorUnique(10.0 * (23.0 / 3.0) + 0.5, 77);
  }

  /**
   * The stored average is itself rounded, so it can drift from the mean of
   * the scans: scores 7.0, 7.1, 7.0 store 7.0, then 7.1 (7.05 rounded up),
   * then 7.1 (21.2 / 3 rounded), while their mean 21.1 / 3 rounds to 7.0.
   */
  lemma AverageCanDriftFromMean()
    ensures RunningAverage(0.0, 0, 7.0) == 7.0
    ensures RunningAverage(7.0, 1, 7.1) == 7.1
    ensures RunningAverage(7.1, 2, 7.0) == 7.1
    ensures Round1((7.0 + 7.1 + 7.0) / 3.0) == 7.0
  {
    FloorUnique(10.0 * 7.0 + 0.5, 70);
    FloorUnique(10.0 * ((7.0 * 1.0 + 7.1) / 2.0) + 0.5, 71);
    FloorUnique(10.0 * ((7.1 * 2.0 + 7.0) / 3.0) + 0.5, 71);
    FloorUnique(10.0 * ((7.0 + 7.1 + 7.0) / 3.0) + 0.5, 70);
  }

  const PremiumUpdate: ProfileUpdate := NoChange.(isPremium := Some(true))

  /** Upgrading sets the premium flag and nothing else, and a second upgrade changes nothing. */
  lemma UpgradeSetsOnlyPremium(p: UserProfile)
    ensures MergeProfile(p, PremiumUpdate) == p.(isPremium := true)
    ensures MergeProfile(MergeProfile(p, PremiumUpdate), PremiumUpdate) == MergeProfile(p, PremiumUpdate)
    ensures CanScan(MergeProfile(p, PremiumUpdate)) && ScansRemaining(MergeProfile(p, PremiumUpdate)) == Unlimited
  {
  }

  // ---------------------------------------------------------------------
  // The context object
  // ---------------------------------------------------------------------

  /**
   * The provider's state: what AsyncStorage holds, what the two queries have
   * read back (None until they run), the scan on screen and the busy flag.
   * Every mutation writes storage and then re-runs its query, as the
   * invalidation in onSuccess does.
   */
  class GlowStore {
    var storedHistory: Option<seq<ScanResult>>
    var storedProfile: Option<UserProfile>
    var historyData: Option<seq<ScanResult>>
    var profileData: Option<UserProfile>
    var currentScan: Option<ScanResult>
    var isProcessing: bool

    /** A provider mounted over whatever storage already holds; the queries have not run. */
    constructor (storedHistory: Option<seq<ScanResult>>, storedProfile: Option<UserProfile>)
      ensures this.storedHistory == storedHistory && this.storedProfile == storedProfile
      ensures historyData == None && profileData == None
      ensures currentScan == None && !isProcessing
    {
      this.storedHistory := storedHistory;
      this.storedProfile := storedProfile;
      historyData := None;
      profileData := None;
      currentScan := None;
      isProcessing := false;
    }

    /** `history`: the query's data, or an empty list. */
    function History(): (h: seq<ScanResult>)
      reads this
      ensures historyData.None? ==> h == []
      ensures historyData.Some? ==> h == historyData.value
    {
      historyData.GetOr([])
    }

    /** `profile`: the query's data, or DEFAULT_PROFILE. */
    function Profile(): (p: UserProfile)
      reads this
      ensures profileData.None? ==> p == DefaultProfile
      ensures profileData.Some? ==> p == profileData.value
    {
      profileData.GetOr(DefaultProfile)
    }

    /** historyQuery runs: it reads the stored list. */
    method RefetchHistory()
      modifies this`historyData
      ensures historyData == Some(LoadHistory(storedHistory))
    {
      historyData := Some(LoadHistory(storedHistory));
    }

    /** profileQuery runs on day `today`: it reads the stored profile and applies the daily reset. */
    method RefetchProfile(today: string)
      modifies this`profileData
      ensures profileData == Some(LoadProfile(storedProfile, today))
    {
      profileData := Some(LoadProfile(storedProfile, today));
    }

    /** saveScanMutation: store the prepended, truncated history, then re-read it. */
    method SaveScan(scan: ScanResult)
      modifies this`storedHistory, this`historyData
      ensures storedHistory == Some(PrependScan(scan, old(History())))
      ensures historyData == storedHistory
      ensures History()[0] == scan && |History()| <= HistoryLimit
    {
      storedHistory := Some(PrependScan(scan, History()));
      RefetchHistory();
    }

    /** updateProfileMutation: store the merged profile, then re-read it on day `today`. */
    method UpdateProfile(updates: ProfileUpdate, today: string)
      modifies this`storedProfile, this`profileData
      ensures storedProfile == Some(MergeProfile(old(Profile()), updates))
      ensures profileData == Some(LoadProfile(storedProfile, today))
    {
      storedProfile := Some(MergeProfile(Profile(), updates));
      RefetchProfile(today);
    }

    /**
     * processSelfie: score the selfie with the mock generator, show the scan,
     * save it to the history and count it in the profile. The quota is not
     * checked here.
     */
    method ProcessSelfie(imageUri: string, id: string, createdAt: string, today: string,
                         draw: ScoreDraw, tipOrder: seq<int>, roastDraw: real)
      returns (scan: ScanResult)
      requires IsPermutation(tipOrder, |TipsPool|) && IsRandom(roastDraw)
      modifies this
      ensures var m := GenerateMockScore(draw);
        scan == ScanResult(id, imageUri, m.score, m.breakdown, GetRandomTips(3, tipOrder), GetRandomRoast(roastDraw), createdAt)
      ensures currentScan == Some(scan) && !isProcessing
      ensures storedHistory == Some(PrependScan(scan, old(History()))) && historyData == storedHistory
      ensures storedProfile == Some(MergeProfile(old(Profile()), ScanUpdate(old(Profile()), scan.score, today)))
      ensures profileData == storedProfile
    {
      isProcessing := true;
      var generated := GenerateMockScore(draw);
      var tips := GetRandomTips(3, tipOrder);
      var roast := GetRandomRoast(roastDraw);
      scan := ScanResult(id, imageUri, generated.score, generated.breakdown, tips, roast, createdAt);
      currentScan := Some(scan);
      var profile := Profile();
      SaveScan(scan);
      UpdateProfile(ScanUpdate(profile, scan.score, today), today);
      isProcessing := false;
    }

    /** upgradeToPremium: a profile update that sets only the flag. */
    method UpgradeToPremium(today: string)
      modifies this`storedProfile, this`profileData
      ensures storedProfile == Some(old(Profile()).(isPremium := true))
      ensures profileData == Some(LoadProfile(storedProfile, today))
      ensures Profile().isPremium && CanScan(Profile())
    {
      UpdateProfile(PremiumUpdate, today);
    }

    /** clearCurrentScan: only the scan on screen goes. */
    method ClearCurrentScan()
      modifies this`currentScan
      ensures currentScan == None
    {
      currentScan := None;
    }
  }

  /**
   * A fresh install scanning once: the profile counts one scan and one use
   * today, its average is the scan's score, and the history is that scan.
   */
  method FirstScanOnFreshInstall(today: string, draw: ScoreDraw, tipOrder: seq<int>, roastDraw: real)
    returns (profile: UserProfile, history: seq<ScanResult>)
    requires IsPermutation(tipOrder, |TipsPool|) && IsRandom(roastDraw)
    ensures profile.totalScans == 1 && profile.dailyScansUsed == 1 && profile.lastScanDate == today
    ensures profile.averageScore == GenerateMockScore(draw).score
    ensures |history| == 1 && history[0].imageUri == "uri-1" && history[0].score == profile.averageScore
  {
    var store := new GlowStore(None, None);
    store.RefetchHistory();
    store.RefetchProfile(today);
    var scan := store.ProcessSelfie("uri-1", "1", "2026-01-01T00:00:00.000Z", today, draw, tipOrder, roastDraw);
    GeneratedScoreInRange(draw);
    FirstScanAverage(0.0, scan.score);
    profile := store.Profile();
    history := store.History();
  }
}
