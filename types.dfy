/** The records the app stores and displays (types/index.ts). */
module Types {

  /** The four sub-scores of one scan, each meant to lie in [0, 10]. */
  datatype ScoreBreakdown = ScoreBreakdown(smile: real, lighting: real, style: real, vibe: real)

  datatype TipCategory = Pose | Lighting | Style | Expression

  datatype Tip = Tip(id: string, category: TipCategory, text: string, emoji: string)

  /** One completed scan; `id` and `createdAt` come from the clock. */
  datatype ScanResult = ScanResult(
    id: string,
    imageUri: string,
    score: real,
    breakdown: ScoreBreakdown,
    tips: seq<Tip>,
    roast: string,
    createdAt: string)

  /** The user's quota, counters and premium flag. */
  datatype UserProfile = UserProfile(
    isPremium: bool,
    dailyScansUsed: nat,
    dailyScansLimit: nat,
    lastScanDate: string,
    totalScans: nat,
    averageScore: real,
    streak: nat)

  /** The arithmetic mean of the four sub-scores. */
  function Mean(b: ScoreBreakdown): real {
    (b.smile + b.lighting + b.style + b.vibe) / 4.0
  }
}
