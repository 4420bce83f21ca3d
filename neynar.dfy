/**
  The score helpers of the Neynar client library: the five score levels,
  the thresholds that bucket a score into a level, the per-level display
  tables (colour, label, description, tips) and the address shortener.
*/
module Neynar {
  import opened Js

  datatype ScoreLevel = Poor | Low | Average | Good | Excellent

  /** The order of the levels: poor < low < average < good < excellent. */
  function Rank(l: ScoreLevel): nat {
    match l
    case Poor => 0
    case Low => 1
    case Average => 2
    case Good => 3
    case Excellent => 4
  }

  /** The smallest score of each level; every score reaches `Poor`. */
  function Threshold(l: ScoreLevel): Option<real> {
    match l
    case Poor => None
    case Low => Some(0.35)
    case Average => Some(0.5)
    case Good => Some(0.65)
    case Excellent => Some(0.8)
  }

  predicate Reaches(score: real, l: ScoreLevel) {
    Threshold(l).None? || Threshold(l).value <= score
  }

  /** `getScoreLevel`: the half-open intervals [0.8, ...), [0.65, 0.8),
      [0.5, 0.65), [0.35, 0.5) and everything below 0.35. */
  function GetScoreLevel(score: real): (l: ScoreLevel)
    ensures l == Excellent <==> score >= 0.8
    ensures l == Good <==> 0.65 <= score < 0.8
    ensures l == Average <==> 0.5 <= score < 0.65
    ensures l == Low <==> 0.35 <= score < 0.5
    ensures l == Poor <==> score < 0.35
  {
    if score >= 0.8 then Excellent
    else if score >= 0.65 then Good
    else if score >= 0.5 then Average
    else if score >= 0.35 then Low
    else Poor
  }

  /** The level of a score is the highest level whose threshold it reaches. */
  lemma GetScoreLevelIsHighestReached(score: real, l: ScoreLevel)
    ensures Reaches(score, GetScoreLevel(score))
    ensures Reaches(score, l) ==> Rank(l) <= Rank(GetScoreLevel(score))
  {
  }

  /** A higher score never gets a lower level. */
  lemma GetScoreLevelMonotone(s: real, t: real)
    requires s <= t
    ensures Rank(GetScoreLevel(s)) <= Rank(GetScoreLevel(t))
  {
  }

  predicate IsHexDigit(c: char) {
    '0' <= c <= '9' || 'a' <= c <= 'f'
  }

  /** A CSS colour `#rrggbb` in lower-case hexadecimal. */
  predicate IsHexColour(c: string) {
    |c| == 7 && c[0] == '#' && forall i :: 1 <= i < 7 ==> IsHexDigit(c[i])
  }

  /** `getScoreColor`: a colour for every level. */
  function GetScoreColor(l: ScoreLevel): (colour: string)
    ensures IsHexColour(colour)
  {
    match l
    case Excellent => "#10b981"
    case Good => "#22c55e"
    case Average => "#eab308"
    case Low => "#f97316"
    case Poor => "#ef4444"
  }

  /** `getScoreLabel`: the label reads back as its own level. */
  function GetScoreLabel(l: ScoreLevel): (name: string)
    ensures LevelOfLabel(name) == Some(l)
  {
    match l
    case Excellent => "Excellent"
    case Good => "Good"
    case Average => "Average"
    case Low => "Low"
    case Poor => "Poor"
  }

  /** `getScoreDescription`: a description for every level. */
  function GetScoreDescription(l: ScoreLevel): (description: string)
    ensures |description| > 0
  {
    match l
    case Excellent => "Outstanding reputation! Top-tier contributor to the Farcaster ecosystem."
    case Good => "Great reputation! You're a valued member of the community."
    case Average => "Decent reputation. Keep engaging positively to improve!"
    case Low => "Building reputation. More quality interactions will help."
    case Poor => "Low reputation. Focus on authentic engagement to grow."
  }

  /** `getScoreTips`: three tips for every level. */
  function GetScoreTips(l: ScoreLevel): (tips: seq<string>)
    ensures |tips| == 3
  {
    match l
    case Excellent => [
      "You're doing amazing! Keep up the great work.",
      "Help others grow by engaging with newer members.",
      "Your endorsement carries significant weight."]
    case Good => [
      "Consistent quality engagement pays off.",
      "Connect with more established users.",
      "Share valuable insights and content."]
    case Average => [
      "Post original, thoughtful content.",
      "Engage meaningfully in conversations.",
      "Avoid spam and low-effort posts."]
    case Low => [
      "Focus on quality over quantity.",
      "Build genuine connections.",
      "Be patient - scores update weekly."]
    case Poor => [
      "Review community guidelines.",
      "Start fresh with authentic engagement.",
      "Avoid actions that seem automated."]
  }

  /** Reads a label back as its level: the inverse of `GetScoreLabel`. */
  function LevelOfLabel(text: string): Option<ScoreLevel> {
    if text == "Excellent" then Some(Excellent)
    else if text == "Good" then Some(Good)
    else if text == "Average" then Some(Average)
    else if text == "Low" then Some(Low)
    else if text == "Poor" then Some(Poor)
    else None
  }

  /** Each table tells the levels apart: distinct levels get distinct
      colours, labels, descriptions and tips. */
  lemma TablesInjective(a: ScoreLevel, b: ScoreLevel)
    requires a != b
    ensures GetScoreColor(a) != GetScoreColor(b)
    ensures GetScoreLabel(a) != GetScoreLabel(b)
    ensures GetScoreDescription(a) != GetScoreDescription(b)
    ensures GetScoreTips(a) != GetScoreTips(b)
  {
  }

  /** `formatAddress`: "" for "", otherwise the first six characters, "...",
      and the last four (the whole string on each side when it is shorter). */
  function FormatAddress(address: string): (r: string)
    ensures address == "" ==> r == ""
    ensures address != "" ==>
      var n := |address|;
      r == address[..Min(6, n)] + "..." + address[n - Min(4, n)..]
    ensures address != "" ==> |r| == Min(6, |address|) + 3 + Min(4, |address|)
  {
    if address == "" then "" else Slice(address, 0, 6) + "..." + SliceFrom(address, -4)
  }
}
