/** The word pairs of the opposite match, and the position of each left word. */
module OppositeWords {
  datatype Opposites = Opposites(word: string, opposite: string)

  const Pairs: seq<Opposites> := [
    Opposites("hot", "cold"), Opposites("warm", "cool"), Opposites("wet", "dry"), Opposites("sunny", "rainy"),
    Opposites("big", "small"), Opposites("tall", "short"), Opposites("wide", "narrow"), Opposites("full", "empty"),
    Opposites("heavy", "light"), Opposites("happy", "sad"), Opposites("kind", "mean"), Opposites("brave", "scared"),
    Opposites("polite", "rude"), Opposites("quiet", "loud"), Opposites("fast", "slow"), Opposites("early", "late"),
    Opposites("near", "far"), Opposites("up", "down"), Opposites("come", "go"), Opposites("day", "night"),
    Opposites("open", "closed"), Opposites("awake", "asleep"), Opposites("begin", "end"), Opposites("start", "finish"),
    Opposites("young", "old"), Opposites("new", "old"), Opposites("first", "last"), Opposites("hard", "soft"),
    Opposites("strong", "weak"), Opposites("clean", "dirty"), Opposites("bright", "dark"), Opposites("smooth", "rough"),
    Opposites("right", "wrong"), Opposites("in", "out"), Opposites("before", "after"), Opposites("push", "pull")]

  /** The position of a left word in the list, -1 for any other string. */
  function Rank(w: string): int
  {
    match w
    case "hot" => 0 case "warm" => 1 case "wet" => 2 case "sunny" => 3
    case "big" => 4 case "tall" => 5 case "wide" => 6 case "full" => 7
    case "heavy" => 8 case "happy" => 9 case "kind" => 10 case "brave" => 11
    case "polite" => 12 case "quiet" => 13 case "fast" => 14 case "early" => 15
    case "near" => 16 case "up" => 17 case "come" => 18 case "day" => 19
    case "open" => 20 case "awake" => 21 case "begin" => 22 case "start" => 23
    case "young" => 24 case "new" => 25 case "first" => 26 case "hard" => 27
    case "strong" => 28 case "clean" => 29 case "bright" => 30 case "smooth" => 31
    case "right" => 32 case "in" => 33 case "before" => 34 case "push" => 35
    case _ => -1
  }

  /** Each left word's rank is its position. */
  lemma Ranks()
    ensures |Pairs| == 36
    ensures forall k :: 0 <= k < 36 ==> Rank(Pairs[k].word) == k
  {
  }
}
