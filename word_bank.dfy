/** The word bank of the word sorter: twelve nouns, twelve verbs and twelve adjectives. */
module SorterWords {
  datatype WordType = Noun | Verb | Adjective

  datatype Entry = Entry(word: string, kind: WordType)

  const WordBank: seq<Entry> := [
    Entry("dog", Noun), Entry("apple", Noun), Entry("car", Noun), Entry("book", Noun),
    Entry("chair", Noun), Entry("house", Noun), Entry("cat", Noun), Entry("tree", Noun),
    Entry("ball", Noun), Entry("school", Noun), Entry("milk", Noun), Entry("flower", Noun),
    Entry("run", Verb), Entry("jump", Verb), Entry("write", Verb), Entry("read", Verb),
    Entry("sing", Verb), Entry("dance", Verb), Entry("eat", Verb), Entry("play", Verb),
    Entry("drink", Verb), Entry("sleep", Verb), Entry("walk", Verb), Entry("draw", Verb),
    Entry("happy", Adjective), Entry("blue", Adjective), Entry("green", Adjective), Entry("tall", Adjective),
    Entry("small", Adjective), Entry("fast", Adjective), Entry("slow", Adjective), Entry("bright", Adjective),
    Entry("kind", Adjective), Entry("cold", Adjective), Entry("warm", Adjective), Entry("funny", Adjective)]

  /** The position of a bank word in the list, -1 for any other string. */
  function Rank(w: string): int
  {
    match w
    case "dog" => 0 case "apple" => 1 case "car" => 2 case "book" => 3
    case "chair" => 4 case "house" => 5 case "cat" => 6 case "tree" => 7
    case "ball" => 8 case "school" => 9 case "milk" => 10 case "flower" => 11
    case "run" => 12 case "jump" => 13 case "write" => 14 case "read" => 15
    case "sing" => 16 case "dance" => 17 case "eat" => 18 case "play" => 19
    case "drink" => 20 case "sleep" => 21 case "walk" => 22 case "draw" => 23
    case "happy" => 24 case "blue" => 25 case "green" => 26 case "tall" => 27
    case "small" => 28 case "fast" => 29 case "slow" => 30 case "bright" => 31
    case "kind" => 32 case "cold" => 33 case "warm" => 34 case "funny" => 35
    case _ => -1
  }

  /** Each bank word's rank is its position. */
  lemma Ranks()
    ensures |WordBank| == 36
    ensures forall k :: 0 <= k < 36 ==> Rank(WordBank[k].word) == k
  {
  }
}
