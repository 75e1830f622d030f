/**
 * The value of `toKebabCase` on every category title and topic name of the year 2 mathematics
 * curriculum. Each string is cut into pieces of a few tokens (runs of id characters and
 * separators); for each piece one lemma checks that its tokens spell it, one that they are well
 * formed, one the scan state they leave and one the slug they contribute, and `KebabOfChunks`
 * assembles the pieces into the value of `ToKebabCase`.
 */
module CurriculumIds {
  import opened KebabCase

  lemma SpellingNumberNumberAndPlaceValuePart1()
    ensures "Number - Number " == Spelled([Run("Number", "number"), Sep(" "), Run("-", "-"), Sep(" "), Run("Number", "number"), Sep(" ")], 0)
  {
  }

  lemma LexedNumberNumberAndPlaceValuePart1()
    ensures Lexed([Run("Number", "number"), Sep(" "), Run("-", "-"), Sep(" "), Run("Number", "number"), Sep(" ")], 0, Start)
  {
  }

  lemma FinalNumberNumberAndPlaceValuePart1()
    ensures Final([Run("Number", "number"), Sep(" "), Run("-", "-"), Sep(" "), Run("Number", "number"), Sep(" ")], 0, Start) == Gap
  {
  }

  lemma SlugNumberNumberAndPlaceValuePart1()
    ensures Slug([Run("Number", "number"), Sep(" "), Run("-", "-"), Sep(" "), Run("Number", "number"), Sep(" ")], 0, Start) == "number---number"
  {
  }

  lemma ChunkNumberNumberAndPlaceValuePart1()
    ensures ChunkOk([Run("Number", "number"), Sep(" "), Run("-", "-"), Sep(" "), Run("Number", "number"), Sep(" ")], "Number - Number ", "number---number", Start, Gap)
  {
    SpellingNumberNumberAndPlaceValuePart1();
    LexedNumberNumberAndPlaceValuePart1();
    FinalNumberNumberAndPlaceValuePart1();
    SlugNumberNumberAndPlaceValuePart1();
  }

  lemma SpellingNumberNumberAndPlaceValuePart2()
    ensures "and Place Value" == Spelled([Run("and", "and"), Sep(" "), Run("Place", "place"), Sep(" "), Run("Value", "value")], 0)
  {
  }

  lemma LexedNumberNumberAndPlaceValuePart2()
    ensures Lexed([Run("and", "and"), Sep(" "), Run("Place", "place"), Sep(" "), Run("Value", "value")], 0, Gap)
  {
  }

  lemma FinalNumberNumberAndPlaceValuePart2()
    ensures Final([Run("and", "and"), Sep(" "), Run("Place", "place"), Sep(" "), Run("Value", "value")], 0, Gap) == Word
  {
  }

  lemma SlugNumberNumberAndPlaceValuePart2()
    ensures Slug([Run("and", "and"), Sep(" "), Run("Place", "place"), Sep(" "), Run("Value", "value")], 0, Gap) == "-and-place-value"
  {
  }

  lemma ChunkNumberNumberAndPlaceValuePart2()
    ensures ChunkOk([Run("and", "and"), Sep(" "), Run("Place", "place"), Sep(" "), Run("Value", "value")], "and Place Value", "-and-place-value", Gap, Word)
  {
    SpellingNumberNumberAndPlaceValuePart2();
    LexedNumberNumberAndPlaceValuePart2();
    FinalNumberNumberAndPlaceValuePart2();
    SlugNumberNumberAndPlaceValuePart2();
  }

  lemma JoinedNumberNumberAndPlaceValue()
    ensures Concat(["Number - Number ", "and Place Value"]) == "Number - Number and Place Value"
  {
  }

  lemma JoinedSlugNumberNumberAndPlaceValue()
    ensures Concat(["number---number", "-and-place-value"]) == "number---number-and-place-value"
  {
  }

  lemma ChunksNumberNumberAndPlaceValue()
    ensures ChunksOk([[Run("Number", "number"), Sep(" "), Run("-", "-"), Sep(" "), Run("Number", "number"), Sep(" ")], [Run("and", "and"), Sep(" "), Run("Place", "place"), Sep(" "), Run("Value", "value")]], ["Number - Number ", "and Place Value"], ["number---number", "-and-place-value"], [Start, Gap, Word], 0)
  {
    ChunkNumberNumberAndPlaceValuePart1();
    ChunkNumberNumberAndPlaceValuePart2();
  }

  lemma KebabNumberNumberAndPlaceValue(s: string)
    requires s == "Number - Number and Place Value"
    ensures ToKebabCase(s) == "number---number-and-place-value"
  {
    ChunksNumberNumberAndPlaceValue();
    JoinedNumberNumberAndPlaceValue();
    JoinedSlugNumberNumberAndPlaceValue();
    KebabOfChunks(s, "number---number-and-place-value", [[Run("Number", "number"), Sep(" "), Run("-", "-"), Sep(" "), Run("Number", "number"), Sep(" ")], [Run("and", "and"), Sep(" "), Run("Place", "place"), Sep(" "), Run("Value", "value")]], ["Number - Number ", "and Place Value"], ["number---number", "-and-place-value"], [Start, Gap, Word]);
  }

  lemma SpellingNumbersAndCountingPart1()
    ensures "Numbers and " == Spelled([Run("Number", "number"), Run("s", "s"), Sep(" "), Run("and", "and"), Sep(" ")], 0)
  {
  }

  lemma LexedNumbersAndCountingPart1()
    ensures Lexed([Run("Number", "number"), Run("s", "s"), Sep(" "), Run("and", "and"), Sep(" ")], 0, Start)
  {
  }

  lemma FinalNumbersAndCountingPart1()
    ensures Final([Run("Number", "number"), Run("s", "s"), Sep(" "), Run("and", "and"), Sep(" ")], 0, Start) == Gap
  {
  }

  lemma SlugNumbersAndCountingPart1()
    ensures Slug([Run("Number", "number"), Run("s", "s"), Sep(" "), Run("and", "and"), Sep(" ")], 0, Start) == "numbers-and"
  {
  }

  lemma ChunkNumbersAndCountingPart1()
    ensures ChunkOk([Run("Number", "number"), Run("s", "s"), Sep(" "), Run("and", "and"), Sep(" ")], "Numbers and ", "numbers-and", Start, Gap)
  {
    SpellingNumbersAndCountingPart1();
    LexedNumbersAndCountingPart1();
    FinalNumbersAndCountingPart1();
    SlugNumbersAndCountingPart1();
  }

  lemma SpellingNumbersAndCountingPart2()
    ensures "Counting" == Spelled([Run("Counti", "counti"), Run("ng", "ng")], 0)
  {
  }

  lemma LexedNumbersAndCountingPart2()
    ensures Lexed([Run("Counti", "counti"), Run("ng", "ng")], 0, Gap)
  {
  }

  lemma FinalNumbersAndCountingPart2()
    ensures Final([Run("Counti", "counti"), Run("ng", "ng")], 0, Gap) == Word
  {
  }

  lemma SlugNumbersAndCountingPart2()
    ensures Slug([Run("Counti", "counti"), Run("ng", "ng")], 0, Gap) == "-counting"
  {
  }

  lemma ChunkNumbersAndCountingPart2()
    ensures ChunkOk([Run("Counti", "counti"), Run("ng", "ng")], "Counting", "-counting", Gap, Word)
  {
    SpellingNumbersAndCountingPart2();
    LexedNumbersAndCountingPart2();
    FinalNumbersAndCountingPart2();
    SlugNumbersAndCountingPart2();
  }

  lemma JoinedNumbersAndCounting()
    ensures Concat(["Numbers and ", "Counting"]) == "Numbers and Counting"
  {
  }

  lemma JoinedSlugNumbersAndCounting()
    ensures Concat(["numbers-and", "-counting"]) == "numbers-and-counting"
  {
  }

  lemma ChunksNumbersAndCounting()
    ensures ChunksOk([[Run("Number", "number"), Run("s", "s"), Sep(" "), Run("and", "and"), Sep(" ")], [Run("Counti", "counti"), Run("ng", "ng")]], ["Numbers and ", "Counting"], ["numbers-and", "-counting"], [Start, Gap, Word], 0)
  {
    ChunkNumbersAndCountingPart1();
    ChunkNumbersAndCountingPart2();
  }

  lemma KebabNumbersAndCounting(s: string)
    requires s == "Numbers and Counting"
    ensures ToKebabCase(s) == "numbers-and-counting"
  {
    ChunksNumbersAndCounting();
    JoinedNumbersAndCounting();
    JoinedSlugNumbersAndCounting();
    KebabOfChunks(s, "numbers-and-counting", [[Run("Number", "number"), Run("s", "s"), Sep(" "), Run("and", "and"), Sep(" ")], [Run("Counti", "counti"), Run("ng", "ng")]], ["Numbers and ", "Counting"], ["numbers-and", "-counting"], [Start, Gap, Word]);
  }

  lemma SpellingCountingForwardsAndBackwardsPart1()
    ensures "Counting Forwar" == Spelled([Run("Counti", "counti"), Run("ng", "ng"), Sep(" "), Run("Forwar", "forwar")], 0)
  {
  }

  lemma LexedCountingForwardsAndBackwardsPart1()
    ensures Lexed([Run("Counti", "counti"), Run("ng", "ng"), Sep(" "), Run("Forwar", "forwar")], 0, Start)
  {
  }

  lemma FinalCountingForwardsAndBackwardsPart1()
    ensures Final([Run("Counti", "counti"), Run("ng", "ng"), Sep(" "), Run("Forwar", "forwar")], 0, Start) == Word
  {
  }

  lemma SlugCountingForwardsAndBackwardsPart1()
    ensures Slug([Run("Counti", "counti"), Run("ng", "ng"), Sep(" "), Run("Forwar", "forwar")], 0, Start) == "counting-forwar"
  {
  }

  lemma ChunkCountingForwardsAndBackwardsPart1()
    ensures ChunkOk([Run("Counti", "counti"), Run("ng", "ng"), Sep(" "), Run("Forwar", "forwar")], "Counting Forwar", "counting-forwar", Start, Word)
  {
    SpellingCountingForwardsAndBackwardsPart1();
    LexedCountingForwardsAndBackwardsPart1();
    FinalCountingForwardsAndBackwardsPart1();
    SlugCountingForwardsAndBackwardsPart1();
  }

  lemma SpellingCountingForwardsAndBackwardsPart2()
    ensures "ds and Backwards" == Spelled([Run("ds", "ds"), Sep(" "), Run("and", "and"), Sep(" "), Run("Backwa", "backwa"), Run("rds", "rds")], 0)
  {
  }

  lemma LexedCountingForwardsAndBackwardsPart2()
    ensures Lexed([Run("ds", "ds"), Sep(" "), Run("and", "and"), Sep(" "), Run("Backwa", "backwa"), Run("rds", "rds")], 0, Word)
  {
  }

  lemma FinalCountingForwardsAndBackwardsPart2()
    ensures Final([Run("ds", "ds"), Sep(" "), Run("and", "and"), Sep(" "), Run("Backwa", "backwa"), Run("rds", "rds")], 0, Word) == Word
  {
  }

  lemma SlugCountingForwardsAndBackwardsPart2()
    ensures Slug([Run("ds", "ds"), Sep(" "), Run("and", "and"), Sep(" "), Run("Backwa", "backwa"), Run("rds", "rds")], 0, Word) == "ds-and-backwards"
  {
  }

  lemma ChunkCountingForwardsAndBackwardsPart2()
    ensures ChunkOk([Run("ds", "ds"), Sep(" "), Run("and", "and"), Sep(" "), Run("Backwa", "backwa"), Run("rds", "rds")], "ds and Backwards", "ds-and-backwards", Word, Word)
  {
    SpellingCountingForwardsAndBackwardsPart2();
    LexedCountingForwardsAndBackwardsPart2();
    FinalCountingForwardsAndBackwardsPart2();
    SlugCountingForwardsAndBackwardsPart2();
  }

  lemma JoinedCountingForwardsAndBackwards()
    ensures Concat(["Counting Forwar", "ds and Backwards"]) == "Counting Forwards and Backwards"
  {
  }

  lemma JoinedSlugCountingForwardsAndBackwards()
    ensures Concat(["counting-forwar", "ds-and-backwards"]) == "counting-forwards-and-backwards"
  {
  }

  lemma ChunksCountingForwardsAndBackwards()
    ensures ChunksOk([[Run("Counti", "counti"), Run("ng", "ng"), Sep(" "), Run("Forwar", "forwar")], [Run("ds", "ds"), Sep(" "), Run("and", "and"), Sep(" "), Run("Backwa", "backwa"), Run("rds", "rds")]], ["Counting Forwar", "ds and Backwards"], ["counting-forwar", "ds-and-backwards"], [Start, Word, Word], 0)
  {
    ChunkCountingForwardsAndBackwardsPart1();
    ChunkCountingForwardsAndBackwardsPart2();
  }

  lemma KebabCountingForwardsAndBackwards(s: string)
    requires s == "Counting Forwards and Backwards"
    ensures ToKebabCase(s) == "counting-forwards-and-backwards"
  {
    ChunksCountingForwardsAndBackwards();
    JoinedCountingForwardsAndBackwards();
    JoinedSlugCountingForwardsAndBackwards();
    KebabOfChunks(s, "counting-forwards-and-backwards", [[Run("Counti", "counti"), Run("ng", "ng"), Sep(" "), Run("Forwar", "forwar")], [Run("ds", "ds"), Sep(" "), Run("and", "and"), Sep(" "), Run("Backwa", "backwa"), Run("rds", "rds")]], ["Counting Forwar", "ds and Backwards"], ["counting-forwar", "ds-and-backwards"], [Start, Word, Word]);
  }

  lemma SpellingCountingInStepsOf235And10Part1()
    ensures "Counting in " == Spelled([Run("Counti", "counti"), Run("ng", "ng"), Sep(" "), Run("in", "in"), Sep(" ")], 0)
  {
  }

  lemma LexedCountingInStepsOf235And10Part1()
    ensures Lexed([Run("Counti", "counti"), Run("ng", "ng"), Sep(" "), Run("in", "in"), Sep(" ")], 0, Start)
  {
  }

  lemma FinalCountingInStepsOf235And10Part1()
    ensures Final([Run("Counti", "counti"), Run("ng", "ng"), Sep(" "), Run("in", "in"), Sep(" ")], 0, Start) == Gap
  {
  }

  lemma SlugCountingInStepsOf235And10Part1()
    ensures Slug([Run("Counti", "counti"), Run("ng", "ng"), Sep(" "), Run("in", "in"), Sep(" ")], 0, Start) == "counting-in"
  {
  }

  lemma ChunkCountingInStepsOf235And10Part1()
    ensures ChunkOk([Run("Counti", "counti"), Run("ng", "ng"), Sep(" "), Run("in", "in"), Sep(" ")], "Counting in ", "counting-in", Start, Gap)
  {
    SpellingCountingInStepsOf235And10Part1();
    LexedCountingInStepsOf235And10Part1();
    FinalCountingInStepsOf235And10Part1();
    SlugCountingInStepsOf235And10Part1();
  }

  lemma SpellingCountingInStepsOf235And10Part2()
    ensures "Steps of 2, 3, 5" == Spelled([Run("Steps", "steps"), Sep(" "), Run("of", "of"), Sep(" "), Run("2", "2"), Sep(", "), Run("3", "3"), Sep(", "), Run("5", "5")], 0)
  {
  }

  lemma LexedCountingInStepsOf235And10Part2()
    ensures Lexed([Run("Steps", "steps"), Sep(" "), Run("of", "of"), Sep(" "), Run("2", "2"), Sep(", "), Run("3", "3"), Sep(", "), Run("5", "5")], 0, Gap)
  {
  }

  lemma FinalCountingInStepsOf235And10Part2()
    ensures Final([Run("Steps", "steps"), Sep(" "), Run("of", "of"), Sep(" "), Run("2", "2"), Sep(", "), Run("3", "3"), Sep(", "), Run("5", "5")], 0, Gap) == Word
  {
  }

  lemma SlugCountingInStepsOf235And10Part2()
    ensures Slug([Run("Steps", "steps"), Sep(" "), Run("of", "of"), Sep(" "), Run("2", "2"), Sep(", "), Run("3", "3"), Sep(", "), Run("5", "5")], 0, Gap) == "-steps-of-2-3-5"
  {
  }

  lemma ChunkCountingInStepsOf235And10Part2()
    ensures ChunkOk([Run("Steps", "steps"), Sep(" "), Run("of", "of"), Sep(" "), Run("2", "2"), Sep(", "), Run("3", "3"), Sep(", "), Run("5", "5")], "Steps of 2, 3, 5", "-steps-of-2-3-5", Gap, Word)
  {
    SpellingCountingInStepsOf235And10Part2();
    LexedCountingInStepsOf235And10Part2();
    FinalCountingInStepsOf235And10Part2();
    SlugCountingInStepsOf235And10Part2();
  }

  lemma SpellingCountingInStepsOf235And10Part3()
    ensures " and 10" == Spelled([Sep(" "), Run("and", "and"), Sep(" "), Run("10", "10")], 0)
  {
  }

  lemma LexedCountingInStepsOf235And10Part3()
    ensures Lexed([Sep(" "), Run("and", "and"), Sep(" "), Run("10", "10")], 0, Word)
  {
  }

  lemma FinalCountingInStepsOf235And10Part3()
    ensures Final([Sep(" "), Run("and", "and"), Sep(" "), Run("10", "10")], 0, Word) == Word
  {
  }

  lemma SlugCountingInStepsOf235And10Part3()
    ensures Slug([Sep(" "), Run("and", "and"), Sep(" "), Run("10", "10")], 0, Word) == "-and-10"
  {
  }

  lemma ChunkCountingInStepsOf235And10Part3()
    ensures ChunkOk([Sep(" "), Run("and", "and"), Sep(" "), Run("10", "10")], " and 10", "-and-10", Word, Word)
  {
    SpellingCountingInStepsOf235And10Part3();
    LexedCountingInStepsOf235And10Part3();
    FinalCountingInStepsOf235And10Part3();
    SlugCountingInStepsOf235And10Part3();
  }

  lemma JoinedCountingInStepsOf235And10L()
    ensures Concat(["Counting in "]) == "Counting in "
  {
  }

  lemma JoinedCountingInStepsOf235And10R()
    ensures Concat(["Steps of 2, 3, 5", " and 10"]) == "Steps of 2, 3, 5 and 10"
  {
  }

  lemma JoinedCountingInStepsOf235And10Cut()
    ensures "Counting in Steps of 2, 3, 5 and 10" == "Counting in " + "Steps of 2, 3, 5 and 10"
  {
  }

  lemma JoinedCountingInStepsOf235And10List()
    ensures ["Counting in ", "Steps of 2, 3, 5", " and 10"] == ["Counting in "] + ["Steps of 2, 3, 5", " and 10"]
  {
  }

  lemma JoinedCountingInStepsOf235And10()
    ensures Concat(["Counting in ", "Steps of 2, 3, 5", " and 10"]) == "Counting in Steps of 2, 3, 5 and 10"
  {
    JoinedCountingInStepsOf235And10L();
    JoinedCountingInStepsOf235And10R();
    JoinedCountingInStepsOf235And10Cut();
    JoinedCountingInStepsOf235And10List();
    ConcatAppend(["Counting in "], ["Steps of 2, 3, 5", " and 10"]);
  }

  lemma JoinedSlugCountingInStepsOf235And10L()
    ensures Concat(["counting-in"]) == "counting-in"
  {
  }

  lemma JoinedSlugCountingInStepsOf235And10R()
    ensures Concat(["-steps-of-2-3-5", "-and-10"]) == "-steps-of-2-3-5-and-10"
  {
  }

  lemma JoinedSlugCountingInStepsOf235And10Cut()
    ensures "counting-in-steps-of-2-3-5-and-10" == "counting-in" + "-steps-of-2-3-5-and-10"
  {
  }

  lemma JoinedSlugCountingInStepsOf235And10List()
    ensures ["counting-in", "-steps-of-2-3-5", "-and-10"] == ["counting-in"] + ["-steps-of-2-3-5", "-and-10"]
  {
  }

  lemma JoinedSlugCountingInStepsOf235And10()
    ensures Concat(["counting-in", "-steps-of-2-3-5", "-and-10"]) == "counting-in-steps-of-2-3-5-and-10"
  {
    JoinedSlugCountingInStepsOf235And10L();
    JoinedSlugCountingInStepsOf235And10R();
    JoinedSlugCountingInStepsOf235And10Cut();
    JoinedSlugCountingInStepsOf235And10List();
    ConcatAppend(["counting-in"], ["-steps-of-2-3-5", "-and-10"]);
  }

  lemma ChunksCountingInStepsOf235And10()
    ensures ChunksOk([[Run("Counti", "counti"), Run("ng", "ng"), Sep(" "), Run("in", "in"), Sep(" ")], [Run("Steps", "steps"), Sep(" "), Run("of", "of"), Sep(" "), Run("2", "2"), Sep(", "), Run("3", "3"), Sep(", "), Run("5", "5")], [Sep(" "), Run("and", "and"), Sep(" "), Run("10", "10")]], ["Counting in ", "Steps of 2, 3, 5", " and 10"], ["counting-in", "-steps-of-2-3-5", "-and-10"], [Start, Gap, Word, Word], 0)
  {
    ChunkCountingInStepsOf235And10Part1();
    ChunkCountingInStepsOf235And10Part2();
    ChunkCountingInStepsOf235And10Part3();
  }

  lemma KebabCountingInStepsOf235And10(s: string)
    requires s == "Counting in Steps of 2, 3, 5 and 10"
    ensures ToKebabCase(s) == "counting-in-steps-of-2-3-5-and-10"
  {
    ChunksCountingInStepsOf235And10();
    JoinedCountingInStepsOf235And10();
    JoinedSlugCountingInStepsOf235And10();
    KebabOfChunks(s, "counting-in-steps-of-2-3-5-and-10", [[Run("Counti", "counti"), Run("ng", "ng"), Sep(" "), Run("in", "in"), Sep(" ")], [Run("Steps", "steps"), Sep(" "), Run("of", "of"), Sep(" "), Run("2", "2"), Sep(", "), Run("3", "3"), Sep(", "), Run("5", "5")], [Sep(" "), Run("and", "and"), Sep(" "), Run("10", "10")]], ["Counting in ", "Steps of 2, 3, 5", " and 10"], ["counting-in", "-steps-of-2-3-5", "-and-10"], [Start, Gap, Word, Word]);
  }

  lemma SpellingCountingMoreAndLessPart1()
    ensures "Counting More " == Spelled([Run("Counti", "counti"), Run("ng", "ng"), Sep(" "), Run("More", "more"), Sep(" ")], 0)
  {
  }

  lemma LexedCountingMoreAndLessPart1()
    ensures Lexed([Run("Counti", "counti"), Run("ng", "ng"), Sep(" "), Run("More", "more"), Sep(" ")], 0, Start)
  {
  }

  lemma FinalCountingMoreAndLessPart1()
    ensures Final([Run("Counti", "counti"), Run("ng", "ng"), Sep(" "), Run("More", "more"), Sep(" ")], 0, Start) == Gap
  {
  }

  lemma SlugCountingMoreAndLessPart1()
    ensures Slug([Run("Counti", "counti"), Run("ng", "ng"), Sep(" "), Run("More", "more"), Sep(" ")], 0, Start) == "counting-more"
  {
  }

  lemma ChunkCountingMoreAndLessPart1()
    ensures ChunkOk([Run("Counti", "counti"), Run("ng", "ng"), Sep(" "), Run("More", "more"), Sep(" ")], "Counting More ", "counting-more", Start, Gap)
  {
    SpellingCountingMoreAndLessPart1();
    LexedCountingMoreAndLessPart1();
    FinalCountingMoreAndLessPart1();
    SlugCountingMoreAndLessPart1();
  }

  lemma SpellingCountingMoreAndLessPart2()
    ensures "and Less" == Spelled([Run("and", "and"), Sep(" "), Run("Less", "less")], 0)
  {
  }

  lemma LexedCountingMoreAndLessPart2()
    ensures Lexed([Run("and", "and"), Sep(" "), Run("Less", "less")], 0, Gap)
  {
  }

  lemma FinalCountingMoreAndLessPart2()
    ensures Final([Run("and", "and"), Sep(" "), Run("Less", "less")], 0, Gap) == Word
  {
  }

  lemma SlugCountingMoreAndLessPart2()
    ensures Slug([Run("and", "and"), Sep(" "), Run("Less", "less")], 0, Gap) == "-and-less"
  {
  }

  lemma ChunkCountingMoreAndLessPart2()
    ensures ChunkOk([Run("and", "and"), Sep(" "), Run("Less", "less")], "and Less", "-and-less", Gap, Word)
  {
    SpellingCountingMoreAndLessPart2();
    LexedCountingMoreAndLessPart2();
    FinalCountingMoreAndLessPart2();
    SlugCountingMoreAndLessPart2();
  }

  lemma JoinedCountingMoreAndLess()
    ensures Concat(["Counting More ", "and Less"]) == "Counting More and Less"
  {
  }

  lemma JoinedSlugCountingMoreAndLess()
    ensures Concat(["counting-more", "-and-less"]) == "counting-more-and-less"
  {
  }

  lemma ChunksCountingMoreAndLess()
    ensures ChunksOk([[Run("Counti", "counti"), Run("ng", "ng"), Sep(" "), Run("More", "more"), Sep(" ")], [Run("and", "and"), Sep(" "), Run("Less", "less")]], ["Counting More ", "and Less"], ["counting-more", "-and-less"], [Start, Gap, Word], 0)
  {
    ChunkCountingMoreAndLessPart1();
    ChunkCountingMoreAndLessPart2();
  }

  lemma KebabCountingMoreAndLess(s: string)
    requires s == "Counting More and Less"
    ensures ToKebabCase(s) == "counting-more-and-less"
  {
    ChunksCountingMoreAndLess();
    JoinedCountingMoreAndLess();
    JoinedSlugCountingMoreAndLess();
    KebabOfChunks(s, "counting-more-and-less", [[Run("Counti", "counti"), Run("ng", "ng"), Sep(" "), Run("More", "more"), Sep(" ")], [Run("and", "and"), Sep(" "), Run("Less", "less")]], ["Counting More ", "and Less"], ["counting-more", "-and-less"], [Start, Gap, Word]);
  }

  lemma SpellingPlaceValuePart1()
    ensures "Place Value" == Spelled([Run("Place", "place"), Sep(" "), Run("Value", "value")], 0)
  {
  }

  lemma LexedPlaceValuePart1()
    ensures Lexed([Run("Place", "place"), Sep(" "), Run("Value", "value")], 0, Start)
  {
  }

  lemma FinalPlaceValuePart1()
    ensures Final([Run("Place", "place"), Sep(" "), Run("Value", "value")], 0, Start) == Word
  {
  }

  lemma SlugPlaceValuePart1()
    ensures Slug([Run("Place", "place"), Sep(" "), Run("Value", "value")], 0, Start) == "place-value"
  {
  }

  lemma ChunkPlaceValuePart1()
    ensures ChunkOk([Run("Place", "place"), Sep(" "), Run("Value", "value")], "Place Value", "place-value", Start, Word)
  {
    SpellingPlaceValuePart1();
    LexedPlaceValuePart1();
    FinalPlaceValuePart1();
    SlugPlaceValuePart1();
  }

  lemma JoinedPlaceValue()
    ensures Concat(["Place Value"]) == "Place Value"
  {
  }

  lemma JoinedSlugPlaceValue()
    ensures Concat(["place-value"]) == "place-value"
  {
  }

  lemma ChunksPlaceValue()
    ensures ChunksOk([[Run("Place", "place"), Sep(" "), Run("Value", "value")]], ["Place Value"], ["place-value"], [Start, Word], 0)
  {
    ChunkPlaceValuePart1();
  }

  lemma KebabPlaceValue(s: string)
    requires s == "Place Value"
    ensures ToKebabCase(s) == "place-value"
  {
    ChunksPlaceValue();
    JoinedPlaceValue();
    JoinedSlugPlaceValue();
    KebabOfChunks(s, "place-value", [[Run("Place", "place"), Sep(" "), Run("Value", "value")]], ["Place Value"], ["place-value"], [Start, Word]);
  }

  lemma SpellingLessThanGreaterThanAndEqualToPart1()
    ensures "Less Than, " == Spelled([Run("Less", "less"), Sep(" "), Run("Than", "than"), Sep(", ")], 0)
  {
  }

  lemma LexedLessThanGreaterThanAndEqualToPart1()
    ensures Lexed([Run("Less", "less"), Sep(" "), Run("Than", "than"), Sep(", ")], 0, Start)
  {
  }

  lemma FinalLessThanGreaterThanAndEqualToPart1()
    ensures Final([Run("Less", "less"), Sep(" "), Run("Than", "than"), Sep(", ")], 0, Start) == Gap
  {
  }

  lemma SlugLessThanGreaterThanAndEqualToPart1()
    ensures Slug([Run("Less", "less"), Sep(" "), Run("Than", "than"), Sep(", ")], 0, Start) == "less-than"
  {
  }

  lemma ChunkLessThanGreaterThanAndEqualToPart1()
    ensures ChunkOk([Run("Less", "less"), Sep(" "), Run("Than", "than"), Sep(", ")], "Less Than, ", "less-than", Start, Gap)
  {
    SpellingLessThanGreaterThanAndEqualToPart1();
    LexedLessThanGreaterThanAndEqualToPart1();
    FinalLessThanGreaterThanAndEqualToPart1();
    SlugLessThanGreaterThanAndEqualToPart1();
  }

  lemma SpellingLessThanGreaterThanAndEqualToPart2()
    ensures "Greater Than and" == Spelled([Run("Greate", "greate"), Run("r", "r"), Sep(" "), Run("Than", "than"), Sep(" "), Run("and", "and")], 0)
  {
  }

  lemma LexedLessThanGreaterThanAndEqualToPart2()
    ensures Lexed([Run("Greate", "greate"), Run("r", "r"), Sep(" "), Run("Than", "than"), Sep(" "), Run("and", "and")], 0, Gap)
  {
  }

  lemma FinalLessThanGreaterThanAndEqualToPart2()
    ensures Final([Run("Greate", "greate"), Run("r", "r"), Sep(" "), Run("Than", "than"), Sep(" "), Run("and", "and")], 0, Gap) == Word
  {
  }

  lemma SlugLessThanGreaterThanAndEqualToPart2()
    ensures Slug([Run("Greate", "greate"), Run("r", "r"), Sep(" "), Run("Than", "than"), Sep(" "), Run("and", "and")], 0, Gap) == "-greater-than-and"
  {
  }

  lemma ChunkLessThanGreaterThanAndEqualToPart2()
    ensures ChunkOk([Run("Greate", "greate"), Run("r", "r"), Sep(" "), Run("Than", "than"), Sep(" "), Run("and", "and")], "Greater Than and", "-greater-than-and", Gap, Word)
  {
    SpellingLessThanGreaterThanAndEqualToPart2();
    LexedLessThanGreaterThanAndEqualToPart2();
    FinalLessThanGreaterThanAndEqualToPart2();
    SlugLessThanGreaterThanAndEqualToPart2();
  }

  lemma SpellingLessThanGreaterThanAndEqualToPart3()
    ensures " Equal To" == Spelled([Sep(" "), Run("Equal", "equal"), Sep(" "), Run("To", "to")], 0)
  {
  }

  lemma LexedLessThanGreaterThanAndEqualToPart3()
    ensures Lexed([Sep(" "), Run("Equal", "equal"), Sep(" "), Run("To", "to")], 0, Word)
  {
  }

  lemma FinalLessThanGreaterThanAndEqualToPart3()
    ensures Final([Sep(" "), Run("Equal", "equal"), Sep(" "), Run("To", "to")], 0, Word) == Word
  {
  }

  lemma SlugLessThanGreaterThanAndEqualToPart3()
    ensures Slug([Sep(" "), Run("Equal", "equal"), Sep(" "), Run("To", "to")], 0, Word) == "-equal-to"
  {
  }

  lemma ChunkLessThanGreaterThanAndEqualToPart3()
    ensures ChunkOk([Sep(" "), Run("Equal", "equal"), Sep(" "), Run("To", "to")], " Equal To", "-equal-to", Word, Word)
  {
    SpellingLessThanGreaterThanAndEqualToPart3();
    LexedLessThanGreaterThanAndEqualToPart3();
    FinalLessThanGreaterThanAndEqualToPart3();
    SlugLessThanGreaterThanAndEqualToPart3();
  }

  lemma JoinedLessThanGreaterThanAndEqualToL()
    ensures Concat(["Less Than, "]) == "Less Than, "
  {
  }

  lemma JoinedLessThanGreaterThanAndEqualToR()
    ensures Concat(["Greater Than and", " Equal To"]) == "Greater Than and Equal To"
  {
  }

  lemma JoinedLessThanGreaterThanAndEqualToCut()
    ensures "Less Than, Greater Than and Equal To" == "Less Than, " + "Greater Than and Equal To"
  {
  }

  lemma JoinedLessThanGreaterThanAndEqualToList()
    ensures ["Less Than, ", "Greater Than and", " Equal To"] == ["Less Than, "] + ["Greater Than and", " Equal To"]
  {
  }

  lemma JoinedLessThanGreaterThanAndEqualTo()
    ensures Concat(["Less Than, ", "Greater Than and", " Equal To"]) == "Less Than, Greater Than and Equal To"
  {
    JoinedLessThanGreaterThanAndEqualToL();
    JoinedLessThanGreaterThanAndEqualToR();
    JoinedLessThanGreaterThanAndEqualToCut();
    JoinedLessThanGreaterThanAndEqualToList();
    ConcatAppend(["Less Than, "], ["Greater Than and", " Equal To"]);
  }

  lemma JoinedSlugLessThanGreaterThanAndEqualToL()
    ensures Concat(["less-than"]) == "less-than"
  {
  }

  lemma JoinedSlugLessThanGreaterThanAndEqualToR()
    ensures Concat(["-greater-than-and", "-equal-to"]) == "-greater-than-and-equal-to"
  {
  }

  lemma JoinedSlugLessThanGreaterThanAndEqualToCut()
    ensures "less-than-greater-than-and-equal-to" == "less-than" + "-greater-than-and-equal-to"
  {
  }

  lemma JoinedSlugLessThanGreaterThanAndEqualToList()
    ensures ["less-than", "-greater-than-and", "-equal-to"] == ["less-than"] + ["-greater-than-and", "-equal-to"]
  {
  }

  lemma JoinedSlugLessThanGreaterThanAndEqualTo()
    ensures Concat(["less-than", "-greater-than-and", "-equal-to"]) == "less-than-greater-than-and-equal-to"
  {
    JoinedSlugLessThanGreaterThanAndEqualToL();
    JoinedSlugLessThanGreaterThanAndEqualToR();
    JoinedSlugLessThanGreaterThanAndEqualToCut();
    JoinedSlugLessThanGreaterThanAndEqualToList();
    ConcatAppend(["less-than"], ["-greater-than-and", "-equal-to"]);
  }

  lemma ChunksLessThanGreaterThanAndEqualTo()
    ensures ChunksOk([[Run("Less", "less"), Sep(" "), Run("Than", "than"), Sep(", ")], [Run("Greate", "greate"), Run("r", "r"), Sep(" "), Run("Than", "than"), Sep(" "), Run("and", "and")], [Sep(" "), Run("Equal", "equal"), Sep(" "), Run("To", "to")]], ["Less Than, ", "Greater Than and", " Equal To"], ["less-than", "-greater-than-and", "-equal-to"], [Start, Gap, Word, Word], 0)
  {
    ChunkLessThanGreaterThanAndEqualToPart1();
    ChunkLessThanGreaterThanAndEqualToPart2();
    ChunkLessThanGreaterThanAndEqualToPart3();
  }

  lemma KebabLessThanGreaterThanAndEqualTo(s: string)
    requires s == "Less Than, Greater Than and Equal To"
    ensures ToKebabCase(s) == "less-than-greater-than-and-equal-to"
  {
    ChunksLessThanGreaterThanAndEqualTo();
    JoinedLessThanGreaterThanAndEqualTo();
    JoinedSlugLessThanGreaterThanAndEqualTo();
    KebabOfChunks(s, "less-than-greater-than-and-equal-to", [[Run("Less", "less"), Sep(" "), Run("Than", "than"), Sep(", ")], [Run("Greate", "greate"), Run("r", "r"), Sep(" "), Run("Than", "than"), Sep(" "), Run("and", "and")], [Sep(" "), Run("Equal", "equal"), Sep(" "), Run("To", "to")]], ["Less Than, ", "Greater Than and", " Equal To"], ["less-than", "-greater-than-and", "-equal-to"], [Start, Gap, Word, Word]);
  }

  lemma SpellingNumberAdditionAndSubtractionPart1()
    ensures "Number - Additi" == Spelled([Run("Number", "number"), Sep(" "), Run("-", "-"), Sep(" "), Run("Additi", "additi")], 0)
  {
  }

  lemma LexedNumberAdditionAndSubtractionPart1()
    ensures Lexed([Run("Number", "number"), Sep(" "), Run("-", "-"), Sep(" "), Run("Additi", "additi")], 0, Start)
  {
  }

  lemma FinalNumberAdditionAndSubtractionPart1()
    ensures Final([Run("Number", "number"), Sep(" "), Run("-", "-"), Sep(" "), Run("Additi", "additi")], 0, Start) == Word
  {
  }

  lemma SlugNumberAdditionAndSubtractionPart1()
    ensures Slug([Run("Number", "number"), Sep(" "), Run("-", "-"), Sep(" "), Run("Additi", "additi")], 0, Start) == "number---additi"
  {
  }

  lemma ChunkNumberAdditionAndSubtractionPart1()
    ensures ChunkOk([Run("Number", "number"), Sep(" "), Run("-", "-"), Sep(" "), Run("Additi", "additi")], "Number - Additi", "number---additi", Start, Word)
  {
    SpellingNumberAdditionAndSubtractionPart1();
    LexedNumberAdditionAndSubtractionPart1();
    FinalNumberAdditionAndSubtractionPart1();
    SlugNumberAdditionAndSubtractionPart1();
  }

  lemma SpellingNumberAdditionAndSubtractionPart2()
    ensures "on and Subtra" == Spelled([Run("on", "on"), Sep(" "), Run("and", "and"), Sep(" "), Run("Subtra", "subtra")], 0)
  {
  }

  lemma LexedNumberAdditionAndSubtractionPart2()
    ensures Lexed([Run("on", "on"), Sep(" "), Run("and", "and"), Sep(" "), Run("Subtra", "subtra")], 0, Word)
  {
  }

  lemma FinalNumberAdditionAndSubtractionPart2()
    ensures Final([Run("on", "on"), Sep(" "), Run("and", "and"), Sep(" "), Run("Subtra", "subtra")], 0, Word) == Word
  {
  }

  lemma SlugNumberAdditionAndSubtractionPart2()
    ensures Slug([Run("on", "on"), Sep(" "), Run("and", "and"), Sep(" "), Run("Subtra", "subtra")], 0, Word) == "on-and-subtra"
  {
  }

  lemma ChunkNumberAdditionAndSubtractionPart2()
    ensures ChunkOk([Run("on", "on"), Sep(" "), Run("and", "and"), Sep(" "), Run("Subtra", "subtra")], "on and Subtra", "on-and-subtra", Word, Word)
  {
    SpellingNumberAdditionAndSubtractionPart2();
    LexedNumberAdditionAndSubtractionPart2();
    FinalNumberAdditionAndSubtractionPart2();
    SlugNumberAdditionAndSubtractionPart2();
  }

  lemma SpellingNumberAdditionAndSubtractionPart3()
    ensures "ction" == Spelled([Run("ction", "ction")], 0)
  {
  }

  lemma LexedNumberAdditionAndSubtractionPart3()
    ensures Lexed([Run("ction", "ction")], 0, Word)
  {
  }

  lemma FinalNumberAdditionAndSubtractionPart3()
    ensures Final([Run("ction", "ction")], 0, Word) == Word
  {
  }

  lemma SlugNumberAdditionAndSubtractionPart3()
    ensures Slug([Run("ction", "ction")], 0, Word) == "ction"
  {
  }

  lemma ChunkNumberAdditionAndSubtractionPart3()
    ensures ChunkOk([Run("ction", "ction")], "ction", "ction", Word, Word)
  {
    SpellingNumberAdditionAndSubtractionPart3();
    LexedNumberAdditionAndSubtractionPart3();
    FinalNumberAdditionAndSubtractionPart3();
    SlugNumberAdditionAndSubtractionPart3();
  }

  lemma JoinedNumberAdditionAndSubtractionL()
    ensures Concat(["Number - Additi"]) == "Number - Additi"
  {
  }

  lemma JoinedNumberAdditionAndSubtractionR()
    ensures Concat(["on and Subtra", "ction"]) == "on and Subtraction"
  {
  }

  lemma JoinedNumberAdditionAndSubtractionCut()
    ensures "Number - Addition and Subtraction" == "Number - Additi" + "on and Subtraction"
  {
  }

  lemma JoinedNumberAdditionAndSubtractionList()
    ensures ["Number - Additi", "on and Subtra", "ction"] == ["Number - Additi"] + ["on and Subtra", "ction"]
  {
  }

  lemma JoinedNumberAdditionAndSubtraction()
    ensures Concat(["Number - Additi", "on and Subtra", "ction"]) == "Number - Addition and Subtraction"
  {
    JoinedNumberAdditionAndSubtractionL();
    JoinedNumberAdditionAndSubtractionR();
    JoinedNumberAdditionAndSubtractionCut();
    JoinedNumberAdditionAndSubtractionList();
    ConcatAppend(["Number - Additi"], ["on and Subtra", "ction"]);
  }

  lemma JoinedSlugNumberAdditionAndSubtractionL()
    ensures Concat(["number---additi"]) == "number---additi"
  {
  }

  lemma JoinedSlugNumberAdditionAndSubtractionR()
    ensures Concat(["on-and-subtra", "ction"]) == "on-and-subtraction"
  {
  }

  lemma JoinedSlugNumberAdditionAndSubtractionCut()
    ensures "number---addition-and-subtraction" == "number---additi" + "on-and-subtraction"
  {
  }

  lemma JoinedSlugNumberAdditionAndSubtractionList()
    ensures ["number---additi", "on-and-subtra", "ction"] == ["number---additi"] + ["on-and-subtra", "ction"]
  {
  }

  lemma JoinedSlugNumberAdditionAndSubtraction()
    ensures Concat(["number---additi", "on-and-subtra", "ction"]) == "number---addition-and-subtraction"
  {
    JoinedSlugNumberAdditionAndSubtractionL();
    JoinedSlugNumberAdditionAndSubtractionR();
    JoinedSlugNumberAdditionAndSubtractionCut();
    JoinedSlugNumberAdditionAndSubtractionList();
    ConcatAppend(["number---additi"], ["on-and-subtra", "ction"]);
  }

  lemma ChunksNumberAdditionAndSubtraction()
    ensures ChunksOk([[Run("Number", "number"), Sep(" "), Run("-", "-"), Sep(" "), Run("Additi", "additi")], [Run("on", "on"), Sep(" "), Run("and", "and"), Sep(" "), Run("Subtra", "subtra")], [Run("ction", "ction")]], ["Number - Additi", "on and Subtra", "ction"], ["number---additi", "on-and-subtra", "ction"], [Start, Word, Word, Word], 0)
  {
    ChunkNumberAdditionAndSubtractionPart1();
    ChunkNumberAdditionAndSubtractionPart2();
    ChunkNumberAdditionAndSubtractionPart3();
  }

  lemma KebabNumberAdditionAndSubtraction(s: string)
    requires s == "Number - Addition and Subtraction"
    ensures ToKebabCase(s) == "number---addition-and-subtraction"
  {
    ChunksNumberAdditionAndSubtraction();
    JoinedNumberAdditionAndSubtraction();
    JoinedSlugNumberAdditionAndSubtraction();
    KebabOfChunks(s, "number---addition-and-subtraction", [[Run("Number", "number"), Sep(" "), Run("-", "-"), Sep(" "), Run("Additi", "additi")], [Run("on", "on"), Sep(" "), Run("and", "and"), Sep(" "), Run("Subtra", "subtra")], [Run("ction", "ction")]], ["Number - Additi", "on and Subtra", "ction"], ["number---additi", "on-and-subtra", "ction"], [Start, Word, Word, Word]);
  }

  lemma SpellingDoublingAndHalvingUsingAdditionAndSubtractionPart1()
    ensures "Doubling and " == Spelled([Run("Doubli", "doubli"), Run("ng", "ng"), Sep(" "), Run("and", "and"), Sep(" ")], 0)
  {
  }

  lemma LexedDoublingAndHalvingUsingAdditionAndSubtractionPart1()
    ensures Lexed([Run("Doubli", "doubli"), Run("ng", "ng"), Sep(" "), Run("and", "and"), Sep(" ")], 0, Start)
  {
  }

  lemma FinalDoublingAndHalvingUsingAdditionAndSubtractionPart1()
    ensures Final([Run("Doubli", "doubli"), Run("ng", "ng"), Sep(" "), Run("and", "and"), Sep(" ")], 0, Start) == Gap
  {
  }

  lemma SlugDoublingAndHalvingUsingAdditionAndSubtractionPart1()
    ensures Slug([Run("Doubli", "doubli"), Run("ng", "ng"), Sep(" "), Run("and", "and"), Sep(" ")], 0, Start) == "doubling-and"
  {
  }

  lemma ChunkDoublingAndHalvingUsingAdditionAndSubtractionPart1()
    ensures ChunkOk([Run("Doubli", "doubli"), Run("ng", "ng"), Sep(" "), Run("and", "and"), Sep(" ")], "Doubling and ", "doubling-and", Start, Gap)
  {
    SpellingDoublingAndHalvingUsingAdditionAndSubtractionPart1();
    LexedDoublingAndHalvingUsingAdditionAndSubtractionPart1();
    FinalDoublingAndHalvingUsingAdditionAndSubtractionPart1();
    SlugDoublingAndHalvingUsingAdditionAndSubtractionPart1();
  }

  lemma SpellingDoublingAndHalvingUsingAdditionAndSubtractionPart2()
    ensures "Halving using " == Spelled([Run("Halvin", "halvin"), Run("g", "g"), Sep(" "), Run("using", "using"), Sep(" ")], 0)
  {
  }

  lemma LexedDoublingAndHalvingUsingAdditionAndSubtractionPart2()
    ensures Lexed([Run("Halvin", "halvin"), Run("g", "g"), Sep(" "), Run("using", "using"), Sep(" ")], 0, Gap)
  {
  }

  lemma FinalDoublingAndHalvingUsingAdditionAndSubtractionPart2()
    ensures Final([Run("Halvin", "halvin"), Run("g", "g"), Sep(" "), Run("using", "using"), Sep(" ")], 0, Gap) == Gap
  {
  }

  lemma SlugDoublingAndHalvingUsingAdditionAndSubtractionPart2()
    ensures Slug([Run("Halvin", "halvin"), Run("g", "g"), Sep(" "), Run("using", "using"), Sep(" ")], 0, Gap) == "-halving-using"
  {
  }

  lemma ChunkDoublingAndHalvingUsingAdditionAndSubtractionPart2()
    ensures ChunkOk([Run("Halvin", "halvin"), Run("g", "g"), Sep(" "), Run("using", "using"), Sep(" ")], "Halving using ", "-halving-using", Gap, Gap)
  {
    SpellingDoublingAndHalvingUsingAdditionAndSubtractionPart2();
    LexedDoublingAndHalvingUsingAdditionAndSubtractionPart2();
    FinalDoublingAndHalvingUsingAdditionAndSubtractionPart2();
    SlugDoublingAndHalvingUsingAdditionAndSubtractionPart2();
  }

  lemma SpellingDoublingAndHalvingUsingAdditionAndSubtractionPart3()
    ensures "Addition and " == Spelled([Run("Additi", "additi"), Run("on", "on"), Sep(" "), Run("and", "and"), Sep(" ")], 0)
  {
  }

  lemma LexedDoublingAndHalvingUsingAdditionAndSubtractionPart3()
    ensures Lexed([Run("Additi", "additi"), Run("on", "on"), Sep(" "), Run("and", "and"), Sep(" ")], 0, Gap)
  {
  }

  lemma FinalDoublingAndHalvingUsingAdditionAndSubtractionPart3()
    ensures Final([Run("Additi", "additi"), Run("on", "on"), Sep(" "), Run("and", "and"), Sep(" ")], 0, Gap) == Gap
  {
  }

  lemma SlugDoublingAndHalvingUsingAdditionAndSubtractionPart3()
    ensures Slug([Run("Additi", "additi"), Run("on", "on"), Sep(" "), Run("and", "and"), Sep(" ")], 0, Gap) == "-addition-and"
  {
  }

  lemma ChunkDoublingAndHalvingUsingAdditionAndSubtractionPart3()
    ensures ChunkOk([Run("Additi", "additi"), Run("on", "on"), Sep(" "), Run("and", "and"), Sep(" ")], "Addition and ", "-addition-and", Gap, Gap)
  {
    SpellingDoublingAndHalvingUsingAdditionAndSubtractionPart3();
    LexedDoublingAndHalvingUsingAdditionAndSubtractionPart3();
    FinalDoublingAndHalvingUsingAdditionAndSubtractionPart3();
    SlugDoublingAndHalvingUsingAdditionAndSubtractionPart3();
  }

  lemma SpellingDoublingAndHalvingUsingAdditionAndSubtractionPart4()
    ensures "Subtraction" == Spelled([Run("Subtra", "subtra"), Run("ction", "ction")], 0)
  {
  }

  lemma LexedDoublingAndHalvingUsingAdditionAndSubtractionPart4()
    ensures Lexed([Run("Subtra", "subtra"), Run("ction", "ction")], 0, Gap)
  {
  }

  lemma FinalDoublingAndHalvingUsingAdditionAndSubtractionPart4()
    ensures Final([Run("Subtra", "subtra"), Run("ction", "ction")], 0, Gap) == Word
  {
  }

  lemma SlugDoublingAndHalvingUsingAdditionAndSubtractionPart4()
    ensures Slug([Run("Subtra", "subtra"), Run("ction", "ction")], 0, Gap) == "-subtraction"
  {
  }

  lemma ChunkDoublingAndHalvingUsingAdditionAndSubtractionPart4()
    ensures ChunkOk([Run("Subtra", "subtra"), Run("ction", "ction")], "Subtraction", "-subtraction", Gap, Word)
  {
    SpellingDoublingAndHalvingUsingAdditionAndSubtractionPart4();
    LexedDoublingAndHalvingUsingAdditionAndSubtractionPart4();
    FinalDoublingAndHalvingUsingAdditionAndSubtractionPart4();
    SlugDoublingAndHalvingUsingAdditionAndSubtractionPart4();
  }

  lemma JoinedDoublingAndHalvingUsingAdditionAndSubtractionL()
    ensures Concat(["Doubling and ", "Halving using "]) == "Doubling and Halving using "
  {
  }

  lemma JoinedDoublingAndHalvingUsingAdditionAndSubtractionR()
    ensures Concat(["Addition and ", "Subtraction"]) == "Addition and Subtraction"
  {
  }

  lemma JoinedDoublingAndHalvingUsingAdditionAndSubtractionCut()
    ensures "Doubling and Halving using Addition and Subtraction" == "Doubling and Halving using " + "Addition and Subtraction"
  {
  }

  lemma JoinedDoublingAndHalvingUsingAdditionAndSubtractionList()
    ensures ["Doubling and ", "Halving using ", "Addition and ", "Subtraction"] == ["Doubling and ", "Halving using "] + ["Addition and ", "Subtraction"]
  {
  }

  lemma JoinedDoublingAndHalvingUsingAdditionAndSubtraction()
    ensures Concat(["Doubling and ", "Halving using ", "Addition and ", "Subtraction"]) == "Doubling and Halving using Addition and Subtraction"
  {
    JoinedDoublingAndHalvingUsingAdditionAndSubtractionL();
    JoinedDoublingAndHalvingUsingAdditionAndSubtractionR();
    JoinedDoublingAndHalvingUsingAdditionAndSubtractionCut();
    JoinedDoublingAndHalvingUsingAdditionAndSubtractionList();
    ConcatAppend(["Doubling and ", "Halving using "], ["Addition and ", "Subtraction"]);
  }

  lemma JoinedSlugDoublingAndHalvingUsingAdditionAndSubtractionL()
    ensures Concat(["doubling-and", "-halving-using"]) == "doubling-and-halving-using"
  {
  }

  lemma JoinedSlugDoublingAndHalvingUsingAdditionAndSubtractionR()
    ensures Concat(["-addition-and", "-subtraction"]) == "-addition-and-subtraction"
  {
  }

  lemma JoinedSlugDoublingAndHalvingUsingAdditionAndSubtractionCut()
    ensures "doubling-and-halving-using-addition-and-subtraction" == "doubling-and-halving-using" + "-addition-and-subtraction"
  {
  }

  lemma JoinedSlugDoublingAndHalvingUsingAdditionAndSubtractionList()
    ensures ["doubling-and", "-halving-using", "-addition-and", "-subtraction"] == ["doubling-and", "-halving-using"] + ["-addition-and", "-subtraction"]
  {
  }

  lemma JoinedSlugDoublingAndHalvingUsingAdditionAndSubtraction()
    ensures Concat(["doubling-and", "-halving-using", "-addition-and", "-subtraction"]) == "doubling-and-halving-using-addition-and-subtraction"
  {
    JoinedSlugDoublingAndHalvingUsingAdditionAndSubtractionL();
    JoinedSlugDoublingAndHalvingUsingAdditionAndSubtractionR();
    JoinedSlugDoublingAndHalvingUsingAdditionAndSubtractionCut();
    JoinedSlugDoublingAndHalvingUsingAdditionAndSubtractionList();
    ConcatAppend(["doubling-and", "-halving-using"], ["-addition-and", "-subtraction"]);
  }

  lemma ChunksDoublingAndHalvingUsingAdditionAndSubtraction()
    ensures ChunksOk([[Run("Doubli", "doubli"), Run("ng", "ng"), Sep(" "), Run("and", "and"), Sep(" ")], [Run("Halvin", "halvin"), Run("g", "g"), Sep(" "), Run("using", "using"), Sep(" ")], [Run("Additi", "additi"), Run("on", "on"), Sep(" "), Run("and", "and"), Sep(" ")], [Run("Subtra", "subtra"), Run("ction", "ction")]], ["Doubling and ", "Halving using ", "Addition and ", "Subtraction"], ["doubling-and", "-halving-using", "-addition-and", "-subtraction"], [Start, Gap, Gap, Gap, Word], 0)
  {
    ChunkDoublingAndHalvingUsingAdditionAndSubtractionPart1();
    ChunkDoublingAndHalvingUsingAdditionAndSubtractionPart2();
    ChunkDoublingAndHalvingUsingAdditionAndSubtractionPart3();
    ChunkDoublingAndHalvingUsingAdditionAndSubtractionPart4();
  }

  lemma KebabDoublingAndHalvingUsingAdditionAndSubtraction(s: string)
    requires s == "Doubling and Halving using Addition and Subtraction"
    ensures ToKebabCase(s) == "doubling-and-halving-using-addition-and-subtraction"
  {
    ChunksDoublingAndHalvingUsingAdditionAndSubtraction();
    JoinedDoublingAndHalvingUsingAdditionAndSubtraction();
    JoinedSlugDoublingAndHalvingUsingAdditionAndSubtraction();
    KebabOfChunks(s, "doubling-and-halving-using-addition-and-subtraction", [[Run("Doubli", "doubli"), Run("ng", "ng"), Sep(" "), Run("and", "and"), Sep(" ")], [Run("Halvin", "halvin"), Run("g", "g"), Sep(" "), Run("using", "using"), Sep(" ")], [Run("Additi", "additi"), Run("on", "on"), Sep(" "), Run("and", "and"), Sep(" ")], [Run("Subtra", "subtra"), Run("ction", "ction")]], ["Doubling and ", "Halving using ", "Addition and ", "Subtraction"], ["doubling-and", "-halving-using", "-addition-and", "-subtraction"], [Start, Gap, Gap, Gap, Word]);
  }

  lemma SpellingSolvingNumberProblemsPart1()
    ensures "Solving Number " == Spelled([Run("Solvin", "solvin"), Run("g", "g"), Sep(" "), Run("Number", "number"), Sep(" ")], 0)
  {
  }

  lemma LexedSolvingNumberProblemsPart1()
    ensures Lexed([Run("Solvin", "solvin"), Run("g", "g"), Sep(" "), Run("Number", "number"), Sep(" ")], 0, Start)
  {
  }

  lemma FinalSolvingNumberProblemsPart1()
    ensures Final([Run("Solvin", "solvin"), Run("g", "g"), Sep(" "), Run("Number", "number"), Sep(" ")], 0, Start) == Gap
  {
  }

  lemma SlugSolvingNumberProblemsPart1()
    ensures Slug([Run("Solvin", "solvin"), Run("g", "g"), Sep(" "), Run("Number", "number"), Sep(" ")], 0, Start) == "solving-number"
  {
  }

  lemma ChunkSolvingNumberProblemsPart1()
    ensures ChunkOk([Run("Solvin", "solvin"), Run("g", "g"), Sep(" "), Run("Number", "number"), Sep(" ")], "Solving Number ", "solving-number", Start, Gap)
  {
    SpellingSolvingNumberProblemsPart1();
    LexedSolvingNumberProblemsPart1();
    FinalSolvingNumberProblemsPart1();
    SlugSolvingNumberProblemsPart1();
  }

  lemma SpellingSolvingNumberProblemsPart2()
    ensures "Problems" == Spelled([Run("Proble", "proble"), Run("ms", "ms")], 0)
  {
  }

  lemma LexedSolvingNumberProblemsPart2()
    ensures Lexed([Run("Proble", "proble"), Run("ms", "ms")], 0, Gap)
  {
  }

  lemma FinalSolvingNumberProblemsPart2()
    ensures Final([Run("Proble", "proble"), Run("ms", "ms")], 0, Gap) == Word
  {
  }

  lemma SlugSolvingNumberProblemsPart2()
    ensures Slug([Run("Proble", "proble"), Run("ms", "ms")], 0, Gap) == "-problems"
  {
  }

  lemma ChunkSolvingNumberProblemsPart2()
    ensures ChunkOk([Run("Proble", "proble"), Run("ms", "ms")], "Problems", "-problems", Gap, Word)
  {
    SpellingSolvingNumberProblemsPart2();
    LexedSolvingNumberProblemsPart2();
    FinalSolvingNumberProblemsPart2();
    SlugSolvingNumberProblemsPart2();
  }

  lemma JoinedSolvingNumberProblems()
    ensures Concat(["Solving Number ", "Problems"]) == "Solving Number Problems"
  {
  }

  lemma JoinedSlugSolvingNumberProblems()
    ensures Concat(["solving-number", "-problems"]) == "solving-number-problems"
  {
  }

  lemma ChunksSolvingNumberProblems()
    ensures ChunksOk([[Run("Solvin", "solvin"), Run("g", "g"), Sep(" "), Run("Number", "number"), Sep(" ")], [Run("Proble", "proble"), Run("ms", "ms")]], ["Solving Number ", "Problems"], ["solving-number", "-problems"], [Start, Gap, Word], 0)
  {
    ChunkSolvingNumberProblemsPart1();
    ChunkSolvingNumberProblemsPart2();
  }

  lemma KebabSolvingNumberProblems(s: string)
    requires s == "Solving Number Problems"
    ensures ToKebabCase(s) == "solving-number-problems"
  {
    ChunksSolvingNumberProblems();
    JoinedSolvingNumberProblems();
    JoinedSlugSolvingNumberProblems();
    KebabOfChunks(s, "solving-number-problems", [[Run("Solvin", "solvin"), Run("g", "g"), Sep(" "), Run("Number", "number"), Sep(" ")], [Run("Proble", "proble"), Run("ms", "ms")]], ["Solving Number ", "Problems"], ["solving-number", "-problems"], [Start, Gap, Word]);
  }

  lemma SpellingUsingTwoDigitNumbersPart1()
    ensures "Using Two-Digit " == Spelled([Run("Using", "using"), Sep(" "), Run("Two-Di", "two-di"), Run("git", "git"), Sep(" ")], 0)
  {
  }

  lemma LexedUsingTwoDigitNumbersPart1()
    ensures Lexed([Run("Using", "using"), Sep(" "), Run("Two-Di", "two-di"), Run("git", "git"), Sep(" ")], 0, Start)
  {
  }

  lemma FinalUsingTwoDigitNumbersPart1()
    ensures Final([Run("Using", "using"), Sep(" "), Run("Two-Di", "two-di"), Run("git", "git"), Sep(" ")], 0, Start) == Gap
  {
  }

  lemma SlugUsingTwoDigitNumbersPart1()
    ensures Slug([Run("Using", "using"), Sep(" "), Run("Two-Di", "two-di"), Run("git", "git"), Sep(" ")], 0, Start) == "using-two-digit"
  {
  }

  lemma ChunkUsingTwoDigitNumbersPart1()
    ensures ChunkOk([Run("Using", "using"), Sep(" "), Run("Two-Di", "two-di"), Run("git", "git"), Sep(" ")], "Using Two-Digit ", "using-two-digit", Start, Gap)
  {
    SpellingUsingTwoDigitNumbersPart1();
    LexedUsingTwoDigitNumbersPart1();
    FinalUsingTwoDigitNumbersPart1();
    SlugUsingTwoDigitNumbersPart1();
  }

  lemma SpellingUsingTwoDigitNumbersPart2()
    ensures "Numbers" == Spelled([Run("Number", "number"), Run("s", "s")], 0)
  {
  }

  lemma LexedUsingTwoDigitNumbersPart2()
    ensures Lexed([Run("Number", "number"), Run("s", "s")], 0, Gap)
  {
  }

  lemma FinalUsingTwoDigitNumbersPart2()
    ensures Final([Run("Number", "number"), Run("s", "s")], 0, Gap) == Word
  {
  }

  lemma SlugUsingTwoDigitNumbersPart2()
    ensures Slug([Run("Number", "number"), Run("s", "s")], 0, Gap) == "-numbers"
  {
  }

  lemma ChunkUsingTwoDigitNumbersPart2()
    ensures ChunkOk([Run("Number", "number"), Run("s", "s")], "Numbers", "-numbers", Gap, Word)
  {
    SpellingUsingTwoDigitNumbersPart2();
    LexedUsingTwoDigitNumbersPart2();
    FinalUsingTwoDigitNumbersPart2();
    SlugUsingTwoDigitNumbersPart2();
  }

  lemma JoinedUsingTwoDigitNumbers()
    ensures Concat(["Using Two-Digit ", "Numbers"]) == "Using Two-Digit Numbers"
  {
  }

  lemma JoinedSlugUsingTwoDigitNumbers()
    ensures Concat(["using-two-digit", "-numbers"]) == "using-two-digit-numbers"
  {
  }

  lemma ChunksUsingTwoDigitNumbers()
    ensures ChunksOk([[Run("Using", "using"), Sep(" "), Run("Two-Di", "two-di"), Run("git", "git"), Sep(" ")], [Run("Number", "number"), Run("s", "s")]], ["Using Two-Digit ", "Numbers"], ["using-two-digit", "-numbers"], [Start, Gap, Word], 0)
  {
    ChunkUsingTwoDigitNumbersPart1();
    ChunkUsingTwoDigitNumbersPart2();
  }

  lemma KebabUsingTwoDigitNumbers(s: string)
    requires s == "Using Two-Digit Numbers"
    ensures ToKebabCase(s) == "using-two-digit-numbers"
  {
    ChunksUsingTwoDigitNumbers();
    JoinedUsingTwoDigitNumbers();
    JoinedSlugUsingTwoDigitNumbers();
    KebabOfChunks(s, "using-two-digit-numbers", [[Run("Using", "using"), Sep(" "), Run("Two-Di", "two-di"), Run("git", "git"), Sep(" ")], [Run("Number", "number"), Run("s", "s")]], ["Using Two-Digit ", "Numbers"], ["using-two-digit", "-numbers"], [Start, Gap, Word]);
  }

  lemma SpellingSolvingMissingNumberProblemsPart1()
    ensures "Solving Missing " == Spelled([Run("Solvin", "solvin"), Run("g", "g"), Sep(" "), Run("Missin", "missin"), Run("g", "g"), Sep(" ")], 0)
  {
  }

  lemma LexedSolvingMissingNumberProblemsPart1()
    ensures Lexed([Run("Solvin", "solvin"), Run("g", "g"), Sep(" "), Run("Missin", "missin"), Run("g", "g"), Sep(" ")], 0, Start)
  {
  }

  lemma FinalSolvingMissingNumberProblemsPart1()
    ensures Final([Run("Solvin", "solvin"), Run("g", "g"), Sep(" "), Run("Missin", "missin"), Run("g", "g"), Sep(" ")], 0, Start) == Gap
  {
  }

  lemma SlugSolvingMissingNumberProblemsPart1()
    ensures Slug([Run("Solvin", "solvin"), Run("g", "g"), Sep(" "), Run("Missin", "missin"), Run("g", "g"), Sep(" ")], 0, Start) == "solving-missing"
  {
  }

  lemma ChunkSolvingMissingNumberProblemsPart1()
    ensures ChunkOk([Run("Solvin", "solvin"), Run("g", "g"), Sep(" "), Run("Missin", "missin"), Run("g", "g"), Sep(" ")], "Solving Missing ", "solving-missing", Start, Gap)
  {
    SpellingSolvingMissingNumberProblemsPart1();
    LexedSolvingMissingNumberProblemsPart1();
    FinalSolvingMissingNumberProblemsPart1();
    SlugSolvingMissingNumberProblemsPart1();
  }

  lemma SpellingSolvingMissingNumberProblemsPart2()
    ensures "Number Problems" == Spelled([Run("Number", "number"), Sep(" "), Run("Proble", "proble"), Run("ms", "ms")], 0)
  {
  }

  lemma LexedSolvingMissingNumberProblemsPart2()
    ensures Lexed([Run("Number", "number"), Sep(" "), Run("Proble", "proble"), Run("ms", "ms")], 0, Gap)
  {
  }

  lemma FinalSolvingMissingNumberProblemsPart2()
    ensures Final([Run("Number", "number"), Sep(" "), Run("Proble", "proble"), Run("ms", "ms")], 0, Gap) == Word
  {
  }

  lemma SlugSolvingMissingNumberProblemsPart2()
    ensures Slug([Run("Number", "number"), Sep(" "), Run("Proble", "proble"), Run("ms", "ms")], 0, Gap) == "-number-problems"
  {
  }

  lemma ChunkSolvingMissingNumberProblemsPart2()
    ensures ChunkOk([Run("Number", "number"), Sep(" "), Run("Proble", "proble"), Run("ms", "ms")], "Number Problems", "-number-problems", Gap, Word)
  {
    SpellingSolvingMissingNumberProblemsPart2();
    LexedSolvingMissingNumberProblemsPart2();
    FinalSolvingMissingNumberProblemsPart2();
    SlugSolvingMissingNumberProblemsPart2();
  }

  lemma JoinedSolvingMissingNumberProblems()
    ensures Concat(["Solving Missing ", "Number Problems"]) == "Solving Missing Number Problems"
  {
  }

  lemma JoinedSlugSolvingMissingNumberProblems()
    ensures Concat(["solving-missing", "-number-problems"]) == "solving-missing-number-problems"
  {
  }

  lemma ChunksSolvingMissingNumberProblems()
    ensures ChunksOk([[Run("Solvin", "solvin"), Run("g", "g"), Sep(" "), Run("Missin", "missin"), Run("g", "g"), Sep(" ")], [Run("Number", "number"), Sep(" "), Run("Proble", "proble"), Run("ms", "ms")]], ["Solving Missing ", "Number Problems"], ["solving-missing", "-number-problems"], [Start, Gap, Word], 0)
  {
    ChunkSolvingMissingNumberProblemsPart1();
    ChunkSolvingMissingNumberProblemsPart2();
  }

  lemma KebabSolvingMissingNumberProblems(s: string)
    requires s == "Solving Missing Number Problems"
    ensures ToKebabCase(s) == "solving-missing-number-problems"
  {
    ChunksSolvingMissingNumberProblems();
    JoinedSolvingMissingNumberProblems();
    JoinedSlugSolvingMissingNumberProblems();
    KebabOfChunks(s, "solving-missing-number-problems", [[Run("Solvin", "solvin"), Run("g", "g"), Sep(" "), Run("Missin", "missin"), Run("g", "g"), Sep(" ")], [Run("Number", "number"), Sep(" "), Run("Proble", "proble"), Run("ms", "ms")]], ["Solving Missing ", "Number Problems"], ["solving-missing", "-number-problems"], [Start, Gap, Word]);
  }

  lemma SpellingNumberMultiplicationAndDivisionPart1()
    ensures "Number - Multip" == Spelled([Run("Number", "number"), Sep(" "), Run("-", "-"), Sep(" "), Run("Multip", "multip")], 0)
  {
  }

  lemma LexedNumberMultiplicationAndDivisionPart1()
    ensures Lexed([Run("Number", "number"), Sep(" "), Run("-", "-"), Sep(" "), Run("Multip", "multip")], 0, Start)
  {
  }

  lemma FinalNumberMultiplicationAndDivisionPart1()
    ensures Final([Run("Number", "number"), Sep(" "), Run("-", "-"), Sep(" "), Run("Multip", "multip")], 0, Start) == Word
  {
  }

  lemma SlugNumberMultiplicationAndDivisionPart1()
    ensures Slug([Run("Number", "number"), Sep(" "), Run("-", "-"), Sep(" "), Run("Multip", "multip")], 0, Start) == "number---multip"
  {
  }

  lemma ChunkNumberMultiplicationAndDivisionPart1()
    ensures ChunkOk([Run("Number", "number"), Sep(" "), Run("-", "-"), Sep(" "), Run("Multip", "multip")], "Number - Multip", "number---multip", Start, Word)
  {
    SpellingNumberMultiplicationAndDivisionPart1();
    LexedNumberMultiplicationAndDivisionPart1();
    FinalNumberMultiplicationAndDivisionPart1();
    SlugNumberMultiplicationAndDivisionPart1();
  }

  lemma SpellingNumberMultiplicationAndDivisionPart2()
    ensures "lication and " == Spelled([Run("licati", "licati"), Run("on", "on"), Sep(" "), Run("and", "and"), Sep(" ")], 0)
  {
  }

  lemma LexedNumberMultiplicationAndDivisionPart2()
    ensures Lexed([Run("licati", "licati"), Run("on", "on"), Sep(" "), Run("and", "and"), Sep(" ")], 0, Word)
  {
  }

  lemma FinalNumberMultiplicationAndDivisionPart2()
    ensures Final([Run("licati", "licati"), Run("on", "on"), Sep(" "), Run("and", "and"), Sep(" ")], 0, Word) == Gap
  {
  }

  lemma SlugNumberMultiplicationAndDivisionPart2()
    ensures Slug([Run("licati", "licati"), Run("on", "on"), Sep(" "), Run("and", "and"), Sep(" ")], 0, Word) == "lication-and"
  {
  }

  lemma ChunkNumberMultiplicationAndDivisionPart2()
    ensures ChunkOk([Run("licati", "licati"), Run("on", "on"), Sep(" "), Run("and", "and"), Sep(" ")], "lication and ", "lication-and", Word, Gap)
  {
    SpellingNumberMultiplicationAndDivisionPart2();
    LexedNumberMultiplicationAndDivisionPart2();
    FinalNumberMultiplicationAndDivisionPart2();
    SlugNumberMultiplicationAndDivisionPart2();
  }

  lemma SpellingNumberMultiplicationAndDivisionPart3()
    ensures "Division" == Spelled([Run("Divisi", "divisi"), Run("on", "on")], 0)
  {
  }

  lemma LexedNumberMultiplicationAndDivisionPart3()
    ensures Lexed([Run("Divisi", "divisi"), Run("on", "on")], 0, Gap)
  {
  }

  lemma FinalNumberMultiplicationAndDivisionPart3()
    ensures Final([Run("Divisi", "divisi"), Run("on", "on")], 0, Gap) == Word
  {
  }

  lemma SlugNumberMultiplicationAndDivisionPart3()
    ensures Slug([Run("Divisi", "divisi"), Run("on", "on")], 0, Gap) == "-division"
  {
  }

  lemma ChunkNumberMultiplicationAndDivisionPart3()
    ensures ChunkOk([Run("Divisi", "divisi"), Run("on", "on")], "Division", "-division", Gap, Word)
  {
    SpellingNumberMultiplicationAndDivisionPart3();
    LexedNumberMultiplicationAndDivisionPart3();
    FinalNumberMultiplicationAndDivisionPart3();
    SlugNumberMultiplicationAndDivisionPart3();
  }

  lemma JoinedNumberMultiplicationAndDivisionL()
    ensures Concat(["Number - Multip"]) == "Number - Multip"
  {
  }

  lemma JoinedNumberMultiplicationAndDivisionR()
    ensures Concat(["lication and ", "Division"]) == "lication and Division"
  {
  }

  lemma JoinedNumberMultiplicationAndDivisionCut()
    ensures "Number - Multiplication and Division" == "Number - Multip" + "lication and Division"
  {
  }

  lemma JoinedNumberMultiplicationAndDivisionList()
    ensures ["Number - Multip", "lication and ", "Division"] == ["Number - Multip"] + ["lication and ", "Division"]
  {
  }

  lemma JoinedNumberMultiplicationAndDivision()
    ensures Concat(["Number - Multip", "lication and ", "Division"]) == "Number - Multiplication and Division"
  {
    JoinedNumberMultiplicationAndDivisionL();
    JoinedNumberMultiplicationAndDivisionR();
    JoinedNumberMultiplicationAndDivisionCut();
    JoinedNumberMultiplicationAndDivisionList();
    ConcatAppend(["Number - Multip"], ["lication and ", "Division"]);
  }

  lemma JoinedSlugNumberMultiplicationAndDivisionL()
    ensures Concat(["number---multip"]) == "number---multip"
  {
  }

  lemma JoinedSlugNumberMultiplicationAndDivisionR()
    ensures Concat(["lication-and", "-division"]) == "lication-and-division"
  {
  }

  lemma JoinedSlugNumberMultiplicationAndDivisionCut()
    ensures "number---multiplication-and-division" == "number---multip" + "lication-and-division"
  {
  }

  lemma JoinedSlugNumberMultiplicationAndDivisionList()
    ensures ["number---multip", "lication-and", "-division"] == ["number---multip"] + ["lication-and", "-division"]
  {
  }

  lemma JoinedSlugNumberMultiplicationAndDivision()
    ensures Concat(["number---multip", "lication-and", "-division"]) == "number---multiplication-and-division"
  {
    JoinedSlugNumberMultiplicationAndDivisionL();
    JoinedSlugNumberMultiplicationAndDivisionR();
    JoinedSlugNumberMultiplicationAndDivisionCut();
    JoinedSlugNumberMultiplicationAndDivisionList();
    ConcatAppend(["number---multip"], ["lication-and", "-division"]);
  }

  lemma ChunksNumberMultiplicationAndDivision()
    ensures ChunksOk([[Run("Number", "number"), Sep(" "), Run("-", "-"), Sep(" "), Run("Multip", "multip")], [Run("licati", "licati"), Run("on", "on"), Sep(" "), Run("and", "and"), Sep(" ")], [Run("Divisi", "divisi"), Run("on", "on")]], ["Number - Multip", "lication and ", "Division"], ["number---multip", "lication-and", "-division"], [Start, Word, Gap, Word], 0)
  {
    ChunkNumberMultiplicationAndDivisionPart1();
    ChunkNumberMultiplicationAndDivisionPart2();
    ChunkNumberMultiplicationAndDivisionPart3();
  }

  lemma KebabNumberMultiplicationAndDivision(s: string)
    requires s == "Number - Multiplication and Division"
    ensures ToKebabCase(s) == "number---multiplication-and-division"
  {
    ChunksNumberMultiplicationAndDivision();
    JoinedNumberMultiplicationAndDivision();
    JoinedSlugNumberMultiplicationAndDivision();
    KebabOfChunks(s, "number---multiplication-and-division", [[Run("Number", "number"), Sep(" "), Run("-", "-"), Sep(" "), Run("Multip", "multip")], [Run("licati", "licati"), Run("on", "on"), Sep(" "), Run("and", "and"), Sep(" ")], [Run("Divisi", "divisi"), Run("on", "on")]], ["Number - Multip", "lication and ", "Division"], ["number---multip", "lication-and", "-division"], [Start, Word, Gap, Word]);
  }

  lemma SpellingWhatIsMultiplicationPart1()
    ensures "What is Multip" == Spelled([Run("What", "what"), Sep(" "), Run("is", "is"), Sep(" "), Run("Multip", "multip")], 0)
  {
  }

  lemma LexedWhatIsMultiplicationPart1()
    ensures Lexed([Run("What", "what"), Sep(" "), Run("is", "is"), Sep(" "), Run("Multip", "multip")], 0, Start)
  {
  }

  lemma FinalWhatIsMultiplicationPart1()
    ensures Final([Run("What", "what"), Sep(" "), Run("is", "is"), Sep(" "), Run("Multip", "multip")], 0, Start) == Word
  {
  }

  lemma SlugWhatIsMultiplicationPart1()
    ensures Slug([Run("What", "what"), Sep(" "), Run("is", "is"), Sep(" "), Run("Multip", "multip")], 0, Start) == "what-is-multip"
  {
  }

  lemma ChunkWhatIsMultiplicationPart1()
    ensures ChunkOk([Run("What", "what"), Sep(" "), Run("is", "is"), Sep(" "), Run("Multip", "multip")], "What is Multip", "what-is-multip", Start, Word)
  {
    SpellingWhatIsMultiplicationPart1();
    LexedWhatIsMultiplicationPart1();
    FinalWhatIsMultiplicationPart1();
    SlugWhatIsMultiplicationPart1();
  }

  lemma SpellingWhatIsMultiplicationPart2()
    ensures "lication?" == Spelled([Run("licati", "licati"), Run("on", "on"), Sep("?")], 0)
  {
  }

  lemma LexedWhatIsMultiplicationPart2()
    ensures Lexed([Run("licati", "licati"), Run("on", "on"), Sep("?")], 0, Word)
  {
  }

  lemma FinalWhatIsMultiplicationPart2()
    ensures Final([Run("licati", "licati"), Run("on", "on"), Sep("?")], 0, Word) == Word
  {
  }

  lemma SlugWhatIsMultiplicationPart2()
    ensures Slug([Run("licati", "licati"), Run("on", "on"), Sep("?")], 0, Word) == "lication"
  {
  }

  lemma ChunkWhatIsMultiplicationPart2()
    ensures ChunkOk([Run("licati", "licati"), Run("on", "on"), Sep("?")], "lication?", "lication", Word, Word)
  {
    SpellingWhatIsMultiplicationPart2();
    LexedWhatIsMultiplicationPart2();
    FinalWhatIsMultiplicationPart2();
    SlugWhatIsMultiplicationPart2();
  }

  lemma JoinedWhatIsMultiplication()
    ensures Concat(["What is Multip", "lication?"]) == "What is Multiplication?"
  {
  }

  lemma JoinedSlugWhatIsMultiplication()
    ensures Concat(["what-is-multip", "lication"]) == "what-is-multiplication"
  {
  }

  lemma ChunksWhatIsMultiplication()
    ensures ChunksOk([[Run("What", "what"), Sep(" "), Run("is", "is"), Sep(" "), Run("Multip", "multip")], [Run("licati", "licati"), Run("on", "on"), Sep("?")]], ["What is Multip", "lication?"], ["what-is-multip", "lication"], [Start, Word, Word], 0)
  {
    ChunkWhatIsMultiplicationPart1();
    ChunkWhatIsMultiplicationPart2();
  }

  lemma KebabWhatIsMultiplication(s: string)
    requires s == "What is Multiplication?"
    ensures ToKebabCase(s) == "what-is-multiplication"
  {
    ChunksWhatIsMultiplication();
    JoinedWhatIsMultiplication();
    JoinedSlugWhatIsMultiplication();
    KebabOfChunks(s, "what-is-multiplication", [[Run("What", "what"), Sep(" "), Run("is", "is"), Sep(" "), Run("Multip", "multip")], [Run("licati", "licati"), Run("on", "on"), Sep("?")]], ["What is Multip", "lication?"], ["what-is-multip", "lication"], [Start, Word, Word]);
  }

  lemma SpellingWhatIsDivisionPart1()
    ensures "What is Division" == Spelled([Run("What", "what"), Sep(" "), Run("is", "is"), Sep(" "), Run("Divisi", "divisi"), Run("on", "on")], 0)
  {
  }

  lemma LexedWhatIsDivisionPart1()
    ensures Lexed([Run("What", "what"), Sep(" "), Run("is", "is"), Sep(" "), Run("Divisi", "divisi"), Run("on", "on")], 0, Start)
  {
  }

  lemma FinalWhatIsDivisionPart1()
    ensures Final([Run("What", "what"), Sep(" "), Run("is", "is"), Sep(" "), Run("Divisi", "divisi"), Run("on", "on")], 0, Start) == Word
  {
  }

  lemma SlugWhatIsDivisionPart1()
    ensures Slug([Run("What", "what"), Sep(" "), Run("is", "is"), Sep(" "), Run("Divisi", "divisi"), Run("on", "on")], 0, Start) == "what-is-division"
  {
  }

  lemma ChunkWhatIsDivisionPart1()
    ensures ChunkOk([Run("What", "what"), Sep(" "), Run("is", "is"), Sep(" "), Run("Divisi", "divisi"), Run("on", "on")], "What is Division", "what-is-division", Start, Word)
  {
    SpellingWhatIsDivisionPart1();
    LexedWhatIsDivisionPart1();
    FinalWhatIsDivisionPart1();
    SlugWhatIsDivisionPart1();
  }

  lemma SpellingWhatIsDivisionPart2()
    ensures "?" == Spelled([Sep("?")], 0)
  {
  }

  lemma LexedWhatIsDivisionPart2()
    ensures Lexed([Sep("?")], 0, Word)
  {
  }

  lemma FinalWhatIsDivisionPart2()
    ensures Final([Sep("?")], 0, Word) == Word
  {
  }

  lemma SlugWhatIsDivisionPart2()
    ensures Slug([Sep("?")], 0, Word) == ""
  {
  }

  lemma ChunkWhatIsDivisionPart2()
    ensures ChunkOk([Sep("?")], "?", "", Word, Word)
  {
    SpellingWhatIsDivisionPart2();
    LexedWhatIsDivisionPart2();
    FinalWhatIsDivisionPart2();
    SlugWhatIsDivisionPart2();
  }

  lemma JoinedWhatIsDivision()
    ensures Concat(["What is Division", "?"]) == "What is Division?"
  {
  }

  lemma JoinedSlugWhatIsDivision()
    ensures Concat(["what-is-division", ""]) == "what-is-division"
  {
  }

  lemma ChunksWhatIsDivision()
    ensures ChunksOk([[Run("What", "what"), Sep(" "), Run("is", "is"), Sep(" "), Run("Divisi", "divisi"), Run("on", "on")], [Sep("?")]], ["What is Division", "?"], ["what-is-division", ""], [Start, Word, Word], 0)
  {
    ChunkWhatIsDivisionPart1();
    ChunkWhatIsDivisionPart2();
  }

  lemma KebabWhatIsDivision(s: string)
    requires s == "What is Division?"
    ensures ToKebabCase(s) == "what-is-division"
  {
    ChunksWhatIsDivision();
    JoinedWhatIsDivision();
    JoinedSlugWhatIsDivision();
    KebabOfChunks(s, "what-is-division", [[Run("What", "what"), Sep(" "), Run("is", "is"), Sep(" "), Run("Divisi", "divisi"), Run("on", "on")], [Sep("?")]], ["What is Division", "?"], ["what-is-division", ""], [Start, Word, Word]);
  }

  lemma Spelling25And10MultiplicationTablesPart1()
    ensures "2, 5 and 10 " == Spelled([Run("2", "2"), Sep(", "), Run("5", "5"), Sep(" "), Run("and", "and"), Sep(" "), Run("10", "10"), Sep(" ")], 0)
  {
  }

  lemma Lexed25And10MultiplicationTablesPart1()
    ensures Lexed([Run("2", "2"), Sep(", "), Run("5", "5"), Sep(" "), Run("and", "and"), Sep(" "), Run("10", "10"), Sep(" ")], 0, Start)
  {
  }

  lemma Final25And10MultiplicationTablesPart1()
    ensures Final([Run("2", "2"), Sep(", "), Run("5", "5"), Sep(" "), Run("and", "and"), Sep(" "), Run("10", "10"), Sep(" ")], 0, Start) == Gap
  {
  }

  lemma Slug25And10MultiplicationTablesPart1()
    ensures Slug([Run("2", "2"), Sep(", "), Run("5", "5"), Sep(" "), Run("and", "and"), Sep(" "), Run("10", "10"), Sep(" ")], 0, Start) == "2-5-and-10"
  {
  }

  lemma Chunk25And10MultiplicationTablesPart1()
    ensures ChunkOk([Run("2", "2"), Sep(", "), Run("5", "5"), Sep(" "), Run("and", "and"), Sep(" "), Run("10", "10"), Sep(" ")], "2, 5 and 10 ", "2-5-and-10", Start, Gap)
  {
    Spelling25And10MultiplicationTablesPart1();
    Lexed25And10MultiplicationTablesPart1();
    Final25And10MultiplicationTablesPart1();
    Slug25And10MultiplicationTablesPart1();
  }

  lemma Spelling25And10MultiplicationTablesPart2()
    ensures "Multiplication " == Spelled([Run("Multip", "multip"), Run("licati", "licati"), Run("on", "on"), Sep(" ")], 0)
  {
  }

  lemma Lexed25And10MultiplicationTablesPart2()
    ensures Lexed([Run("Multip", "multip"), Run("licati", "licati"), Run("on", "on"), Sep(" ")], 0, Gap)
  {
  }

  lemma Final25And10MultiplicationTablesPart2()
    ensures Final([Run("Multip", "multip"), Run("licati", "licati"), Run("on", "on"), Sep(" ")], 0, Gap) == Gap
  {
  }

  lemma Slug25And10MultiplicationTablesPart2()
    ensures Slug([Run("Multip", "multip"), Run("licati", "licati"), Run("on", "on"), Sep(" ")], 0, Gap) == "-multiplication"
  {
  }

  lemma Chunk25And10MultiplicationTablesPart2()
    ensures ChunkOk([Run("Multip", "multip"), Run("licati", "licati"), Run("on", "on"), Sep(" ")], "Multiplication ", "-multiplication", Gap, Gap)
  {
    Spelling25And10MultiplicationTablesPart2();
    Lexed25And10MultiplicationTablesPart2();
    Final25And10MultiplicationTablesPart2();
    Slug25And10MultiplicationTablesPart2();
  }

  lemma Spelling25And10MultiplicationTablesPart3()
    ensures "Tables" == Spelled([Run("Tables", "tables")], 0)
  {
  }

  lemma Lexed25And10MultiplicationTablesPart3()
    ensures Lexed([Run("Tables", "tables")], 0, Gap)
  {
  }

  lemma Final25And10MultiplicationTablesPart3()
    ensures Final([Run("Tables", "tables")], 0, Gap) == Word
  {
  }

  lemma Slug25And10MultiplicationTablesPart3()
    ensures Slug([Run("Tables", "tables")], 0, Gap) == "-tables"
  {
  }

  lemma Chunk25And10MultiplicationTablesPart3()
    ensures ChunkOk([Run("Tables", "tables")], "Tables", "-tables", Gap, Word)
  {
    Spelling25And10MultiplicationTablesPart3();
    Lexed25And10MultiplicationTablesPart3();
    Final25And10MultiplicationTablesPart3();
    Slug25And10MultiplicationTablesPart3();
  }

  lemma Joined25And10MultiplicationTablesL()
    ensures Concat(["2, 5 and 10 "]) == "2, 5 and 10 "
  {
  }

  lemma Joined25And10MultiplicationTablesR()
    ensures Concat(["Multiplication ", "Tables"]) == "Multiplication Tables"
  {
  }

  lemma Joined25And10MultiplicationTablesCut()
    ensures "2, 5 and 10 Multiplication Tables" == "2, 5 and 10 " + "Multiplication Tables"
  {
  }

  lemma Joined25And10MultiplicationTablesList()
    ensures ["2, 5 and 10 ", "Multiplication ", "Tables"] == ["2, 5 and 10 "] + ["Multiplication ", "Tables"]
  {
  }

  lemma Joined25And10MultiplicationTables()
    ensures Concat(["2, 5 and 10 ", "Multiplication ", "Tables"]) == "2, 5 and 10 Multiplication Tables"
  {
    Joined25And10MultiplicationTablesL();
    Joined25And10MultiplicationTablesR();
    Joined25And10MultiplicationTablesCut();
    Joined25And10MultiplicationTablesList();
    ConcatAppend(["2, 5 and 10 "], ["Multiplication ", "Tables"]);
  }

  lemma JoinedSlug25And10MultiplicationTablesL()
    ensures Concat(["2-5-and-10"]) == "2-5-and-10"
  {
  }

  lemma JoinedSlug25And10MultiplicationTablesR()
    ensures Concat(["-multiplication", "-tables"]) == "-multiplication-tables"
  {
  }

  lemma JoinedSlug25And10MultiplicationTablesCut()
    ensures "2-5-and-10-multiplication-tables" == "2-5-and-10" + "-multiplication-tables"
  {
  }

  lemma JoinedSlug25And10MultiplicationTablesList()
    ensures ["2-5-and-10", "-multiplication", "-tables"] == ["2-5-and-10"] + ["-multiplication", "-tables"]
  {
  }

  lemma JoinedSlug25And10MultiplicationTables()
    ensures Concat(["2-5-and-10", "-multiplication", "-tables"]) == "2-5-and-10-multiplication-tables"
  {
    JoinedSlug25And10MultiplicationTablesL();
    JoinedSlug25And10MultiplicationTablesR();
    JoinedSlug25And10MultiplicationTablesCut();
    JoinedSlug25And10MultiplicationTablesList();
    ConcatAppend(["2-5-and-10"], ["-multiplication", "-tables"]);
  }

  lemma Chunks25And10MultiplicationTables()
    ensures ChunksOk([[Run("2", "2"), Sep(", "), Run("5", "5"), Sep(" "), Run("and", "and"), Sep(" "), Run("10", "10"), Sep(" ")], [Run("Multip", "multip"), Run("licati", "licati"), Run("on", "on"), Sep(" ")], [Run("Tables", "tables")]], ["2, 5 and 10 ", "Multiplication ", "Tables"], ["2-5-and-10", "-multiplication", "-tables"], [Start, Gap, Gap, Word], 0)
  {
    Chunk25And10MultiplicationTablesPart1();
    Chunk25And10MultiplicationTablesPart2();
    Chunk25And10MultiplicationTablesPart3();
  }

  lemma Kebab25And10MultiplicationTables(s: string)
    requires s == "2, 5 and 10 Multiplication Tables"
    ensures ToKebabCase(s) == "2-5-and-10-multiplication-tables"
  {
    Chunks25And10MultiplicationTables();
    Joined25And10MultiplicationTables();
    JoinedSlug25And10MultiplicationTables();
    KebabOfChunks(s, "2-5-and-10-multiplication-tables", [[Run("2", "2"), Sep(", "), Run("5", "5"), Sep(" "), Run("and", "and"), Sep(" "), Run("10", "10"), Sep(" ")], [Run("Multip", "multip"), Run("licati", "licati"), Run("on", "on"), Sep(" ")], [Run("Tables", "tables")]], ["2, 5 and 10 ", "Multiplication ", "Tables"], ["2-5-and-10", "-multiplication", "-tables"], [Start, Gap, Gap, Word]);
  }

  lemma SpellingDivisionProblemsPart1()
    ensures "Division Proble" == Spelled([Run("Divisi", "divisi"), Run("on", "on"), Sep(" "), Run("Proble", "proble")], 0)
  {
  }

  lemma LexedDivisionProblemsPart1()
    ensures Lexed([Run("Divisi", "divisi"), Run("on", "on"), Sep(" "), Run("Proble", "proble")], 0, Start)
  {
  }

  lemma FinalDivisionProblemsPart1()
    ensures Final([Run("Divisi", "divisi"), Run("on", "on"), Sep(" "), Run("Proble", "proble")], 0, Start) == Word
  {
  }

  lemma SlugDivisionProblemsPart1()
    ensures Slug([Run("Divisi", "divisi"), Run("on", "on"), Sep(" "), Run("Proble", "proble")], 0, Start) == "division-proble"
  {
  }

  lemma ChunkDivisionProblemsPart1()
    ensures ChunkOk([Run("Divisi", "divisi"), Run("on", "on"), Sep(" "), Run("Proble", "proble")], "Division Proble", "division-proble", Start, Word)
  {
    SpellingDivisionProblemsPart1();
    LexedDivisionProblemsPart1();
    FinalDivisionProblemsPart1();
    SlugDivisionProblemsPart1();
  }

  lemma SpellingDivisionProblemsPart2()
    ensures "ms" == Spelled([Run("ms", "ms")], 0)
  {
  }

  lemma LexedDivisionProblemsPart2()
    ensures Lexed([Run("ms", "ms")], 0, Word)
  {
  }

  lemma FinalDivisionProblemsPart2()
    ensures Final([Run("ms", "ms")], 0, Word) == Word
  {
  }

  lemma SlugDivisionProblemsPart2()
    ensures Slug([Run("ms", "ms")], 0, Word) == "ms"
  {
  }

  lemma ChunkDivisionProblemsPart2()
    ensures ChunkOk([Run("ms", "ms")], "ms", "ms", Word, Word)
  {
    SpellingDivisionProblemsPart2();
    LexedDivisionProblemsPart2();
    FinalDivisionProblemsPart2();
    SlugDivisionProblemsPart2();
  }

  lemma JoinedDivisionProblems()
    ensures Concat(["Division Proble", "ms"]) == "Division Problems"
  {
  }

  lemma JoinedSlugDivisionProblems()
    ensures Concat(["division-proble", "ms"]) == "division-problems"
  {
  }

  lemma ChunksDivisionProblems()
    ensures ChunksOk([[Run("Divisi", "divisi"), Run("on", "on"), Sep(" "), Run("Proble", "proble")], [Run("ms", "ms")]], ["Division Proble", "ms"], ["division-proble", "ms"], [Start, Word, Word], 0)
  {
    ChunkDivisionProblemsPart1();
    ChunkDivisionProblemsPart2();
  }

  lemma KebabDivisionProblems(s: string)
    requires s == "Division Problems"
    ensures ToKebabCase(s) == "division-problems"
  {
    ChunksDivisionProblems();
    JoinedDivisionProblems();
    JoinedSlugDivisionProblems();
    KebabOfChunks(s, "division-problems", [[Run("Divisi", "divisi"), Run("on", "on"), Sep(" "), Run("Proble", "proble")], [Run("ms", "ms")]], ["Division Proble", "ms"], ["division-proble", "ms"], [Start, Word, Word]);
  }

  lemma SpellingConnectingMultiplicationAndDivisionPart1()
    ensures "Connecting " == Spelled([Run("Connec", "connec"), Run("ting", "ting"), Sep(" ")], 0)
  {
  }

  lemma LexedConnectingMultiplicationAndDivisionPart1()
    ensures Lexed([Run("Connec", "connec"), Run("ting", "ting"), Sep(" ")], 0, Start)
  {
  }

  lemma FinalConnectingMultiplicationAndDivisionPart1()
    ensures Final([Run("Connec", "connec"), Run("ting", "ting"), Sep(" ")], 0, Start) == Gap
  {
  }

  lemma SlugConnectingMultiplicationAndDivisionPart1()
    ensures Slug([Run("Connec", "connec"), Run("ting", "ting"), Sep(" ")], 0, Start) == "connecting"
  {
  }

  lemma ChunkConnectingMultiplicationAndDivisionPart1()
    ensures ChunkOk([Run("Connec", "connec"), Run("ting", "ting"), Sep(" ")], "Connecting ", "connecting", Start, Gap)
  {
    SpellingConnectingMultiplicationAndDivisionPart1();
    LexedConnectingMultiplicationAndDivisionPart1();
    FinalConnectingMultiplicationAndDivisionPart1();
    SlugConnectingMultiplicationAndDivisionPart1();
  }

  lemma SpellingConnectingMultiplicationAndDivisionPart2()
    ensures "Multiplication " == Spelled([Run("Multip", "multip"), Run("licati", "licati"), Run("on", "on"), Sep(" ")], 0)
  {
  }

  lemma LexedConnectingMultiplicationAndDivisionPart2()
    ensures Lexed([Run("Multip", "multip"), Run("licati", "licati"), Run("on", "on"), Sep(" ")], 0, Gap)
  {
  }

  lemma FinalConnectingMultiplicationAndDivisionPart2()
    ensures Final([Run("Multip", "multip"), Run("licati", "licati"), Run("on", "on"), Sep(" ")], 0, Gap) == Gap
  {
  }

  lemma SlugConnectingMultiplicationAndDivisionPart2()
    ensures Slug([Run("Multip", "multip"), Run("licati", "licati"), Run("on", "on"), Sep(" ")], 0, Gap) == "-multiplication"
  {
  }

  lemma ChunkConnectingMultiplicationAndDivisionPart2()
    ensures ChunkOk([Run("Multip", "multip"), Run("licati", "licati"), Run("on", "on"), Sep(" ")], "Multiplication ", "-multiplication", Gap, Gap)
  {
    SpellingConnectingMultiplicationAndDivisionPart2();
    LexedConnectingMultiplicationAndDivisionPart2();
    FinalConnectingMultiplicationAndDivisionPart2();
    SlugConnectingMultiplicationAndDivisionPart2();
  }

  lemma SpellingConnectingMultiplicationAndDivisionPart3()
    ensures "and Division" == Spelled([Run("and", "and"), Sep(" "), Run("Divisi", "divisi"), Run("on", "on")], 0)
  {
  }

  lemma LexedConnectingMultiplicationAndDivisionPart3()
    ensures Lexed([Run("and", "and"), Sep(" "), Run("Divisi", "divisi"), Run("on", "on")], 0, Gap)
  {
  }

  lemma FinalConnectingMultiplicationAndDivisionPart3()
    ensures Final([Run("and", "and"), Sep(" "), Run("Divisi", "divisi"), Run("on", "on")], 0, Gap) == Word
  {
  }

  lemma SlugConnectingMultiplicationAndDivisionPart3()
    ensures Slug([Run("and", "and"), Sep(" "), Run("Divisi", "divisi"), Run("on", "on")], 0, Gap) == "-and-division"
  {
  }

  lemma ChunkConnectingMultiplicationAndDivisionPart3()
    ensures ChunkOk([Run("and", "and"), Sep(" "), Run("Divisi", "divisi"), Run("on", "on")], "and Division", "-and-division", Gap, Word)
  {
    SpellingConnectingMultiplicationAndDivisionPart3();
    LexedConnectingMultiplicationAndDivisionPart3();
    FinalConnectingMultiplicationAndDivisionPart3();
    SlugConnectingMultiplicationAndDivisionPart3();
  }

  lemma JoinedConnectingMultiplicationAndDivisionL()
    ensures Concat(["Connecting "]) == "Connecting "
  {
  }

  lemma JoinedConnectingMultiplicationAndDivisionR()
    ensures Concat(["Multiplication ", "and Division"]) == "Multiplication and Division"
  {
  }

  lemma JoinedConnectingMultiplicationAndDivisionCut()
    ensures "Connecting Multiplication and Division" == "Connecting " + "Multiplication and Division"
  {
  }

  lemma JoinedConnectingMultiplicationAndDivisionList()
    ensures ["Connecting ", "Multiplication ", "and Division"] == ["Connecting "] + ["Multiplication ", "and Division"]
  {
  }

  lemma JoinedConnectingMultiplicationAndDivision()
    ensures Concat(["Connecting ", "Multiplication ", "and Division"]) == "Connecting Multiplication and Division"
  {
    JoinedConnectingMultiplicationAndDivisionL();
    JoinedConnectingMultiplicationAndDivisionR();
    JoinedConnectingMultiplicationAndDivisionCut();
    JoinedConnectingMultiplicationAndDivisionList();
    ConcatAppend(["Connecting "], ["Multiplication ", "and Division"]);
  }

  lemma JoinedSlugConnectingMultiplicationAndDivisionL()
    ensures Concat(["connecting"]) == "connecting"
  {
  }

  lemma JoinedSlugConnectingMultiplicationAndDivisionR()
    ensures Concat(["-multiplication", "-and-division"]) == "-multiplication-and-division"
  {
  }

  lemma JoinedSlugConnectingMultiplicationAndDivisionCut()
    ensures "connecting-multiplication-and-division" == "connecting" + "-multiplication-and-division"
  {
  }

  lemma JoinedSlugConnectingMultiplicationAndDivisionList()
    ensures ["connecting", "-multiplication", "-and-division"] == ["connecting"] + ["-multiplication", "-and-division"]
  {
  }

  lemma JoinedSlugConnectingMultiplicationAndDivision()
    ensures Concat(["connecting", "-multiplication", "-and-division"]) == "connecting-multiplication-and-division"
  {
    JoinedSlugConnectingMultiplicationAndDivisionL();
    JoinedSlugConnectingMultiplicationAndDivisionR();
    JoinedSlugConnectingMultiplicationAndDivisionCut();
    JoinedSlugConnectingMultiplicationAndDivisionList();
    ConcatAppend(["connecting"], ["-multiplication", "-and-division"]);
  }

  lemma ChunksConnectingMultiplicationAndDivision()
    ensures ChunksOk([[Run("Connec", "connec"), Run("ting", "ting"), Sep(" ")], [Run("Multip", "multip"), Run("licati", "licati"), Run("on", "on"), Sep(" ")], [Run("and", "and"), Sep(" "), Run("Divisi", "divisi"), Run("on", "on")]], ["Connecting ", "Multiplication ", "and Division"], ["connecting", "-multiplication", "-and-division"], [Start, Gap, Gap, Word], 0)
  {
    ChunkConnectingMultiplicationAndDivisionPart1();
    ChunkConnectingMultiplicationAndDivisionPart2();
    ChunkConnectingMultiplicationAndDivisionPart3();
  }

  lemma KebabConnectingMultiplicationAndDivision(s: string)
    requires s == "Connecting Multiplication and Division"
    ensures ToKebabCase(s) == "connecting-multiplication-and-division"
  {
    ChunksConnectingMultiplicationAndDivision();
    JoinedConnectingMultiplicationAndDivision();
    JoinedSlugConnectingMultiplicationAndDivision();
    KebabOfChunks(s, "connecting-multiplication-and-division", [[Run("Connec", "connec"), Run("ting", "ting"), Sep(" ")], [Run("Multip", "multip"), Run("licati", "licati"), Run("on", "on"), Sep(" ")], [Run("and", "and"), Sep(" "), Run("Divisi", "divisi"), Run("on", "on")]], ["Connecting ", "Multiplication ", "and Division"], ["connecting", "-multiplication", "-and-division"], [Start, Gap, Gap, Word]);
  }

  lemma SpellingDoublingAndHalvingUsingMultiplicationAndDivisionPart1()
    ensures "Doubling and " == Spelled([Run("Doubli", "doubli"), Run("ng", "ng"), Sep(" "), Run("and", "and"), Sep(" ")], 0)
  {
  }

  lemma LexedDoublingAndHalvingUsingMultiplicationAndDivisionPart1()
    ensures Lexed([Run("Doubli", "doubli"), Run("ng", "ng"), Sep(" "), Run("and", "and"), Sep(" ")], 0, Start)
  {
  }

  lemma FinalDoublingAndHalvingUsingMultiplicationAndDivisionPart1()
    ensures Final([Run("Doubli", "doubli"), Run("ng", "ng"), Sep(" "), Run("and", "and"), Sep(" ")], 0, Start) == Gap
  {
  }

  lemma SlugDoublingAndHalvingUsingMultiplicationAndDivisionPart1()
    ensures Slug([Run("Doubli", "doubli"), Run("ng", "ng"), Sep(" "), Run("and", "and"), Sep(" ")], 0, Start) == "doubling-and"
  {
  }

  lemma ChunkDoublingAndHalvingUsingMultiplicationAndDivisionPart1()
    ensures ChunkOk([Run("Doubli", "doubli"), Run("ng", "ng"), Sep(" "), Run("and", "and"), Sep(" ")], "Doubling and ", "doubling-and", Start, Gap)
  {
    SpellingDoublingAndHalvingUsingMultiplicationAndDivisionPart1();
    LexedDoublingAndHalvingUsingMultiplicationAndDivisionPart1();
    FinalDoublingAndHalvingUsingMultiplicationAndDivisionPart1();
    SlugDoublingAndHalvingUsingMultiplicationAndDivisionPart1();
  }

  lemma SpellingDoublingAndHalvingUsingMultiplicationAndDivisionPart2()
    ensures "Halving using " == Spelled([Run("Halvin", "halvin"), Run("g", "g"), Sep(" "), Run("using", "using"), Sep(" ")], 0)
  {
  }

  lemma LexedDoublingAndHalvingUsingMultiplicationAndDivisionPart2()
    ensures Lexed([Run("Halvin", "halvin"), Run("g", "g"), Sep(" "), Run("using", "using"), Sep(" ")], 0, Gap)
  {
  }

  lemma FinalDoublingAndHalvingUsingMultiplicationAndDivisionPart2()
    ensures Final([Run("Halvin", "halvin"), Run("g", "g"), Sep(" "), Run("using", "using"), Sep(" ")], 0, Gap) == Gap
  {
  }

  lemma SlugDoublingAndHalvingUsingMultiplicationAndDivisionPart2()
    ensures Slug([Run("Halvin", "halvin"), Run("g", "g"), Sep(" "), Run("using", "using"), Sep(" ")], 0, Gap) == "-halving-using"
  {
  }

  lemma ChunkDoublingAndHalvingUsingMultiplicationAndDivisionPart2()
    ensures ChunkOk([Run("Halvin", "halvin"), Run("g", "g"), Sep(" "), Run("using", "using"), Sep(" ")], "Halving using ", "-halving-using", Gap, Gap)
  {
    SpellingDoublingAndHalvingUsingMultiplicationAndDivisionPart2();
    LexedDoublingAndHalvingUsingMultiplicationAndDivisionPart2();
    FinalDoublingAndHalvingUsingMultiplicationAndDivisionPart2();
    SlugDoublingAndHalvingUsingMultiplicationAndDivisionPart2();
  }

  lemma SpellingDoublingAndHalvingUsingMultiplicationAndDivisionPart3()
    ensures "Multiplication " == Spelled([Run("Multip", "multip"), Run("licati", "licati"), Run("on", "on"), Sep(" ")], 0)
  {
  }

  lemma LexedDoublingAndHalvingUsingMultiplicationAndDivisionPart3()
    ensures Lexed([Run("Multip", "multip"), Run("licati", "licati"), Run("on", "on"), Sep(" ")], 0, Gap)
  {
  }

  lemma FinalDoublingAndHalvingUsingMultiplicationAndDivisionPart3()
    ensures Final([Run("Multip", "multip"), Run("licati", "licati"), Run("on", "on"), Sep(" ")], 0, Gap) == Gap
  {
  }

  lemma SlugDoublingAndHalvingUsingMultiplicationAndDivisionPart3()
    ensures Slug([Run("Multip", "multip"), Run("licati", "licati"), Run("on", "on"), Sep(" ")], 0, Gap) == "-multiplication"
  {
  }

  lemma ChunkDoublingAndHalvingUsingMultiplicationAndDivisionPart3()
    ensures ChunkOk([Run("Multip", "multip"), Run("licati", "licati"), Run("on", "on"), Sep(" ")], "Multiplication ", "-multiplication", Gap, Gap)
  {
    SpellingDoublingAndHalvingUsingMultiplicationAndDivisionPart3();
    LexedDoublingAndHalvingUsingMultiplicationAndDivisionPart3();
    FinalDoublingAndHalvingUsingMultiplicationAndDivisionPart3();
    SlugDoublingAndHalvingUsingMultiplicationAndDivisionPart3();
  }

  lemma SpellingDoublingAndHalvingUsingMultiplicationAndDivisionPart4()
    ensures "and Division" == Spelled([Run("and", "and"), Sep(" "), Run("Divisi", "divisi"), Run("on", "on")], 0)
  {
  }

  lemma LexedDoublingAndHalvingUsingMultiplicationAndDivisionPart4()
    ensures Lexed([Run("and", "and"), Sep(" "), Run("Divisi", "divisi"), Run("on", "on")], 0, Gap)
  {
  }

  lemma FinalDoublingAndHalvingUsingMultiplicationAndDivisionPart4()
    ensures Final([Run("and", "and"), Sep(" "), Run("Divisi", "divisi"), Run("on", "on")], 0, Gap) == Word
  {
  }

  lemma SlugDoublingAndHalvingUsingMultiplicationAndDivisionPart4()
    ensures Slug([Run("and", "and"), Sep(" "), Run("Divisi", "divisi"), Run("on", "on")], 0, Gap) == "-and-division"
  {
  }

  lemma ChunkDoublingAndHalvingUsingMultiplicationAndDivisionPart4()
    ensures ChunkOk([Run("and", "and"), Sep(" "), Run("Divisi", "divisi"), Run("on", "on")], "and Division", "-and-division", Gap, Word)
  {
    SpellingDoublingAndHalvingUsingMultiplicationAndDivisionPart4();
    LexedDoublingAndHalvingUsingMultiplicationAndDivisionPart4();
    FinalDoublingAndHalvingUsingMultiplicationAndDivisionPart4();
    SlugDoublingAndHalvingUsingMultiplicationAndDivisionPart4();
  }

  lemma JoinedDoublingAndHalvingUsingMultiplicationAndDivisionL()
    ensures Concat(["Doubling and ", "Halving using "]) == "Doubling and Halving using "
  {
  }

  lemma JoinedDoublingAndHalvingUsingMultiplicationAndDivisionR()
    ensures Concat(["Multiplication ", "and Division"]) == "Multiplication and Division"
  {
  }

  lemma JoinedDoublingAndHalvingUsingMultiplicationAndDivisionCut()
    ensures "Doubling and Halving using Multiplication and Division" == "Doubling and Halving using " + "Multiplication and Division"
  {
  }

  lemma JoinedDoublingAndHalvingUsingMultiplicationAndDivisionList()
    ensures ["Doubling and ", "Halving using ", "Multiplication ", "and Division"] == ["Doubling and ", "Halving using "] + ["Multiplication ", "and Division"]
  {
  }

  lemma JoinedDoublingAndHalvingUsingMultiplicationAndDivision()
    ensures Concat(["Doubling and ", "Halving using ", "Multiplication ", "and Division"]) == "Doubling and Halving using Multiplication and Division"
  {
    JoinedDoublingAndHalvingUsingMultiplicationAndDivisionL();
    JoinedDoublingAndHalvingUsingMultiplicationAndDivisionR();
    JoinedDoublingAndHalvingUsingMultiplicationAndDivisionCut();
    JoinedDoublingAndHalvingUsingMultiplicationAndDivisionList();
    ConcatAppend(["Doubling and ", "Halving using "], ["Multiplication ", "and Division"]);
  }

  lemma JoinedSlugDoublingAndHalvingUsingMultiplicationAndDivisionL()
    ensures Concat(["doubling-and", "-halving-using"]) == "doubling-and-halving-using"
  {
  }

  lemma JoinedSlugDoublingAndHalvingUsingMultiplicationAndDivisionR()
    ensures Concat(["-multiplication", "-and-division"]) == "-multiplication-and-division"
  {
  }

  lemma JoinedSlugDoublingAndHalvingUsingMultiplicationAndDivisionCut()
    ensures "doubling-and-halving-using-multiplication-and-division" == "doubling-and-halving-using" + "-multiplication-and-division"
  {
  }

  lemma JoinedSlugDoublingAndHalvingUsingMultiplicationAndDivisionList()
    ensures ["doubling-and", "-halving-using", "-multiplication", "-and-division"] == ["doubling-and", "-halving-using"] + ["-multiplication", "-and-division"]
  {
  }

  lemma JoinedSlugDoublingAndHalvingUsingMultiplicationAndDivision()
    ensures Concat(["doubling-and", "-halving-using", "-multiplication", "-and-division"]) == "doubling-and-halving-using-multiplication-and-division"
  {
    JoinedSlugDoublingAndHalvingUsingMultiplicationAndDivisionL();
    JoinedSlugDoublingAndHalvingUsingMultiplicationAndDivisionR();
    JoinedSlugDoublingAndHalvingUsingMultiplicationAndDivisionCut();
    JoinedSlugDoublingAndHalvingUsingMultiplicationAndDivisionList();
    ConcatAppend(["doubling-and", "-halving-using"], ["-multiplication", "-and-division"]);
  }

  lemma ChunksDoublingAndHalvingUsingMultiplicationAndDivision()
    ensures ChunksOk([[Run("Doubli", "doubli"), Run("ng", "ng"), Sep(" "), Run("and", "and"), Sep(" ")], [Run("Halvin", "halvin"), Run("g", "g"), Sep(" "), Run("using", "using"), Sep(" ")], [Run("Multip", "multip"), Run("licati", "licati"), Run("on", "on"), Sep(" ")], [Run("and", "and"), Sep(" "), Run("Divisi", "divisi"), Run("on", "on")]], ["Doubling and ", "Halving using ", "Multiplication ", "and Division"], ["doubling-and", "-halving-using", "-multiplication", "-and-division"], [Start, Gap, Gap, Gap, Word], 0)
  {
    ChunkDoublingAndHalvingUsingMultiplicationAndDivisionPart1();
    ChunkDoublingAndHalvingUsingMultiplicationAndDivisionPart2();
    ChunkDoublingAndHalvingUsingMultiplicationAndDivisionPart3();
    ChunkDoublingAndHalvingUsingMultiplicationAndDivisionPart4();
  }

  lemma KebabDoublingAndHalvingUsingMultiplicationAndDivision(s: string)
    requires s == "Doubling and Halving using Multiplication and Division"
    ensures ToKebabCase(s) == "doubling-and-halving-using-multiplication-and-division"
  {
    ChunksDoublingAndHalvingUsingMultiplicationAndDivision();
    JoinedDoublingAndHalvingUsingMultiplicationAndDivision();
    JoinedSlugDoublingAndHalvingUsingMultiplicationAndDivision();
    KebabOfChunks(s, "doubling-and-halving-using-multiplication-and-division", [[Run("Doubli", "doubli"), Run("ng", "ng"), Sep(" "), Run("and", "and"), Sep(" ")], [Run("Halvin", "halvin"), Run("g", "g"), Sep(" "), Run("using", "using"), Sep(" ")], [Run("Multip", "multip"), Run("licati", "licati"), Run("on", "on"), Sep(" ")], [Run("and", "and"), Sep(" "), Run("Divisi", "divisi"), Run("on", "on")]], ["Doubling and ", "Halving using ", "Multiplication ", "and Division"], ["doubling-and", "-halving-using", "-multiplication", "-and-division"], [Start, Gap, Gap, Gap, Word]);
  }

  lemma SpellingSolvingMultiplicationAndDivisionProblemsPart1()
    ensures "Solving Multip" == Spelled([Run("Solvin", "solvin"), Run("g", "g"), Sep(" "), Run("Multip", "multip")], 0)
  {
  }

  lemma LexedSolvingMultiplicationAndDivisionProblemsPart1()
    ensures Lexed([Run("Solvin", "solvin"), Run("g", "g"), Sep(" "), Run("Multip", "multip")], 0, Start)
  {
  }

  lemma FinalSolvingMultiplicationAndDivisionProblemsPart1()
    ensures Final([Run("Solvin", "solvin"), Run("g", "g"), Sep(" "), Run("Multip", "multip")], 0, Start) == Word
  {
  }

  lemma SlugSolvingMultiplicationAndDivisionProblemsPart1()
    ensures Slug([Run("Solvin", "solvin"), Run("g", "g"), Sep(" "), Run("Multip", "multip")], 0, Start) == "solving-multip"
  {
  }

  lemma ChunkSolvingMultiplicationAndDivisionProblemsPart1()
    ensures ChunkOk([Run("Solvin", "solvin"), Run("g", "g"), Sep(" "), Run("Multip", "multip")], "Solving Multip", "solving-multip", Start, Word)
  {
    SpellingSolvingMultiplicationAndDivisionProblemsPart1();
    LexedSolvingMultiplicationAndDivisionProblemsPart1();
    FinalSolvingMultiplicationAndDivisionProblemsPart1();
    SlugSolvingMultiplicationAndDivisionProblemsPart1();
  }

  lemma SpellingSolvingMultiplicationAndDivisionProblemsPart2()
    ensures "lication and " == Spelled([Run("licati", "licati"), Run("on", "on"), Sep(" "), Run("and", "and"), Sep(" ")], 0)
  {
  }

  lemma LexedSolvingMultiplicationAndDivisionProblemsPart2()
    ensures Lexed([Run("licati", "licati"), Run("on", "on"), Sep(" "), Run("and", "and"), Sep(" ")], 0, Word)
  {
  }

  lemma FinalSolvingMultiplicationAndDivisionProblemsPart2()
    ensures Final([Run("licati", "licati"), Run("on", "on"), Sep(" "), Run("and", "and"), Sep(" ")], 0, Word) == Gap
  {
  }

  lemma SlugSolvingMultiplicationAndDivisionProblemsPart2()
    ensures Slug([Run("licati", "licati"), Run("on", "on"), Sep(" "), Run("and", "and"), Sep(" ")], 0, Word) == "lication-and"
  {
  }

  lemma ChunkSolvingMultiplicationAndDivisionProblemsPart2()
    ensures ChunkOk([Run("licati", "licati"), Run("on", "on"), Sep(" "), Run("and", "and"), Sep(" ")], "lication and ", "lication-and", Word, Gap)
  {
    SpellingSolvingMultiplicationAndDivisionProblemsPart2();
    LexedSolvingMultiplicationAndDivisionProblemsPart2();
    FinalSolvingMultiplicationAndDivisionProblemsPart2();
    SlugSolvingMultiplicationAndDivisionProblemsPart2();
  }

  lemma SpellingSolvingMultiplicationAndDivisionProblemsPart3()
    ensures "Division Proble" == Spelled([Run("Divisi", "divisi"), Run("on", "on"), Sep(" "), Run("Proble", "proble")], 0)
  {
  }

  lemma LexedSolvingMultiplicationAndDivisionProblemsPart3()
    ensures Lexed([Run("Divisi", "divisi"), Run("on", "on"), Sep(" "), Run("Proble", "proble")], 0, Gap)
  {
  }

  lemma FinalSolvingMultiplicationAndDivisionProblemsPart3()
    ensures Final([Run("Divisi", "divisi"), Run("on", "on"), Sep(" "), Run("Proble", "proble")], 0, Gap) == Word
  {
  }

  lemma SlugSolvingMultiplicationAndDivisionProblemsPart3()
    ensures Slug([Run("Divisi", "divisi"), Run("on", "on"), Sep(" "), Run("Proble", "proble")], 0, Gap) == "-division-proble"
  {
  }

  lemma ChunkSolvingMultiplicationAndDivisionProblemsPart3()
    ensures ChunkOk([Run("Divisi", "divisi"), Run("on", "on"), Sep(" "), Run("Proble", "proble")], "Division Proble", "-division-proble", Gap, Word)
  {
    SpellingSolvingMultiplicationAndDivisionProblemsPart3();
    LexedSolvingMultiplicationAndDivisionProblemsPart3();
    FinalSolvingMultiplicationAndDivisionProblemsPart3();
    SlugSolvingMultiplicationAndDivisionProblemsPart3();
  }

  lemma SpellingSolvingMultiplicationAndDivisionProblemsPart4()
    ensures "ms" == Spelled([Run("ms", "ms")], 0)
  {
  }

  lemma LexedSolvingMultiplicationAndDivisionProblemsPart4()
    ensures Lexed([Run("ms", "ms")], 0, Word)
  {
  }

  lemma FinalSolvingMultiplicationAndDivisionProblemsPart4()
    ensures Final([Run("ms", "ms")], 0, Word) == Word
  {
  }

  lemma SlugSolvingMultiplicationAndDivisionProblemsPart4()
    ensures Slug([Run("ms", "ms")], 0, Word) == "ms"
  {
  }

  lemma ChunkSolvingMultiplicationAndDivisionProblemsPart4()
    ensures ChunkOk([Run("ms", "ms")], "ms", "ms", Word, Word)
  {
    SpellingSolvingMultiplicationAndDivisionProblemsPart4();
    LexedSolvingMultiplicationAndDivisionProblemsPart4();
    FinalSolvingMultiplicationAndDivisionProblemsPart4();
    SlugSolvingMultiplicationAndDivisionProblemsPart4();
  }

  lemma JoinedSolvingMultiplicationAndDivisionProblemsL()
    ensures Concat(["Solving Multip", "lication and "]) == "Solving Multiplication and "
  {
  }

  lemma JoinedSolvingMultiplicationAndDivisionProblemsR()
    ensures Concat(["Division Proble", "ms"]) == "Division Problems"
  {
  }

  lemma JoinedSolvingMultiplicationAndDivisionProblemsCut()
    ensures "Solving Multiplication and Division Problems" == "Solving Multiplication and " + "Division Problems"
  {
  }

  lemma JoinedSolvingMultiplicationAndDivisionProblemsList()
    ensures ["Solving Multip", "lication and ", "Division Proble", "ms"] == ["Solving Multip", "lication and "] + ["Division Proble", "ms"]
  {
  }

  lemma JoinedSolvingMultiplicationAndDivisionProblems()
    ensures Concat(["Solving Multip", "lication and ", "Division Proble", "ms"]) == "Solving Multiplication and Division Problems"
  {
    JoinedSolvingMultiplicationAndDivisionProblemsL();
    JoinedSolvingMultiplicationAndDivisionProblemsR();
    JoinedSolvingMultiplicationAndDivisionProblemsCut();
    JoinedSolvingMultiplicationAndDivisionProblemsList();
    ConcatAppend(["Solving Multip", "lication and "], ["Division Proble", "ms"]);
  }

  lemma JoinedSlugSolvingMultiplicationAndDivisionProblemsL()
    ensures Concat(["solving-multip", "lication-and"]) == "solving-multiplication-and"
  {
  }

  lemma JoinedSlugSolvingMultiplicationAndDivisionProblemsR()
    ensures Concat(["-division-proble", "ms"]) == "-division-problems"
  {
  }

  lemma JoinedSlugSolvingMultiplicationAndDivisionProblemsCut()
    ensures "solving-multiplication-and-division-problems" == "solving-multiplication-and" + "-division-problems"
  {
  }

  lemma JoinedSlugSolvingMultiplicationAndDivisionProblemsList()
    ensures ["solving-multip", "lication-and", "-division-proble", "ms"] == ["solving-multip", "lication-and"] + ["-division-proble", "ms"]
  {
  }

  lemma JoinedSlugSolvingMultiplicationAndDivisionProblems()
    ensures Concat(["solving-multip", "lication-and", "-division-proble", "ms"]) == "solving-multiplication-and-division-problems"
  {
    JoinedSlugSolvingMultiplicationAndDivisionProblemsL();
    JoinedSlugSolvingMultiplicationAndDivisionProblemsR();
    JoinedSlugSolvingMultiplicationAndDivisionProblemsCut();
    JoinedSlugSolvingMultiplicationAndDivisionProblemsList();
    ConcatAppend(["solving-multip", "lication-and"], ["-division-proble", "ms"]);
  }

  lemma ChunksSolvingMultiplicationAndDivisionProblems()
    ensures ChunksOk([[Run("Solvin", "solvin"), Run("g", "g"), Sep(" "), Run("Multip", "multip")], [Run("licati", "licati"), Run("on", "on"), Sep(" "), Run("and", "and"), Sep(" ")], [Run("Divisi", "divisi"), Run("on", "on"), Sep(" "), Run("Proble", "proble")], [Run("ms", "ms")]], ["Solving Multip", "lication and ", "Division Proble", "ms"], ["solving-multip", "lication-and", "-division-proble", "ms"], [Start, Word, Gap, Word, Word], 0)
  {
    ChunkSolvingMultiplicationAndDivisionProblemsPart1();
    ChunkSolvingMultiplicationAndDivisionProblemsPart2();
    ChunkSolvingMultiplicationAndDivisionProblemsPart3();
    ChunkSolvingMultiplicationAndDivisionProblemsPart4();
  }

  lemma KebabSolvingMultiplicationAndDivisionProblems(s: string)
    requires s == "Solving Multiplication and Division Problems"
    ensures ToKebabCase(s) == "solving-multiplication-and-division-problems"
  {
    ChunksSolvingMultiplicationAndDivisionProblems();
    JoinedSolvingMultiplicationAndDivisionProblems();
    JoinedSlugSolvingMultiplicationAndDivisionProblems();
    KebabOfChunks(s, "solving-multiplication-and-division-problems", [[Run("Solvin", "solvin"), Run("g", "g"), Sep(" "), Run("Multip", "multip")], [Run("licati", "licati"), Run("on", "on"), Sep(" "), Run("and", "and"), Sep(" ")], [Run("Divisi", "divisi"), Run("on", "on"), Sep(" "), Run("Proble", "proble")], [Run("ms", "ms")]], ["Solving Multip", "lication and ", "Division Proble", "ms"], ["solving-multip", "lication-and", "-division-proble", "ms"], [Start, Word, Gap, Word, Word]);
  }

  lemma SpellingNumberFractionsPart1()
    ensures "Number - Fracti" == Spelled([Run("Number", "number"), Sep(" "), Run("-", "-"), Sep(" "), Run("Fracti", "fracti")], 0)
  {
  }

  lemma LexedNumberFractionsPart1()
    ensures Lexed([Run("Number", "number"), Sep(" "), Run("-", "-"), Sep(" "), Run("Fracti", "fracti")], 0, Start)
  {
  }

  lemma FinalNumberFractionsPart1()
    ensures Final([Run("Number", "number"), Sep(" "), Run("-", "-"), Sep(" "), Run("Fracti", "fracti")], 0, Start) == Word
  {
  }

  lemma SlugNumberFractionsPart1()
    ensures Slug([Run("Number", "number"), Sep(" "), Run("-", "-"), Sep(" "), Run("Fracti", "fracti")], 0, Start) == "number---fracti"
  {
  }

  lemma ChunkNumberFractionsPart1()
    ensures ChunkOk([Run("Number", "number"), Sep(" "), Run("-", "-"), Sep(" "), Run("Fracti", "fracti")], "Number - Fracti", "number---fracti", Start, Word)
  {
    SpellingNumberFractionsPart1();
    LexedNumberFractionsPart1();
    FinalNumberFractionsPart1();
    SlugNumberFractionsPart1();
  }

  lemma SpellingNumberFractionsPart2()
    ensures "ons" == Spelled([Run("ons", "ons")], 0)
  {
  }

  lemma LexedNumberFractionsPart2()
    ensures Lexed([Run("ons", "ons")], 0, Word)
  {
  }

  lemma FinalNumberFractionsPart2()
    ensures Final([Run("ons", "ons")], 0, Word) == Word
  {
  }

  lemma SlugNumberFractionsPart2()
    ensures Slug([Run("ons", "ons")], 0, Word) == "ons"
  {
  }

  lemma ChunkNumberFractionsPart2()
    ensures ChunkOk([Run("ons", "ons")], "ons", "ons", Word, Word)
  {
    SpellingNumberFractionsPart2();
    LexedNumberFractionsPart2();
    FinalNumberFractionsPart2();
    SlugNumberFractionsPart2();
  }

  lemma JoinedNumberFractions()
    ensures Concat(["Number - Fracti", "ons"]) == "Number - Fractions"
  {
  }

  lemma JoinedSlugNumberFractions()
    ensures Concat(["number---fracti", "ons"]) == "number---fractions"
  {
  }

  lemma ChunksNumberFractions()
    ensures ChunksOk([[Run("Number", "number"), Sep(" "), Run("-", "-"), Sep(" "), Run("Fracti", "fracti")], [Run("ons", "ons")]], ["Number - Fracti", "ons"], ["number---fracti", "ons"], [Start, Word, Word], 0)
  {
    ChunkNumberFractionsPart1();
    ChunkNumberFractionsPart2();
  }

  lemma KebabNumberFractions(s: string)
    requires s == "Number - Fractions"
    ensures ToKebabCase(s) == "number---fractions"
  {
    ChunksNumberFractions();
    JoinedNumberFractions();
    JoinedSlugNumberFractions();
    KebabOfChunks(s, "number---fractions", [[Run("Number", "number"), Sep(" "), Run("-", "-"), Sep(" "), Run("Fracti", "fracti")], [Run("ons", "ons")]], ["Number - Fracti", "ons"], ["number---fracti", "ons"], [Start, Word, Word]);
  }

  lemma SpellingWhatIsAFractionPart1()
    ensures "What is a Fracti" == Spelled([Run("What", "what"), Sep(" "), Run("is", "is"), Sep(" "), Run("a", "a"), Sep(" "), Run("Fracti", "fracti")], 0)
  {
  }

  lemma LexedWhatIsAFractionPart1()
    ensures Lexed([Run("What", "what"), Sep(" "), Run("is", "is"), Sep(" "), Run("a", "a"), Sep(" "), Run("Fracti", "fracti")], 0, Start)
  {
  }

  lemma FinalWhatIsAFractionPart1()
    ensures Final([Run("What", "what"), Sep(" "), Run("is", "is"), Sep(" "), Run("a", "a"), Sep(" "), Run("Fracti", "fracti")], 0, Start) == Word
  {
  }

  lemma SlugWhatIsAFractionPart1()
    ensures Slug([Run("What", "what"), Sep(" "), Run("is", "is"), Sep(" "), Run("a", "a"), Sep(" "), Run("Fracti", "fracti")], 0, Start) == "what-is-a-fracti"
  {
  }

  lemma ChunkWhatIsAFractionPart1()
    ensures ChunkOk([Run("What", "what"), Sep(" "), Run("is", "is"), Sep(" "), Run("a", "a"), Sep(" "), Run("Fracti", "fracti")], "What is a Fracti", "what-is-a-fracti", Start, Word)
  {
    SpellingWhatIsAFractionPart1();
    LexedWhatIsAFractionPart1();
    FinalWhatIsAFractionPart1();
    SlugWhatIsAFractionPart1();
  }

  lemma SpellingWhatIsAFractionPart2()
    ensures "on?" == Spelled([Run("on", "on"), Sep("?")], 0)
  {
  }

  lemma LexedWhatIsAFractionPart2()
    ensures Lexed([Run("on", "on"), Sep("?")], 0, Word)
  {
  }

  lemma FinalWhatIsAFractionPart2()
    ensures Final([Run("on", "on"), Sep("?")], 0, Word) == Word
  {
  }

  lemma SlugWhatIsAFractionPart2()
    ensures Slug([Run("on", "on"), Sep("?")], 0, Word) == "on"
  {
  }

  lemma ChunkWhatIsAFractionPart2()
    ensures ChunkOk([Run("on", "on"), Sep("?")], "on?", "on", Word, Word)
  {
    SpellingWhatIsAFractionPart2();
    LexedWhatIsAFractionPart2();
    FinalWhatIsAFractionPart2();
    SlugWhatIsAFractionPart2();
  }

  lemma JoinedWhatIsAFraction()
    ensures Concat(["What is a Fracti", "on?"]) == "What is a Fraction?"
  {
  }

  lemma JoinedSlugWhatIsAFraction()
    ensures Concat(["what-is-a-fracti", "on"]) == "what-is-a-fraction"
  {
  }

  lemma ChunksWhatIsAFraction()
    ensures ChunksOk([[Run("What", "what"), Sep(" "), Run("is", "is"), Sep(" "), Run("a", "a"), Sep(" "), Run("Fracti", "fracti")], [Run("on", "on"), Sep("?")]], ["What is a Fracti", "on?"], ["what-is-a-fracti", "on"], [Start, Word, Word], 0)
  {
    ChunkWhatIsAFractionPart1();
    ChunkWhatIsAFractionPart2();
  }

  lemma KebabWhatIsAFraction(s: string)
    requires s == "What is a Fraction?"
    ensures ToKebabCase(s) == "what-is-a-fraction"
  {
    ChunksWhatIsAFraction();
    JoinedWhatIsAFraction();
    JoinedSlugWhatIsAFraction();
    KebabOfChunks(s, "what-is-a-fraction", [[Run("What", "what"), Sep(" "), Run("is", "is"), Sep(" "), Run("a", "a"), Sep(" "), Run("Fracti", "fracti")], [Run("on", "on"), Sep("?")]], ["What is a Fracti", "on?"], ["what-is-a-fracti", "on"], [Start, Word, Word]);
  }

  lemma SpellingFractionsOfNumbersPart1()
    ensures "Fractions of " == Spelled([Run("Fracti", "fracti"), Run("ons", "ons"), Sep(" "), Run("of", "of"), Sep(" ")], 0)
  {
  }

  lemma LexedFractionsOfNumbersPart1()
    ensures Lexed([Run("Fracti", "fracti"), Run("ons", "ons"), Sep(" "), Run("of", "of"), Sep(" ")], 0, Start)
  {
  }

  lemma FinalFractionsOfNumbersPart1()
    ensures Final([Run("Fracti", "fracti"), Run("ons", "ons"), Sep(" "), Run("of", "of"), Sep(" ")], 0, Start) == Gap
  {
  }

  lemma SlugFractionsOfNumbersPart1()
    ensures Slug([Run("Fracti", "fracti"), Run("ons", "ons"), Sep(" "), Run("of", "of"), Sep(" ")], 0, Start) == "fractions-of"
  {
  }

  lemma ChunkFractionsOfNumbersPart1()
    ensures ChunkOk([Run("Fracti", "fracti"), Run("ons", "ons"), Sep(" "), Run("of", "of"), Sep(" ")], "Fractions of ", "fractions-of", Start, Gap)
  {
    SpellingFractionsOfNumbersPart1();
    LexedFractionsOfNumbersPart1();
    FinalFractionsOfNumbersPart1();
    SlugFractionsOfNumbersPart1();
  }

  lemma SpellingFractionsOfNumbersPart2()
    ensures "Numbers" == Spelled([Run("Number", "number"), Run("s", "s")], 0)
  {
  }

  lemma LexedFractionsOfNumbersPart2()
    ensures Lexed([Run("Number", "number"), Run("s", "s")], 0, Gap)
  {
  }

  lemma FinalFractionsOfNumbersPart2()
    ensures Final([Run("Number", "number"), Run("s", "s")], 0, Gap) == Word
  {
  }

  lemma SlugFractionsOfNumbersPart2()
    ensures Slug([Run("Number", "number"), Run("s", "s")], 0, Gap) == "-numbers"
  {
  }

  lemma ChunkFractionsOfNumbersPart2()
    ensures ChunkOk([Run("Number", "number"), Run("s", "s")], "Numbers", "-numbers", Gap, Word)
  {
    SpellingFractionsOfNumbersPart2();
    LexedFractionsOfNumbersPart2();
    FinalFractionsOfNumbersPart2();
    SlugFractionsOfNumbersPart2();
  }

  lemma JoinedFractionsOfNumbers()
    ensures Concat(["Fractions of ", "Numbers"]) == "Fractions of Numbers"
  {
  }

  lemma JoinedSlugFractionsOfNumbers()
    ensures Concat(["fractions-of", "-numbers"]) == "fractions-of-numbers"
  {
  }

  lemma ChunksFractionsOfNumbers()
    ensures ChunksOk([[Run("Fracti", "fracti"), Run("ons", "ons"), Sep(" "), Run("of", "of"), Sep(" ")], [Run("Number", "number"), Run("s", "s")]], ["Fractions of ", "Numbers"], ["fractions-of", "-numbers"], [Start, Gap, Word], 0)
  {
    ChunkFractionsOfNumbersPart1();
    ChunkFractionsOfNumbersPart2();
  }

  lemma KebabFractionsOfNumbers(s: string)
    requires s == "Fractions of Numbers"
    ensures ToKebabCase(s) == "fractions-of-numbers"
  {
    ChunksFractionsOfNumbers();
    JoinedFractionsOfNumbers();
    JoinedSlugFractionsOfNumbers();
    KebabOfChunks(s, "fractions-of-numbers", [[Run("Fracti", "fracti"), Run("ons", "ons"), Sep(" "), Run("of", "of"), Sep(" ")], [Run("Number", "number"), Run("s", "s")]], ["Fractions of ", "Numbers"], ["fractions-of", "-numbers"], [Start, Gap, Word]);
  }

  lemma SpellingFindingFractionsOfLargerGroupsPart1()
    ensures "Finding Fracti" == Spelled([Run("Findin", "findin"), Run("g", "g"), Sep(" "), Run("Fracti", "fracti")], 0)
  {
  }

  lemma LexedFindingFractionsOfLargerGroupsPart1()
    ensures Lexed([Run("Findin", "findin"), Run("g", "g"), Sep(" "), Run("Fracti", "fracti")], 0, Start)
  {
  }

  lemma FinalFindingFractionsOfLargerGroupsPart1()
    ensures Final([Run("Findin", "findin"), Run("g", "g"), Sep(" "), Run("Fracti", "fracti")], 0, Start) == Word
  {
  }

  lemma SlugFindingFractionsOfLargerGroupsPart1()
    ensures Slug([Run("Findin", "findin"), Run("g", "g"), Sep(" "), Run("Fracti", "fracti")], 0, Start) == "finding-fracti"
  {
  }

  lemma ChunkFindingFractionsOfLargerGroupsPart1()
    ensures ChunkOk([Run("Findin", "findin"), Run("g", "g"), Sep(" "), Run("Fracti", "fracti")], "Finding Fracti", "finding-fracti", Start, Word)
  {
    SpellingFindingFractionsOfLargerGroupsPart1();
    LexedFindingFractionsOfLargerGroupsPart1();
    FinalFindingFractionsOfLargerGroupsPart1();
    SlugFindingFractionsOfLargerGroupsPart1();
  }

  lemma SpellingFindingFractionsOfLargerGroupsPart2()
    ensures "ons of Larger " == Spelled([Run("ons", "ons"), Sep(" "), Run("of", "of"), Sep(" "), Run("Larger", "larger"), Sep(" ")], 0)
  {
  }

  lemma LexedFindingFractionsOfLargerGroupsPart2()
    ensures Lexed([Run("ons", "ons"), Sep(" "), Run("of", "of"), Sep(" "), Run("Larger", "larger"), Sep(" ")], 0, Word)
  {
  }

  lemma FinalFindingFractionsOfLargerGroupsPart2()
    ensures Final([Run("ons", "ons"), Sep(" "), Run("of", "of"), Sep(" "), Run("Larger", "larger"), Sep(" ")], 0, Word) == Gap
  {
  }

  lemma SlugFindingFractionsOfLargerGroupsPart2()
    ensures Slug([Run("ons", "ons"), Sep(" "), Run("of", "of"), Sep(" "), Run("Larger", "larger"), Sep(" ")], 0, Word) == "ons-of-larger"
  {
  }

  lemma ChunkFindingFractionsOfLargerGroupsPart2()
    ensures ChunkOk([Run("ons", "ons"), Sep(" "), Run("of", "of"), Sep(" "), Run("Larger", "larger"), Sep(" ")], "ons of Larger ", "ons-of-larger", Word, Gap)
  {
    SpellingFindingFractionsOfLargerGroupsPart2();
    LexedFindingFractionsOfLargerGroupsPart2();
    FinalFindingFractionsOfLargerGroupsPart2();
    SlugFindingFractionsOfLargerGroupsPart2();
  }

  lemma SpellingFindingFractionsOfLargerGroupsPart3()
    ensures "Groups" == Spelled([Run("Groups", "groups")], 0)
  {
  }

  lemma LexedFindingFractionsOfLargerGroupsPart3()
    ensures Lexed([Run("Groups", "groups")], 0, Gap)
  {
  }

  lemma FinalFindingFractionsOfLargerGroupsPart3()
    ensures Final([Run("Groups", "groups")], 0, Gap) == Word
  {
  }

  lemma SlugFindingFractionsOfLargerGroupsPart3()
    ensures Slug([Run("Groups", "groups")], 0, Gap) == "-groups"
  {
  }

  lemma ChunkFindingFractionsOfLargerGroupsPart3()
    ensures ChunkOk([Run("Groups", "groups")], "Groups", "-groups", Gap, Word)
  {
    SpellingFindingFractionsOfLargerGroupsPart3();
    LexedFindingFractionsOfLargerGroupsPart3();
    FinalFindingFractionsOfLargerGroupsPart3();
    SlugFindingFractionsOfLargerGroupsPart3();
  }

  lemma JoinedFindingFractionsOfLargerGroupsL()
    ensures Concat(["Finding Fracti"]) == "Finding Fracti"
  {
  }

  lemma JoinedFindingFractionsOfLargerGroupsR()
    ensures Concat(["ons of Larger ", "Groups"]) == "ons of Larger Groups"
  {
  }

  lemma JoinedFindingFractionsOfLargerGroupsCut()
    ensures "Finding Fractions of Larger Groups" == "Finding Fracti" + "ons of Larger Groups"
  {
  }

  lemma JoinedFindingFractionsOfLargerGroupsList()
    ensures ["Finding Fracti", "ons of Larger ", "Groups"] == ["Finding Fracti"] + ["ons of Larger ", "Groups"]
  {
  }

  lemma JoinedFindingFractionsOfLargerGroups()
    ensures Concat(["Finding Fracti", "ons of Larger ", "Groups"]) == "Finding Fractions of Larger Groups"
  {
    JoinedFindingFractionsOfLargerGroupsL();
    JoinedFindingFractionsOfLargerGroupsR();
    JoinedFindingFractionsOfLargerGroupsCut();
    JoinedFindingFractionsOfLargerGroupsList();
    ConcatAppend(["Finding Fracti"], ["ons of Larger ", "Groups"]);
  }

  lemma JoinedSlugFindingFractionsOfLargerGroupsL()
    ensures Concat(["finding-fracti"]) == "finding-fracti"
  {
  }

  lemma JoinedSlugFindingFractionsOfLargerGroupsR()
    ensures Concat(["ons-of-larger", "-groups"]) == "ons-of-larger-groups"
  {
  }

  lemma JoinedSlugFindingFractionsOfLargerGroupsCut()
    ensures "finding-fractions-of-larger-groups" == "finding-fracti" + "ons-of-larger-groups"
  {
  }

  lemma JoinedSlugFindingFractionsOfLargerGroupsList()
    ensures ["finding-fracti", "ons-of-larger", "-groups"] == ["finding-fracti"] + ["ons-of-larger", "-groups"]
  {
  }

  lemma JoinedSlugFindingFractionsOfLargerGroups()
    ensures Concat(["finding-fracti", "ons-of-larger", "-groups"]) == "finding-fractions-of-larger-groups"
  {
    JoinedSlugFindingFractionsOfLargerGroupsL();
    JoinedSlugFindingFractionsOfLargerGroupsR();
    JoinedSlugFindingFractionsOfLargerGroupsCut();
    JoinedSlugFindingFractionsOfLargerGroupsList();
    ConcatAppend(["finding-fracti"], ["ons-of-larger", "-groups"]);
  }

  lemma ChunksFindingFractionsOfLargerGroups()
    ensures ChunksOk([[Run("Findin", "findin"), Run("g", "g"), Sep(" "), Run("Fracti", "fracti")], [Run("ons", "ons"), Sep(" "), Run("of", "of"), Sep(" "), Run("Larger", "larger"), Sep(" ")], [Run("Groups", "groups")]], ["Finding Fracti", "ons of Larger ", "Groups"], ["finding-fracti", "ons-of-larger", "-groups"], [Start, Word, Gap, Word], 0)
  {
    ChunkFindingFractionsOfLargerGroupsPart1();
    ChunkFindingFractionsOfLargerGroupsPart2();
    ChunkFindingFractionsOfLargerGroupsPart3();
  }

  lemma KebabFindingFractionsOfLargerGroups(s: string)
    requires s == "Finding Fractions of Larger Groups"
    ensures ToKebabCase(s) == "finding-fractions-of-larger-groups"
  {
    ChunksFindingFractionsOfLargerGroups();
    JoinedFindingFractionsOfLargerGroups();
    JoinedSlugFindingFractionsOfLargerGroups();
    KebabOfChunks(s, "finding-fractions-of-larger-groups", [[Run("Findin", "findin"), Run("g", "g"), Sep(" "), Run("Fracti", "fracti")], [Run("ons", "ons"), Sep(" "), Run("of", "of"), Sep(" "), Run("Larger", "larger"), Sep(" ")], [Run("Groups", "groups")]], ["Finding Fracti", "ons of Larger ", "Groups"], ["finding-fracti", "ons-of-larger", "-groups"], [Start, Word, Gap, Word]);
  }

  lemma SpellingMeasurementPart1()
    ensures "Measurement" == Spelled([Run("Measur", "measur"), Run("ement", "ement")], 0)
  {
  }

  lemma LexedMeasurementPart1()
    ensures Lexed([Run("Measur", "measur"), Run("ement", "ement")], 0, Start)
  {
  }

  lemma FinalMeasurementPart1()
    ensures Final([Run("Measur", "measur"), Run("ement", "ement")], 0, Start) == Word
  {
  }

  lemma SlugMeasurementPart1()
    ensures Slug([Run("Measur", "measur"), Run("ement", "ement")], 0, Start) == "measurement"
  {
  }

  lemma ChunkMeasurementPart1()
    ensures ChunkOk([Run("Measur", "measur"), Run("ement", "ement")], "Measurement", "measurement", Start, Word)
  {
    SpellingMeasurementPart1();
    LexedMeasurementPart1();
    FinalMeasurementPart1();
    SlugMeasurementPart1();
  }

  lemma JoinedMeasurement()
    ensures Concat(["Measurement"]) == "Measurement"
  {
  }

  lemma JoinedSlugMeasurement()
    ensures Concat(["measurement"]) == "measurement"
  {
  }

  lemma ChunksMeasurement()
    ensures ChunksOk([[Run("Measur", "measur"), Run("ement", "ement")]], ["Measurement"], ["measurement"], [Start, Word], 0)
  {
    ChunkMeasurementPart1();
  }

  lemma KebabMeasurement(s: string)
    requires s == "Measurement"
    ensures ToKebabCase(s) == "measurement"
  {
    ChunksMeasurement();
    JoinedMeasurement();
    JoinedSlugMeasurement();
    KebabOfChunks(s, "measurement", [[Run("Measur", "measur"), Run("ement", "ement")]], ["Measurement"], ["measurement"], [Start, Word]);
  }

  lemma SpellingMeasuringLengthAndHeightPart1()
    ensures "Measuring Length" == Spelled([Run("Measur", "measur"), Run("ing", "ing"), Sep(" "), Run("Length", "length")], 0)
  {
  }

  lemma LexedMeasuringLengthAndHeightPart1()
    ensures Lexed([Run("Measur", "measur"), Run("ing", "ing"), Sep(" "), Run("Length", "length")], 0, Start)
  {
  }

  lemma FinalMeasuringLengthAndHeightPart1()
    ensures Final([Run("Measur", "measur"), Run("ing", "ing"), Sep(" "), Run("Length", "length")], 0, Start) == Word
  {
  }

  lemma SlugMeasuringLengthAndHeightPart1()
    ensures Slug([Run("Measur", "measur"), Run("ing", "ing"), Sep(" "), Run("Length", "length")], 0, Start) == "measuring-length"
  {
  }

  lemma ChunkMeasuringLengthAndHeightPart1()
    ensures ChunkOk([Run("Measur", "measur"), Run("ing", "ing"), Sep(" "), Run("Length", "length")], "Measuring Length", "measuring-length", Start, Word)
  {
    SpellingMeasuringLengthAndHeightPart1();
    LexedMeasuringLengthAndHeightPart1();
    FinalMeasuringLengthAndHeightPart1();
    SlugMeasuringLengthAndHeightPart1();
  }

  lemma SpellingMeasuringLengthAndHeightPart2()
    ensures " and Height" == Spelled([Sep(" "), Run("and", "and"), Sep(" "), Run("Height", "height")], 0)
  {
  }

  lemma LexedMeasuringLengthAndHeightPart2()
    ensures Lexed([Sep(" "), Run("and", "and"), Sep(" "), Run("Height", "height")], 0, Word)
  {
  }

  lemma FinalMeasuringLengthAndHeightPart2()
    ensures Final([Sep(" "), Run("and", "and"), Sep(" "), Run("Height", "height")], 0, Word) == Word
  {
  }

  lemma SlugMeasuringLengthAndHeightPart2()
    ensures Slug([Sep(" "), Run("and", "and"), Sep(" "), Run("Height", "height")], 0, Word) == "-and-height"
  {
  }

  lemma ChunkMeasuringLengthAndHeightPart2()
    ensures ChunkOk([Sep(" "), Run("and", "and"), Sep(" "), Run("Height", "height")], " and Height", "-and-height", Word, Word)
  {
    SpellingMeasuringLengthAndHeightPart2();
    LexedMeasuringLengthAndHeightPart2();
    FinalMeasuringLengthAndHeightPart2();
    SlugMeasuringLengthAndHeightPart2();
  }

  lemma JoinedMeasuringLengthAndHeight()
    ensures Concat(["Measuring Length", " and Height"]) == "Measuring Length and Height"
  {
  }

  lemma JoinedSlugMeasuringLengthAndHeight()
    ensures Concat(["measuring-length", "-and-height"]) == "measuring-length-and-height"
  {
  }

  lemma ChunksMeasuringLengthAndHeight()
    ensures ChunksOk([[Run("Measur", "measur"), Run("ing", "ing"), Sep(" "), Run("Length", "length")], [Sep(" "), Run("and", "and"), Sep(" "), Run("Height", "height")]], ["Measuring Length", " and Height"], ["measuring-length", "-and-height"], [Start, Word, Word], 0)
  {
    ChunkMeasuringLengthAndHeightPart1();
    ChunkMeasuringLengthAndHeightPart2();
  }

  lemma KebabMeasuringLengthAndHeight(s: string)
    requires s == "Measuring Length and Height"
    ensures ToKebabCase(s) == "measuring-length-and-height"
  {
    ChunksMeasuringLengthAndHeight();
    JoinedMeasuringLengthAndHeight();
    JoinedSlugMeasuringLengthAndHeight();
    KebabOfChunks(s, "measuring-length-and-height", [[Run("Measur", "measur"), Run("ing", "ing"), Sep(" "), Run("Length", "length")], [Sep(" "), Run("and", "and"), Sep(" "), Run("Height", "height")]], ["Measuring Length", " and Height"], ["measuring-length", "-and-height"], [Start, Word, Word]);
  }

  lemma SpellingMeasuringWeightAndVolumePart1()
    ensures "Measuring Weight" == Spelled([Run("Measur", "measur"), Run("ing", "ing"), Sep(" "), Run("Weight", "weight")], 0)
  {
  }

  lemma LexedMeasuringWeightAndVolumePart1()
    ensures Lexed([Run("Measur", "measur"), Run("ing", "ing"), Sep(" "), Run("Weight", "weight")], 0, Start)
  {
  }

  lemma FinalMeasuringWeightAndVolumePart1()
    ensures Final([Run("Measur", "measur"), Run("ing", "ing"), Sep(" "), Run("Weight", "weight")], 0, Start) == Word
  {
  }

  lemma SlugMeasuringWeightAndVolumePart1()
    ensures Slug([Run("Measur", "measur"), Run("ing", "ing"), Sep(" "), Run("Weight", "weight")], 0, Start) == "measuring-weight"
  {
  }

  lemma ChunkMeasuringWeightAndVolumePart1()
    ensures ChunkOk([Run("Measur", "measur"), Run("ing", "ing"), Sep(" "), Run("Weight", "weight")], "Measuring Weight", "measuring-weight", Start, Word)
  {
    SpellingMeasuringWeightAndVolumePart1();
    LexedMeasuringWeightAndVolumePart1();
    FinalMeasuringWeightAndVolumePart1();
    SlugMeasuringWeightAndVolumePart1();
  }

  lemma SpellingMeasuringWeightAndVolumePart2()
    ensures " and Volume" == Spelled([Sep(" "), Run("and", "and"), Sep(" "), Run("Volume", "volume")], 0)
  {
  }

  lemma LexedMeasuringWeightAndVolumePart2()
    ensures Lexed([Sep(" "), Run("and", "and"), Sep(" "), Run("Volume", "volume")], 0, Word)
  {
  }

  lemma FinalMeasuringWeightAndVolumePart2()
    ensures Final([Sep(" "), Run("and", "and"), Sep(" "), Run("Volume", "volume")], 0, Word) == Word
  {
  }

  lemma SlugMeasuringWeightAndVolumePart2()
    ensures Slug([Sep(" "), Run("and", "and"), Sep(" "), Run("Volume", "volume")], 0, Word) == "-and-volume"
  {
  }

  lemma ChunkMeasuringWeightAndVolumePart2()
    ensures ChunkOk([Sep(" "), Run("and", "and"), Sep(" "), Run("Volume", "volume")], " and Volume", "-and-volume", Word, Word)
  {
    SpellingMeasuringWeightAndVolumePart2();
    LexedMeasuringWeightAndVolumePart2();
    FinalMeasuringWeightAndVolumePart2();
    SlugMeasuringWeightAndVolumePart2();
  }

  lemma JoinedMeasuringWeightAndVolume()
    ensures Concat(["Measuring Weight", " and Volume"]) == "Measuring Weight and Volume"
  {
  }

  lemma JoinedSlugMeasuringWeightAndVolume()
    ensures Concat(["measuring-weight", "-and-volume"]) == "measuring-weight-and-volume"
  {
  }

  lemma ChunksMeasuringWeightAndVolume()
    ensures ChunksOk([[Run("Measur", "measur"), Run("ing", "ing"), Sep(" "), Run("Weight", "weight")], [Sep(" "), Run("and", "and"), Sep(" "), Run("Volume", "volume")]], ["Measuring Weight", " and Volume"], ["measuring-weight", "-and-volume"], [Start, Word, Word], 0)
  {
    ChunkMeasuringWeightAndVolumePart1();
    ChunkMeasuringWeightAndVolumePart2();
  }

  lemma KebabMeasuringWeightAndVolume(s: string)
    requires s == "Measuring Weight and Volume"
    ensures ToKebabCase(s) == "measuring-weight-and-volume"
  {
    ChunksMeasuringWeightAndVolume();
    JoinedMeasuringWeightAndVolume();
    JoinedSlugMeasuringWeightAndVolume();
    KebabOfChunks(s, "measuring-weight-and-volume", [[Run("Measur", "measur"), Run("ing", "ing"), Sep(" "), Run("Weight", "weight")], [Sep(" "), Run("and", "and"), Sep(" "), Run("Volume", "volume")]], ["Measuring Weight", " and Volume"], ["measuring-weight", "-and-volume"], [Start, Word, Word]);
  }

  lemma SpellingComparingMeasurementsPart1()
    ensures "Comparing Measur" == Spelled([Run("Compar", "compar"), Run("ing", "ing"), Sep(" "), Run("Measur", "measur")], 0)
  {
  }

  lemma LexedComparingMeasurementsPart1()
    ensures Lexed([Run("Compar", "compar"), Run("ing", "ing"), Sep(" "), Run("Measur", "measur")], 0, Start)
  {
  }

  lemma FinalComparingMeasurementsPart1()
    ensures Final([Run("Compar", "compar"), Run("ing", "ing"), Sep(" "), Run("Measur", "measur")], 0, Start) == Word
  {
  }

  lemma SlugComparingMeasurementsPart1()
    ensures Slug([Run("Compar", "compar"), Run("ing", "ing"), Sep(" "), Run("Measur", "measur")], 0, Start) == "comparing-measur"
  {
  }

  lemma ChunkComparingMeasurementsPart1()
    ensures ChunkOk([Run("Compar", "compar"), Run("ing", "ing"), Sep(" "), Run("Measur", "measur")], "Comparing Measur", "comparing-measur", Start, Word)
  {
    SpellingComparingMeasurementsPart1();
    LexedComparingMeasurementsPart1();
    FinalComparingMeasurementsPart1();
    SlugComparingMeasurementsPart1();
  }

  lemma SpellingComparingMeasurementsPart2()
    ensures "ements" == Spelled([Run("ements", "ements")], 0)
  {
  }

  lemma LexedComparingMeasurementsPart2()
    ensures Lexed([Run("ements", "ements")], 0, Word)
  {
  }

  lemma FinalComparingMeasurementsPart2()
    ensures Final([Run("ements", "ements")], 0, Word) == Word
  {
  }

  lemma SlugComparingMeasurementsPart2()
    ensures Slug([Run("ements", "ements")], 0, Word) == "ements"
  {
  }

  lemma ChunkComparingMeasurementsPart2()
    ensures ChunkOk([Run("ements", "ements")], "ements", "ements", Word, Word)
  {
    SpellingComparingMeasurementsPart2();
    LexedComparingMeasurementsPart2();
    FinalComparingMeasurementsPart2();
    SlugComparingMeasurementsPart2();
  }

  lemma JoinedComparingMeasurements()
    ensures Concat(["Comparing Measur", "ements"]) == "Comparing Measurements"
  {
  }

  lemma JoinedSlugComparingMeasurements()
    ensures Concat(["comparing-measur", "ements"]) == "comparing-measurements"
  {
  }

  lemma ChunksComparingMeasurements()
    ensures ChunksOk([[Run("Compar", "compar"), Run("ing", "ing"), Sep(" "), Run("Measur", "measur")], [Run("ements", "ements")]], ["Comparing Measur", "ements"], ["comparing-measur", "ements"], [Start, Word, Word], 0)
  {
    ChunkComparingMeasurementsPart1();
    ChunkComparingMeasurementsPart2();
  }

  lemma KebabComparingMeasurements(s: string)
    requires s == "Comparing Measurements"
    ensures ToKebabCase(s) == "comparing-measurements"
  {
    ChunksComparingMeasurements();
    JoinedComparingMeasurements();
    JoinedSlugComparingMeasurements();
    KebabOfChunks(s, "comparing-measurements", [[Run("Compar", "compar"), Run("ing", "ing"), Sep(" "), Run("Measur", "measur")], [Run("ements", "ements")]], ["Comparing Measur", "ements"], ["comparing-measur", "ements"], [Start, Word, Word]);
  }

  lemma SpellingMeasuringTemperaturePart1()
    ensures "Measuring Temper" == Spelled([Run("Measur", "measur"), Run("ing", "ing"), Sep(" "), Run("Temper", "temper")], 0)
  {
  }

  lemma LexedMeasuringTemperaturePart1()
    ensures Lexed([Run("Measur", "measur"), Run("ing", "ing"), Sep(" "), Run("Temper", "temper")], 0, Start)
  {
  }

  lemma FinalMeasuringTemperaturePart1()
    ensures Final([Run("Measur", "measur"), Run("ing", "ing"), Sep(" "), Run("Temper", "temper")], 0, Start) == Word
  {
  }

  lemma SlugMeasuringTemperaturePart1()
    ensures Slug([Run("Measur", "measur"), Run("ing", "ing"), Sep(" "), Run("Temper", "temper")], 0, Start) == "measuring-temper"
  {
  }

  lemma ChunkMeasuringTemperaturePart1()
    ensures ChunkOk([Run("Measur", "measur"), Run("ing", "ing"), Sep(" "), Run("Temper", "temper")], "Measuring Temper", "measuring-temper", Start, Word)
  {
    SpellingMeasuringTemperaturePart1();
    LexedMeasuringTemperaturePart1();
    FinalMeasuringTemperaturePart1();
    SlugMeasuringTemperaturePart1();
  }

  lemma SpellingMeasuringTemperaturePart2()
    ensures "ature" == Spelled([Run("ature", "ature")], 0)
  {
  }

  lemma LexedMeasuringTemperaturePart2()
    ensures Lexed([Run("ature", "ature")], 0, Word)
  {
  }

  lemma FinalMeasuringTemperaturePart2()
    ensures Final([Run("ature", "ature")], 0, Word) == Word
  {
  }

  lemma SlugMeasuringTemperaturePart2()
    ensures Slug([Run("ature", "ature")], 0, Word) == "ature"
  {
  }

  lemma ChunkMeasuringTemperaturePart2()
    ensures ChunkOk([Run("ature", "ature")], "ature", "ature", Word, Word)
  {
    SpellingMeasuringTemperaturePart2();
    LexedMeasuringTemperaturePart2();
    FinalMeasuringTemperaturePart2();
    SlugMeasuringTemperaturePart2();
  }

  lemma JoinedMeasuringTemperature()
    ensures Concat(["Measuring Temper", "ature"]) == "Measuring Temperature"
  {
  }

  lemma JoinedSlugMeasuringTemperature()
    ensures Concat(["measuring-temper", "ature"]) == "measuring-temperature"
  {
  }

  lemma ChunksMeasuringTemperature()
    ensures ChunksOk([[Run("Measur", "measur"), Run("ing", "ing"), Sep(" "), Run("Temper", "temper")], [Run("ature", "ature")]], ["Measuring Temper", "ature"], ["measuring-temper", "ature"], [Start, Word, Word], 0)
  {
    ChunkMeasuringTemperaturePart1();
    ChunkMeasuringTemperaturePart2();
  }

  lemma KebabMeasuringTemperature(s: string)
    requires s == "Measuring Temperature"
    ensures ToKebabCase(s) == "measuring-temperature"
  {
    ChunksMeasuringTemperature();
    JoinedMeasuringTemperature();
    JoinedSlugMeasuringTemperature();
    KebabOfChunks(s, "measuring-temperature", [[Run("Measur", "measur"), Run("ing", "ing"), Sep(" "), Run("Temper", "temper")], [Run("ature", "ature")]], ["Measuring Temper", "ature"], ["measuring-temper", "ature"], [Start, Word, Word]);
  }

  lemma SpellingMeasuringTimePart1()
    ensures "Measuring Time" == Spelled([Run("Measur", "measur"), Run("ing", "ing"), Sep(" "), Run("Time", "time")], 0)
  {
  }

  lemma LexedMeasuringTimePart1()
    ensures Lexed([Run("Measur", "measur"), Run("ing", "ing"), Sep(" "), Run("Time", "time")], 0, Start)
  {
  }

  lemma FinalMeasuringTimePart1()
    ensures Final([Run("Measur", "measur"), Run("ing", "ing"), Sep(" "), Run("Time", "time")], 0, Start) == Word
  {
  }

  lemma SlugMeasuringTimePart1()
    ensures Slug([Run("Measur", "measur"), Run("ing", "ing"), Sep(" "), Run("Time", "time")], 0, Start) == "measuring-time"
  {
  }

  lemma ChunkMeasuringTimePart1()
    ensures ChunkOk([Run("Measur", "measur"), Run("ing", "ing"), Sep(" "), Run("Time", "time")], "Measuring Time", "measuring-time", Start, Word)
  {
    SpellingMeasuringTimePart1();
    LexedMeasuringTimePart1();
    FinalMeasuringTimePart1();
    SlugMeasuringTimePart1();
  }

  lemma JoinedMeasuringTime()
    ensures Concat(["Measuring Time"]) == "Measuring Time"
  {
  }

  lemma JoinedSlugMeasuringTime()
    ensures Concat(["measuring-time"]) == "measuring-time"
  {
  }

  lemma ChunksMeasuringTime()
    ensures ChunksOk([[Run("Measur", "measur"), Run("ing", "ing"), Sep(" "), Run("Time", "time")]], ["Measuring Time"], ["measuring-time"], [Start, Word], 0)
  {
    ChunkMeasuringTimePart1();
  }

  lemma KebabMeasuringTime(s: string)
    requires s == "Measuring Time"
    ensures ToKebabCase(s) == "measuring-time"
  {
    ChunksMeasuringTime();
    JoinedMeasuringTime();
    JoinedSlugMeasuringTime();
    KebabOfChunks(s, "measuring-time", [[Run("Measur", "measur"), Run("ing", "ing"), Sep(" "), Run("Time", "time")]], ["Measuring Time"], ["measuring-time"], [Start, Word]);
  }

  lemma SpellingStandardUnitsOfMoneyPart1()
    ensures "Standard Units " == Spelled([Run("Standa", "standa"), Run("rd", "rd"), Sep(" "), Run("Units", "units"), Sep(" ")], 0)
  {
  }

  lemma LexedStandardUnitsOfMoneyPart1()
    ensures Lexed([Run("Standa", "standa"), Run("rd", "rd"), Sep(" "), Run("Units", "units"), Sep(" ")], 0, Start)
  {
  }

  lemma FinalStandardUnitsOfMoneyPart1()
    ensures Final([Run("Standa", "standa"), Run("rd", "rd"), Sep(" "), Run("Units", "units"), Sep(" ")], 0, Start) == Gap
  {
  }

  lemma SlugStandardUnitsOfMoneyPart1()
    ensures Slug([Run("Standa", "standa"), Run("rd", "rd"), Sep(" "), Run("Units", "units"), Sep(" ")], 0, Start) == "standard-units"
  {
  }

  lemma ChunkStandardUnitsOfMoneyPart1()
    ensures ChunkOk([Run("Standa", "standa"), Run("rd", "rd"), Sep(" "), Run("Units", "units"), Sep(" ")], "Standard Units ", "standard-units", Start, Gap)
  {
    SpellingStandardUnitsOfMoneyPart1();
    LexedStandardUnitsOfMoneyPart1();
    FinalStandardUnitsOfMoneyPart1();
    SlugStandardUnitsOfMoneyPart1();
  }

  lemma SpellingStandardUnitsOfMoneyPart2()
    ensures "of Money" == Spelled([Run("of", "of"), Sep(" "), Run("Money", "money")], 0)
  {
  }

  lemma LexedStandardUnitsOfMoneyPart2()
    ensures Lexed([Run("of", "of"), Sep(" "), Run("Money", "money")], 0, Gap)
  {
  }

  lemma FinalStandardUnitsOfMoneyPart2()
    ensures Final([Run("of", "of"), Sep(" "), Run("Money", "money")], 0, Gap) == Word
  {
  }

  lemma SlugStandardUnitsOfMoneyPart2()
    ensures Slug([Run("of", "of"), Sep(" "), Run("Money", "money")], 0, Gap) == "-of-money"
  {
  }

  lemma ChunkStandardUnitsOfMoneyPart2()
    ensures ChunkOk([Run("of", "of"), Sep(" "), Run("Money", "money")], "of Money", "-of-money", Gap, Word)
  {
    SpellingStandardUnitsOfMoneyPart2();
    LexedStandardUnitsOfMoneyPart2();
    FinalStandardUnitsOfMoneyPart2();
    SlugStandardUnitsOfMoneyPart2();
  }

  lemma JoinedStandardUnitsOfMoney()
    ensures Concat(["Standard Units ", "of Money"]) == "Standard Units of Money"
  {
  }

  lemma JoinedSlugStandardUnitsOfMoney()
    ensures Concat(["standard-units", "-of-money"]) == "standard-units-of-money"
  {
  }

  lemma ChunksStandardUnitsOfMoney()
    ensures ChunksOk([[Run("Standa", "standa"), Run("rd", "rd"), Sep(" "), Run("Units", "units"), Sep(" ")], [Run("of", "of"), Sep(" "), Run("Money", "money")]], ["Standard Units ", "of Money"], ["standard-units", "-of-money"], [Start, Gap, Word], 0)
  {
    ChunkStandardUnitsOfMoneyPart1();
    ChunkStandardUnitsOfMoneyPart2();
  }

  lemma KebabStandardUnitsOfMoney(s: string)
    requires s == "Standard Units of Money"
    ensures ToKebabCase(s) == "standard-units-of-money"
  {
    ChunksStandardUnitsOfMoney();
    JoinedStandardUnitsOfMoney();
    JoinedSlugStandardUnitsOfMoney();
    KebabOfChunks(s, "standard-units-of-money", [[Run("Standa", "standa"), Run("rd", "rd"), Sep(" "), Run("Units", "units"), Sep(" ")], [Run("of", "of"), Sep(" "), Run("Money", "money")]], ["Standard Units ", "of Money"], ["standard-units", "-of-money"], [Start, Gap, Word]);
  }

  lemma SpellingMoneyProblemsPart1()
    ensures "Money Problems" == Spelled([Run("Money", "money"), Sep(" "), Run("Proble", "proble"), Run("ms", "ms")], 0)
  {
  }

  lemma LexedMoneyProblemsPart1()
    ensures Lexed([Run("Money", "money"), Sep(" "), Run("Proble", "proble"), Run("ms", "ms")], 0, Start)
  {
  }

  lemma FinalMoneyProblemsPart1()
    ensures Final([Run("Money", "money"), Sep(" "), Run("Proble", "proble"), Run("ms", "ms")], 0, Start) == Word
  {
  }

  lemma SlugMoneyProblemsPart1()
    ensures Slug([Run("Money", "money"), Sep(" "), Run("Proble", "proble"), Run("ms", "ms")], 0, Start) == "money-problems"
  {
  }

  lemma ChunkMoneyProblemsPart1()
    ensures ChunkOk([Run("Money", "money"), Sep(" "), Run("Proble", "proble"), Run("ms", "ms")], "Money Problems", "money-problems", Start, Word)
  {
    SpellingMoneyProblemsPart1();
    LexedMoneyProblemsPart1();
    FinalMoneyProblemsPart1();
    SlugMoneyProblemsPart1();
  }

  lemma JoinedMoneyProblems()
    ensures Concat(["Money Problems"]) == "Money Problems"
  {
  }

  lemma JoinedSlugMoneyProblems()
    ensures Concat(["money-problems"]) == "money-problems"
  {
  }

  lemma ChunksMoneyProblems()
    ensures ChunksOk([[Run("Money", "money"), Sep(" "), Run("Proble", "proble"), Run("ms", "ms")]], ["Money Problems"], ["money-problems"], [Start, Word], 0)
  {
    ChunkMoneyProblemsPart1();
  }

  lemma KebabMoneyProblems(s: string)
    requires s == "Money Problems"
    ensures ToKebabCase(s) == "money-problems"
  {
    ChunksMoneyProblems();
    JoinedMoneyProblems();
    JoinedSlugMoneyProblems();
    KebabOfChunks(s, "money-problems", [[Run("Money", "money"), Sep(" "), Run("Proble", "proble"), Run("ms", "ms")]], ["Money Problems"], ["money-problems"], [Start, Word]);
  }

  lemma SpellingGeometryPropertiesOfShapesPart1()
    ensures "Geometry \U{2013} " == Spelled([Run("Geomet", "geomet"), Run("ry", "ry"), Sep(" \U{2013} ")], 0)
  {
  }

  lemma LexedGeometryPropertiesOfShapesPart1()
    ensures Lexed([Run("Geomet", "geomet"), Run("ry", "ry"), Sep(" \U{2013} ")], 0, Start)
  {
  }

  lemma FinalGeometryPropertiesOfShapesPart1()
    ensures Final([Run("Geomet", "geomet"), Run("ry", "ry"), Sep(" \U{2013} ")], 0, Start) == Gap
  {
  }

  lemma SlugGeometryPropertiesOfShapesPart1()
    ensures Slug([Run("Geomet", "geomet"), Run("ry", "ry"), Sep(" \U{2013} ")], 0, Start) == "geometry"
  {
  }

  lemma ChunkGeometryPropertiesOfShapesPart1()
    ensures ChunkOk([Run("Geomet", "geomet"), Run("ry", "ry"), Sep(" \U{2013} ")], "Geometry \U{2013} ", "geometry", Start, Gap)
  {
    SpellingGeometryPropertiesOfShapesPart1();
    LexedGeometryPropertiesOfShapesPart1();
    FinalGeometryPropertiesOfShapesPart1();
    SlugGeometryPropertiesOfShapesPart1();
  }

  lemma SpellingGeometryPropertiesOfShapesPart2()
    ensures "Properties of " == Spelled([Run("Proper", "proper"), Run("ties", "ties"), Sep(" "), Run("of", "of"), Sep(" ")], 0)
  {
  }

  lemma LexedGeometryPropertiesOfShapesPart2()
    ensures Lexed([Run("Proper", "proper"), Run("ties", "ties"), Sep(" "), Run("of", "of"), Sep(" ")], 0, Gap)
  {
  }

  lemma FinalGeometryPropertiesOfShapesPart2()
    ensures Final([Run("Proper", "proper"), Run("ties", "ties"), Sep(" "), Run("of", "of"), Sep(" ")], 0, Gap) == Gap
  {
  }

  lemma SlugGeometryPropertiesOfShapesPart2()
    ensures Slug([Run("Proper", "proper"), Run("ties", "ties"), Sep(" "), Run("of", "of"), Sep(" ")], 0, Gap) == "-properties-of"
  {
  }

  lemma ChunkGeometryPropertiesOfShapesPart2()
    ensures ChunkOk([Run("Proper", "proper"), Run("ties", "ties"), Sep(" "), Run("of", "of"), Sep(" ")], "Properties of ", "-properties-of", Gap, Gap)
  {
    SpellingGeometryPropertiesOfShapesPart2();
    LexedGeometryPropertiesOfShapesPart2();
    FinalGeometryPropertiesOfShapesPart2();
    SlugGeometryPropertiesOfShapesPart2();
  }

  lemma SpellingGeometryPropertiesOfShapesPart3()
    ensures "Shapes" == Spelled([Run("Shapes", "shapes")], 0)
  {
  }

  lemma LexedGeometryPropertiesOfShapesPart3()
    ensures Lexed([Run("Shapes", "shapes")], 0, Gap)
  {
  }

  lemma FinalGeometryPropertiesOfShapesPart3()
    ensures Final([Run("Shapes", "shapes")], 0, Gap) == Word
  {
  }

  lemma SlugGeometryPropertiesOfShapesPart3()
    ensures Slug([Run("Shapes", "shapes")], 0, Gap) == "-shapes"
  {
  }

  lemma ChunkGeometryPropertiesOfShapesPart3()
    ensures ChunkOk([Run("Shapes", "shapes")], "Shapes", "-shapes", Gap, Word)
  {
    SpellingGeometryPropertiesOfShapesPart3();
    LexedGeometryPropertiesOfShapesPart3();
    FinalGeometryPropertiesOfShapesPart3();
    SlugGeometryPropertiesOfShapesPart3();
  }

  lemma JoinedGeometryPropertiesOfShapesL()
    ensures Concat(["Geometry \U{2013} "]) == "Geometry \U{2013} "
  {
  }

  lemma JoinedGeometryPropertiesOfShapesR()
    ensures Concat(["Properties of ", "Shapes"]) == "Properties of Shapes"
  {
  }

  lemma JoinedGeometryPropertiesOfShapesCut()
    ensures "Geometry \U{2013} Properties of Shapes" == "Geometry \U{2013} " + "Properties of Shapes"
  {
  }

  lemma JoinedGeometryPropertiesOfShapesList()
    ensures ["Geometry \U{2013} ", "Properties of ", "Shapes"] == ["Geometry \U{2013} "] + ["Properties of ", "Shapes"]
  {
  }

  lemma JoinedGeometryPropertiesOfShapes()
    ensures Concat(["Geometry \U{2013} ", "Properties of ", "Shapes"]) == "Geometry \U{2013} Properties of Shapes"
  {
    JoinedGeometryPropertiesOfShapesL();
    JoinedGeometryPropertiesOfShapesR();
    JoinedGeometryPropertiesOfShapesCut();
    JoinedGeometryPropertiesOfShapesList();
    ConcatAppend(["Geometry \U{2013} "], ["Properties of ", "Shapes"]);
  }

  lemma JoinedSlugGeometryPropertiesOfShapesL()
    ensures Concat(["geometry"]) == "geometry"
  {
  }

  lemma JoinedSlugGeometryPropertiesOfShapesR()
    ensures Concat(["-properties-of", "-shapes"]) == "-properties-of-shapes"
  {
  }

  lemma JoinedSlugGeometryPropertiesOfShapesCut()
    ensures "geometry-properties-of-shapes" == "geometry" + "-properties-of-shapes"
  {
  }

  lemma JoinedSlugGeometryPropertiesOfShapesList()
    ensures ["geometry", "-properties-of", "-shapes"] == ["geometry"] + ["-properties-of", "-shapes"]
  {
  }

  lemma JoinedSlugGeometryPropertiesOfShapes()
    ensures Concat(["geometry", "-properties-of", "-shapes"]) == "geometry-properties-of-shapes"
  {
    JoinedSlugGeometryPropertiesOfShapesL();
    JoinedSlugGeometryPropertiesOfShapesR();
    JoinedSlugGeometryPropertiesOfShapesCut();
    JoinedSlugGeometryPropertiesOfShapesList();
    ConcatAppend(["geometry"], ["-properties-of", "-shapes"]);
  }

  lemma ChunksGeometryPropertiesOfShapes()
    ensures ChunksOk([[Run("Geomet", "geomet"), Run("ry", "ry"), Sep(" \U{2013} ")], [Run("Proper", "proper"), Run("ties", "ties"), Sep(" "), Run("of", "of"), Sep(" ")], [Run("Shapes", "shapes")]], ["Geometry \U{2013} ", "Properties of ", "Shapes"], ["geometry", "-properties-of", "-shapes"], [Start, Gap, Gap, Word], 0)
  {
    ChunkGeometryPropertiesOfShapesPart1();
    ChunkGeometryPropertiesOfShapesPart2();
    ChunkGeometryPropertiesOfShapesPart3();
  }

  lemma KebabGeometryPropertiesOfShapes(s: string)
    requires s == "Geometry \U{2013} Properties of Shapes"
    ensures ToKebabCase(s) == "geometry-properties-of-shapes"
  {
    ChunksGeometryPropertiesOfShapes();
    JoinedGeometryPropertiesOfShapes();
    JoinedSlugGeometryPropertiesOfShapes();
    KebabOfChunks(s, "geometry-properties-of-shapes", [[Run("Geomet", "geomet"), Run("ry", "ry"), Sep(" \U{2013} ")], [Run("Proper", "proper"), Run("ties", "ties"), Sep(" "), Run("of", "of"), Sep(" ")], [Run("Shapes", "shapes")]], ["Geometry \U{2013} ", "Properties of ", "Shapes"], ["geometry", "-properties-of", "-shapes"], [Start, Gap, Gap, Word]);
  }

  lemma Spelling2DShapesPart1()
    ensures "2-D Shapes" == Spelled([Run("2-D", "2-d"), Sep(" "), Run("Shapes", "shapes")], 0)
  {
  }

  lemma Lexed2DShapesPart1()
    ensures Lexed([Run("2-D", "2-d"), Sep(" "), Run("Shapes", "shapes")], 0, Start)
  {
  }

  lemma Final2DShapesPart1()
    ensures Final([Run("2-D", "2-d"), Sep(" "), Run("Shapes", "shapes")], 0, Start) == Word
  {
  }

  lemma Slug2DShapesPart1()
    ensures Slug([Run("2-D", "2-d"), Sep(" "), Run("Shapes", "shapes")], 0, Start) == "2-d-shapes"
  {
  }

  lemma Chunk2DShapesPart1()
    ensures ChunkOk([Run("2-D", "2-d"), Sep(" "), Run("Shapes", "shapes")], "2-D Shapes", "2-d-shapes", Start, Word)
  {
    Spelling2DShapesPart1();
    Lexed2DShapesPart1();
    Final2DShapesPart1();
    Slug2DShapesPart1();
  }

  lemma Joined2DShapes()
    ensures Concat(["2-D Shapes"]) == "2-D Shapes"
  {
  }

  lemma JoinedSlug2DShapes()
    ensures Concat(["2-d-shapes"]) == "2-d-shapes"
  {
  }

  lemma Chunks2DShapes()
    ensures ChunksOk([[Run("2-D", "2-d"), Sep(" "), Run("Shapes", "shapes")]], ["2-D Shapes"], ["2-d-shapes"], [Start, Word], 0)
  {
    Chunk2DShapesPart1();
  }

  lemma Kebab2DShapes(s: string)
    requires s == "2-D Shapes"
    ensures ToKebabCase(s) == "2-d-shapes"
  {
    Chunks2DShapes();
    Joined2DShapes();
    JoinedSlug2DShapes();
    KebabOfChunks(s, "2-d-shapes", [[Run("2-D", "2-d"), Sep(" "), Run("Shapes", "shapes")]], ["2-D Shapes"], ["2-d-shapes"], [Start, Word]);
  }

  lemma Spelling3DShapesPart1()
    ensures "3-D Shapes" == Spelled([Run("3-D", "3-d"), Sep(" "), Run("Shapes", "shapes")], 0)
  {
  }

  lemma Lexed3DShapesPart1()
    ensures Lexed([Run("3-D", "3-d"), Sep(" "), Run("Shapes", "shapes")], 0, Start)
  {
  }

  lemma Final3DShapesPart1()
    ensures Final([Run("3-D", "3-d"), Sep(" "), Run("Shapes", "shapes")], 0, Start) == Word
  {
  }

  lemma Slug3DShapesPart1()
    ensures Slug([Run("3-D", "3-d"), Sep(" "), Run("Shapes", "shapes")], 0, Start) == "3-d-shapes"
  {
  }

  lemma Chunk3DShapesPart1()
    ensures ChunkOk([Run("3-D", "3-d"), Sep(" "), Run("Shapes", "shapes")], "3-D Shapes", "3-d-shapes", Start, Word)
  {
    Spelling3DShapesPart1();
    Lexed3DShapesPart1();
    Final3DShapesPart1();
    Slug3DShapesPart1();
  }

  lemma Joined3DShapes()
    ensures Concat(["3-D Shapes"]) == "3-D Shapes"
  {
  }

  lemma JoinedSlug3DShapes()
    ensures Concat(["3-d-shapes"]) == "3-d-shapes"
  {
  }

  lemma Chunks3DShapes()
    ensures ChunksOk([[Run("3-D", "3-d"), Sep(" "), Run("Shapes", "shapes")]], ["3-D Shapes"], ["3-d-shapes"], [Start, Word], 0)
  {
    Chunk3DShapesPart1();
  }

  lemma Kebab3DShapes(s: string)
    requires s == "3-D Shapes"
    ensures ToKebabCase(s) == "3-d-shapes"
  {
    Chunks3DShapes();
    Joined3DShapes();
    JoinedSlug3DShapes();
    KebabOfChunks(s, "3-d-shapes", [[Run("3-D", "3-d"), Sep(" "), Run("Shapes", "shapes")]], ["3-D Shapes"], ["3-d-shapes"], [Start, Word]);
  }

  lemma SpellingDifferentShapesPart1()
    ensures "Different Shapes" == Spelled([Run("Differ", "differ"), Run("ent", "ent"), Sep(" "), Run("Shapes", "shapes")], 0)
  {
  }

  lemma LexedDifferentShapesPart1()
    ensures Lexed([Run("Differ", "differ"), Run("ent", "ent"), Sep(" "), Run("Shapes", "shapes")], 0, Start)
  {
  }

  lemma FinalDifferentShapesPart1()
    ensures Final([Run("Differ", "differ"), Run("ent", "ent"), Sep(" "), Run("Shapes", "shapes")], 0, Start) == Word
  {
  }

  lemma SlugDifferentShapesPart1()
    ensures Slug([Run("Differ", "differ"), Run("ent", "ent"), Sep(" "), Run("Shapes", "shapes")], 0, Start) == "different-shapes"
  {
  }

  lemma ChunkDifferentShapesPart1()
    ensures ChunkOk([Run("Differ", "differ"), Run("ent", "ent"), Sep(" "), Run("Shapes", "shapes")], "Different Shapes", "different-shapes", Start, Word)
  {
    SpellingDifferentShapesPart1();
    LexedDifferentShapesPart1();
    FinalDifferentShapesPart1();
    SlugDifferentShapesPart1();
  }

  lemma JoinedDifferentShapes()
    ensures Concat(["Different Shapes"]) == "Different Shapes"
  {
  }

  lemma JoinedSlugDifferentShapes()
    ensures Concat(["different-shapes"]) == "different-shapes"
  {
  }

  lemma ChunksDifferentShapes()
    ensures ChunksOk([[Run("Differ", "differ"), Run("ent", "ent"), Sep(" "), Run("Shapes", "shapes")]], ["Different Shapes"], ["different-shapes"], [Start, Word], 0)
  {
    ChunkDifferentShapesPart1();
  }

  lemma KebabDifferentShapes(s: string)
    requires s == "Different Shapes"
    ensures ToKebabCase(s) == "different-shapes"
  {
    ChunksDifferentShapes();
    JoinedDifferentShapes();
    JoinedSlugDifferentShapes();
    KebabOfChunks(s, "different-shapes", [[Run("Differ", "differ"), Run("ent", "ent"), Sep(" "), Run("Shapes", "shapes")]], ["Different Shapes"], ["different-shapes"], [Start, Word]);
  }

  lemma SpellingGeometryPositionAndDirectionPart1()
    ensures "Geometry \U{2013} " == Spelled([Run("Geomet", "geomet"), Run("ry", "ry"), Sep(" \U{2013} ")], 0)
  {
  }

  lemma LexedGeometryPositionAndDirectionPart1()
    ensures Lexed([Run("Geomet", "geomet"), Run("ry", "ry"), Sep(" \U{2013} ")], 0, Start)
  {
  }

  lemma FinalGeometryPositionAndDirectionPart1()
    ensures Final([Run("Geomet", "geomet"), Run("ry", "ry"), Sep(" \U{2013} ")], 0, Start) == Gap
  {
  }

  lemma SlugGeometryPositionAndDirectionPart1()
    ensures Slug([Run("Geomet", "geomet"), Run("ry", "ry"), Sep(" \U{2013} ")], 0, Start) == "geometry"
  {
  }

  lemma ChunkGeometryPositionAndDirectionPart1()
    ensures ChunkOk([Run("Geomet", "geomet"), Run("ry", "ry"), Sep(" \U{2013} ")], "Geometry \U{2013} ", "geometry", Start, Gap)
  {
    SpellingGeometryPositionAndDirectionPart1();
    LexedGeometryPositionAndDirectionPart1();
    FinalGeometryPositionAndDirectionPart1();
    SlugGeometryPositionAndDirectionPart1();
  }

  lemma SpellingGeometryPositionAndDirectionPart2()
    ensures "Position and " == Spelled([Run("Positi", "positi"), Run("on", "on"), Sep(" "), Run("and", "and"), Sep(" ")], 0)
  {
  }

  lemma LexedGeometryPositionAndDirectionPart2()
    ensures Lexed([Run("Positi", "positi"), Run("on", "on"), Sep(" "), Run("and", "and"), Sep(" ")], 0, Gap)
  {
  }

  lemma FinalGeometryPositionAndDirectionPart2()
    ensures Final([Run("Positi", "positi"), Run("on", "on"), Sep(" "), Run("and", "and"), Sep(" ")], 0, Gap) == Gap
  {
  }

  lemma SlugGeometryPositionAndDirectionPart2()
    ensures Slug([Run("Positi", "positi"), Run("on", "on"), Sep(" "), Run("and", "and"), Sep(" ")], 0, Gap) == "-position-and"
  {
  }

  lemma ChunkGeometryPositionAndDirectionPart2()
    ensures ChunkOk([Run("Positi", "positi"), Run("on", "on"), Sep(" "), Run("and", "and"), Sep(" ")], "Position and ", "-position-and", Gap, Gap)
  {
    SpellingGeometryPositionAndDirectionPart2();
    LexedGeometryPositionAndDirectionPart2();
    FinalGeometryPositionAndDirectionPart2();
    SlugGeometryPositionAndDirectionPart2();
  }

  lemma SpellingGeometryPositionAndDirectionPart3()
    ensures "Direction" == Spelled([Run("Direct", "direct"), Run("ion", "ion")], 0)
  {
  }

  lemma LexedGeometryPositionAndDirectionPart3()
    ensures Lexed([Run("Direct", "direct"), Run("ion", "ion")], 0, Gap)
  {
  }

  lemma FinalGeometryPositionAndDirectionPart3()
    ensures Final([Run("Direct", "direct"), Run("ion", "ion")], 0, Gap) == Word
  {
  }

  lemma SlugGeometryPositionAndDirectionPart3()
    ensures Slug([Run("Direct", "direct"), Run("ion", "ion")], 0, Gap) == "-direction"
  {
  }

  lemma ChunkGeometryPositionAndDirectionPart3()
    ensures ChunkOk([Run("Direct", "direct"), Run("ion", "ion")], "Direction", "-direction", Gap, Word)
  {
    SpellingGeometryPositionAndDirectionPart3();
    LexedGeometryPositionAndDirectionPart3();
    FinalGeometryPositionAndDirectionPart3();
    SlugGeometryPositionAndDirectionPart3();
  }

  lemma JoinedGeometryPositionAndDirectionL()
    ensures Concat(["Geometry \U{2013} "]) == "Geometry \U{2013} "
  {
  }

  lemma JoinedGeometryPositionAndDirectionR()
    ensures Concat(["Position and ", "Direction"]) == "Position and Direction"
  {
  }

  lemma JoinedGeometryPositionAndDirectionCut()
    ensures "Geometry \U{2013} Position and Direction" == "Geometry \U{2013} " + "Position and Direction"
  {
  }

  lemma JoinedGeometryPositionAndDirectionList()
    ensures ["Geometry \U{2013} ", "Position and ", "Direction"] == ["Geometry \U{2013} "] + ["Position and ", "Direction"]
  {
  }

  lemma JoinedGeometryPositionAndDirection()
    ensures Concat(["Geometry \U{2013} ", "Position and ", "Direction"]) == "Geometry \U{2013} Position and Direction"
  {
    JoinedGeometryPositionAndDirectionL();
    JoinedGeometryPositionAndDirectionR();
    JoinedGeometryPositionAndDirectionCut();
    JoinedGeometryPositionAndDirectionList();
    ConcatAppend(["Geometry \U{2013} "], ["Position and ", "Direction"]);
  }

  lemma JoinedSlugGeometryPositionAndDirectionL()
    ensures Concat(["geometry"]) == "geometry"
  {
  }

  lemma JoinedSlugGeometryPositionAndDirectionR()
    ensures Concat(["-position-and", "-direction"]) == "-position-and-direction"
  {
  }

  lemma JoinedSlugGeometryPositionAndDirectionCut()
    ensures "geometry-position-and-direction" == "geometry" + "-position-and-direction"
  {
  }

  lemma JoinedSlugGeometryPositionAndDirectionList()
    ensures ["geometry", "-position-and", "-direction"] == ["geometry"] + ["-position-and", "-direction"]
  {
  }

  lemma JoinedSlugGeometryPositionAndDirection()
    ensures Concat(["geometry", "-position-and", "-direction"]) == "geometry-position-and-direction"
  {
    JoinedSlugGeometryPositionAndDirectionL();
    JoinedSlugGeometryPositionAndDirectionR();
    JoinedSlugGeometryPositionAndDirectionCut();
    JoinedSlugGeometryPositionAndDirectionList();
    ConcatAppend(["geometry"], ["-position-and", "-direction"]);
  }

  lemma ChunksGeometryPositionAndDirection()
    ensures ChunksOk([[Run("Geomet", "geomet"), Run("ry", "ry"), Sep(" \U{2013} ")], [Run("Positi", "positi"), Run("on", "on"), Sep(" "), Run("and", "and"), Sep(" ")], [Run("Direct", "direct"), Run("ion", "ion")]], ["Geometry \U{2013} ", "Position and ", "Direction"], ["geometry", "-position-and", "-direction"], [Start, Gap, Gap, Word], 0)
  {
    ChunkGeometryPositionAndDirectionPart1();
    ChunkGeometryPositionAndDirectionPart2();
    ChunkGeometryPositionAndDirectionPart3();
  }

  lemma KebabGeometryPositionAndDirection(s: string)
    requires s == "Geometry \U{2013} Position and Direction"
    ensures ToKebabCase(s) == "geometry-position-and-direction"
  {
    ChunksGeometryPositionAndDirection();
    JoinedGeometryPositionAndDirection();
    JoinedSlugGeometryPositionAndDirection();
    KebabOfChunks(s, "geometry-position-and-direction", [[Run("Geomet", "geomet"), Run("ry", "ry"), Sep(" \U{2013} ")], [Run("Positi", "positi"), Run("on", "on"), Sep(" "), Run("and", "and"), Sep(" ")], [Run("Direct", "direct"), Run("ion", "ion")]], ["Geometry \U{2013} ", "Position and ", "Direction"], ["geometry", "-position-and", "-direction"], [Start, Gap, Gap, Word]);
  }

  lemma SpellingPatternsPart1()
    ensures "Patterns" == Spelled([Run("Patter", "patter"), Run("ns", "ns")], 0)
  {
  }

  lemma LexedPatternsPart1()
    ensures Lexed([Run("Patter", "patter"), Run("ns", "ns")], 0, Start)
  {
  }

  lemma FinalPatternsPart1()
    ensures Final([Run("Patter", "patter"), Run("ns", "ns")], 0, Start) == Word
  {
  }

  lemma SlugPatternsPart1()
    ensures Slug([Run("Patter", "patter"), Run("ns", "ns")], 0, Start) == "patterns"
  {
  }

  lemma ChunkPatternsPart1()
    ensures ChunkOk([Run("Patter", "patter"), Run("ns", "ns")], "Patterns", "patterns", Start, Word)
  {
    SpellingPatternsPart1();
    LexedPatternsPart1();
    FinalPatternsPart1();
    SlugPatternsPart1();
  }

  lemma JoinedPatterns()
    ensures Concat(["Patterns"]) == "Patterns"
  {
  }

  lemma JoinedSlugPatterns()
    ensures Concat(["patterns"]) == "patterns"
  {
  }

  lemma ChunksPatterns()
    ensures ChunksOk([[Run("Patter", "patter"), Run("ns", "ns")]], ["Patterns"], ["patterns"], [Start, Word], 0)
  {
    ChunkPatternsPart1();
  }

  lemma KebabPatterns(s: string)
    requires s == "Patterns"
    ensures ToKebabCase(s) == "patterns"
  {
    ChunksPatterns();
    JoinedPatterns();
    JoinedSlugPatterns();
    KebabOfChunks(s, "patterns", [[Run("Patter", "patter"), Run("ns", "ns")]], ["Patterns"], ["patterns"], [Start, Word]);
  }

  lemma SpellingSequencesPart1()
    ensures "Sequences" == Spelled([Run("Sequen", "sequen"), Run("ces", "ces")], 0)
  {
  }

  lemma LexedSequencesPart1()
    ensures Lexed([Run("Sequen", "sequen"), Run("ces", "ces")], 0, Start)
  {
  }

  lemma FinalSequencesPart1()
    ensures Final([Run("Sequen", "sequen"), Run("ces", "ces")], 0, Start) == Word
  {
  }

  lemma SlugSequencesPart1()
    ensures Slug([Run("Sequen", "sequen"), Run("ces", "ces")], 0, Start) == "sequences"
  {
  }

  lemma ChunkSequencesPart1()
    ensures ChunkOk([Run("Sequen", "sequen"), Run("ces", "ces")], "Sequences", "sequences", Start, Word)
  {
    SpellingSequencesPart1();
    LexedSequencesPart1();
    FinalSequencesPart1();
    SlugSequencesPart1();
  }

  lemma JoinedSequences()
    ensures Concat(["Sequences"]) == "Sequences"
  {
  }

  lemma JoinedSlugSequences()
    ensures Concat(["sequences"]) == "sequences"
  {
  }

  lemma ChunksSequences()
    ensures ChunksOk([[Run("Sequen", "sequen"), Run("ces", "ces")]], ["Sequences"], ["sequences"], [Start, Word], 0)
  {
    ChunkSequencesPart1();
  }

  lemma KebabSequences(s: string)
    requires s == "Sequences"
    ensures ToKebabCase(s) == "sequences"
  {
    ChunksSequences();
    JoinedSequences();
    JoinedSlugSequences();
    KebabOfChunks(s, "sequences", [[Run("Sequen", "sequen"), Run("ces", "ces")]], ["Sequences"], ["sequences"], [Start, Word]);
  }

  lemma SpellingQuarterTurnsAndHalfTurnsPart1()
    ensures "Quarter Turns " == Spelled([Run("Quarte", "quarte"), Run("r", "r"), Sep(" "), Run("Turns", "turns"), Sep(" ")], 0)
  {
  }

  lemma LexedQuarterTurnsAndHalfTurnsPart1()
    ensures Lexed([Run("Quarte", "quarte"), Run("r", "r"), Sep(" "), Run("Turns", "turns"), Sep(" ")], 0, Start)
  {
  }

  lemma FinalQuarterTurnsAndHalfTurnsPart1()
    ensures Final([Run("Quarte", "quarte"), Run("r", "r"), Sep(" "), Run("Turns", "turns"), Sep(" ")], 0, Start) == Gap
  {
  }

  lemma SlugQuarterTurnsAndHalfTurnsPart1()
    ensures Slug([Run("Quarte", "quarte"), Run("r", "r"), Sep(" "), Run("Turns", "turns"), Sep(" ")], 0, Start) == "quarter-turns"
  {
  }

  lemma ChunkQuarterTurnsAndHalfTurnsPart1()
    ensures ChunkOk([Run("Quarte", "quarte"), Run("r", "r"), Sep(" "), Run("Turns", "turns"), Sep(" ")], "Quarter Turns ", "quarter-turns", Start, Gap)
  {
    SpellingQuarterTurnsAndHalfTurnsPart1();
    LexedQuarterTurnsAndHalfTurnsPart1();
    FinalQuarterTurnsAndHalfTurnsPart1();
    SlugQuarterTurnsAndHalfTurnsPart1();
  }

  lemma SpellingQuarterTurnsAndHalfTurnsPart2()
    ensures "and Half Turns" == Spelled([Run("and", "and"), Sep(" "), Run("Half", "half"), Sep(" "), Run("Turns", "turns")], 0)
  {
  }

  lemma LexedQuarterTurnsAndHalfTurnsPart2()
    ensures Lexed([Run("and", "and"), Sep(" "), Run("Half", "half"), Sep(" "), Run("Turns", "turns")], 0, Gap)
  {
  }

  lemma FinalQuarterTurnsAndHalfTurnsPart2()
    ensures Final([Run("and", "and"), Sep(" "), Run("Half", "half"), Sep(" "), Run("Turns", "turns")], 0, Gap) == Word
  {
  }

  lemma SlugQuarterTurnsAndHalfTurnsPart2()
    ensures Slug([Run("and", "and"), Sep(" "), Run("Half", "half"), Sep(" "), Run("Turns", "turns")], 0, Gap) == "-and-half-turns"
  {
  }

  lemma ChunkQuarterTurnsAndHalfTurnsPart2()
    ensures ChunkOk([Run("and", "and"), Sep(" "), Run("Half", "half"), Sep(" "), Run("Turns", "turns")], "and Half Turns", "-and-half-turns", Gap, Word)
  {
    SpellingQuarterTurnsAndHalfTurnsPart2();
    LexedQuarterTurnsAndHalfTurnsPart2();
    FinalQuarterTurnsAndHalfTurnsPart2();
    SlugQuarterTurnsAndHalfTurnsPart2();
  }

  lemma JoinedQuarterTurnsAndHalfTurns()
    ensures Concat(["Quarter Turns ", "and Half Turns"]) == "Quarter Turns and Half Turns"
  {
  }

  lemma JoinedSlugQuarterTurnsAndHalfTurns()
    ensures Concat(["quarter-turns", "-and-half-turns"]) == "quarter-turns-and-half-turns"
  {
  }

  lemma ChunksQuarterTurnsAndHalfTurns()
    ensures ChunksOk([[Run("Quarte", "quarte"), Run("r", "r"), Sep(" "), Run("Turns", "turns"), Sep(" ")], [Run("and", "and"), Sep(" "), Run("Half", "half"), Sep(" "), Run("Turns", "turns")]], ["Quarter Turns ", "and Half Turns"], ["quarter-turns", "-and-half-turns"], [Start, Gap, Word], 0)
  {
    ChunkQuarterTurnsAndHalfTurnsPart1();
    ChunkQuarterTurnsAndHalfTurnsPart2();
  }

  lemma KebabQuarterTurnsAndHalfTurns(s: string)
    requires s == "Quarter Turns and Half Turns"
    ensures ToKebabCase(s) == "quarter-turns-and-half-turns"
  {
    ChunksQuarterTurnsAndHalfTurns();
    JoinedQuarterTurnsAndHalfTurns();
    JoinedSlugQuarterTurnsAndHalfTurns();
    KebabOfChunks(s, "quarter-turns-and-half-turns", [[Run("Quarte", "quarte"), Run("r", "r"), Sep(" "), Run("Turns", "turns"), Sep(" ")], [Run("and", "and"), Sep(" "), Run("Half", "half"), Sep(" "), Run("Turns", "turns")]], ["Quarter Turns ", "and Half Turns"], ["quarter-turns", "-and-half-turns"], [Start, Gap, Word]);
  }

  lemma SpellingRightAngleTurnsPart1()
    ensures "Right-Angle " == Spelled([Run("Right-", "right-"), Run("Angle", "angle"), Sep(" ")], 0)
  {
  }

  lemma LexedRightAngleTurnsPart1()
    ensures Lexed([Run("Right-", "right-"), Run("Angle", "angle"), Sep(" ")], 0, Start)
  {
  }

  lemma FinalRightAngleTurnsPart1()
    ensures Final([Run("Right-", "right-"), Run("Angle", "angle"), Sep(" ")], 0, Start) == Gap
  {
  }

  lemma SlugRightAngleTurnsPart1()
    ensures Slug([Run("Right-", "right-"), Run("Angle", "angle"), Sep(" ")], 0, Start) == "right-angle"
  {
  }

  lemma ChunkRightAngleTurnsPart1()
    ensures ChunkOk([Run("Right-", "right-"), Run("Angle", "angle"), Sep(" ")], "Right-Angle ", "right-angle", Start, Gap)
  {
    SpellingRightAngleTurnsPart1();
    LexedRightAngleTurnsPart1();
    FinalRightAngleTurnsPart1();
    SlugRightAngleTurnsPart1();
  }

  lemma SpellingRightAngleTurnsPart2()
    ensures "Turns" == Spelled([Run("Turns", "turns")], 0)
  {
  }

  lemma LexedRightAngleTurnsPart2()
    ensures Lexed([Run("Turns", "turns")], 0, Gap)
  {
  }

  lemma FinalRightAngleTurnsPart2()
    ensures Final([Run("Turns", "turns")], 0, Gap) == Word
  {
  }

  lemma SlugRightAngleTurnsPart2()
    ensures Slug([Run("Turns", "turns")], 0, Gap) == "-turns"
  {
  }

  lemma ChunkRightAngleTurnsPart2()
    ensures ChunkOk([Run("Turns", "turns")], "Turns", "-turns", Gap, Word)
  {
    SpellingRightAngleTurnsPart2();
    LexedRightAngleTurnsPart2();
    FinalRightAngleTurnsPart2();
    SlugRightAngleTurnsPart2();
  }

  lemma JoinedRightAngleTurns()
    ensures Concat(["Right-Angle ", "Turns"]) == "Right-Angle Turns"
  {
  }

  lemma JoinedSlugRightAngleTurns()
    ensures Concat(["right-angle", "-turns"]) == "right-angle-turns"
  {
  }

  lemma ChunksRightAngleTurns()
    ensures ChunksOk([[Run("Right-", "right-"), Run("Angle", "angle"), Sep(" ")], [Run("Turns", "turns")]], ["Right-Angle ", "Turns"], ["right-angle", "-turns"], [Start, Gap, Word], 0)
  {
    ChunkRightAngleTurnsPart1();
    ChunkRightAngleTurnsPart2();
  }

  lemma KebabRightAngleTurns(s: string)
    requires s == "Right-Angle Turns"
    ensures ToKebabCase(s) == "right-angle-turns"
  {
    ChunksRightAngleTurns();
    JoinedRightAngleTurns();
    JoinedSlugRightAngleTurns();
    KebabOfChunks(s, "right-angle-turns", [[Run("Right-", "right-"), Run("Angle", "angle"), Sep(" ")], [Run("Turns", "turns")]], ["Right-Angle ", "Turns"], ["right-angle", "-turns"], [Start, Gap, Word]);
  }

  lemma SpellingStatisticsPart1()
    ensures "Statistics" == Spelled([Run("Statis", "statis"), Run("tics", "tics")], 0)
  {
  }

  lemma LexedStatisticsPart1()
    ensures Lexed([Run("Statis", "statis"), Run("tics", "tics")], 0, Start)
  {
  }

  lemma FinalStatisticsPart1()
    ensures Final([Run("Statis", "statis"), Run("tics", "tics")], 0, Start) == Word
  {
  }

  lemma SlugStatisticsPart1()
    ensures Slug([Run("Statis", "statis"), Run("tics", "tics")], 0, Start) == "statistics"
  {
  }

  lemma ChunkStatisticsPart1()
    ensures ChunkOk([Run("Statis", "statis"), Run("tics", "tics")], "Statistics", "statistics", Start, Word)
  {
    SpellingStatisticsPart1();
    LexedStatisticsPart1();
    FinalStatisticsPart1();
    SlugStatisticsPart1();
  }

  lemma JoinedStatistics()
    ensures Concat(["Statistics"]) == "Statistics"
  {
  }

  lemma JoinedSlugStatistics()
    ensures Concat(["statistics"]) == "statistics"
  {
  }

  lemma ChunksStatistics()
    ensures ChunksOk([[Run("Statis", "statis"), Run("tics", "tics")]], ["Statistics"], ["statistics"], [Start, Word], 0)
  {
    ChunkStatisticsPart1();
  }

  lemma KebabStatistics(s: string)
    requires s == "Statistics"
    ensures ToKebabCase(s) == "statistics"
  {
    ChunksStatistics();
    JoinedStatistics();
    JoinedSlugStatistics();
    KebabOfChunks(s, "statistics", [[Run("Statis", "statis"), Run("tics", "tics")]], ["Statistics"], ["statistics"], [Start, Word]);
  }

  lemma SpellingPictogramsPart1()
    ensures "Pictograms" == Spelled([Run("Pictog", "pictog"), Run("rams", "rams")], 0)
  {
  }

  lemma LexedPictogramsPart1()
    ensures Lexed([Run("Pictog", "pictog"), Run("rams", "rams")], 0, Start)
  {
  }

  lemma FinalPictogramsPart1()
    ensures Final([Run("Pictog", "pictog"), Run("rams", "rams")], 0, Start) == Word
  {
  }

  lemma SlugPictogramsPart1()
    ensures Slug([Run("Pictog", "pictog"), Run("rams", "rams")], 0, Start) == "pictograms"
  {
  }

  lemma ChunkPictogramsPart1()
    ensures ChunkOk([Run("Pictog", "pictog"), Run("rams", "rams")], "Pictograms", "pictograms", Start, Word)
  {
    SpellingPictogramsPart1();
    LexedPictogramsPart1();
    FinalPictogramsPart1();
    SlugPictogramsPart1();
  }

  lemma JoinedPictograms()
    ensures Concat(["Pictograms"]) == "Pictograms"
  {
  }

  lemma JoinedSlugPictograms()
    ensures Concat(["pictograms"]) == "pictograms"
  {
  }

  lemma ChunksPictograms()
    ensures ChunksOk([[Run("Pictog", "pictog"), Run("rams", "rams")]], ["Pictograms"], ["pictograms"], [Start, Word], 0)
  {
    ChunkPictogramsPart1();
  }

  lemma KebabPictograms(s: string)
    requires s == "Pictograms"
    ensures ToKebabCase(s) == "pictograms"
  {
    ChunksPictograms();
    JoinedPictograms();
    JoinedSlugPictograms();
    KebabOfChunks(s, "pictograms", [[Run("Pictog", "pictog"), Run("rams", "rams")]], ["Pictograms"], ["pictograms"], [Start, Word]);
  }

  lemma SpellingTallyChartsPart1()
    ensures "Tally Charts" == Spelled([Run("Tally", "tally"), Sep(" "), Run("Charts", "charts")], 0)
  {
  }

  lemma LexedTallyChartsPart1()
    ensures Lexed([Run("Tally", "tally"), Sep(" "), Run("Charts", "charts")], 0, Start)
  {
  }

  lemma FinalTallyChartsPart1()
    ensures Final([Run("Tally", "tally"), Sep(" "), Run("Charts", "charts")], 0, Start) == Word
  {
  }

  lemma SlugTallyChartsPart1()
    ensures Slug([Run("Tally", "tally"), Sep(" "), Run("Charts", "charts")], 0, Start) == "tally-charts"
  {
  }

  lemma ChunkTallyChartsPart1()
    ensures ChunkOk([Run("Tally", "tally"), Sep(" "), Run("Charts", "charts")], "Tally Charts", "tally-charts", Start, Word)
  {
    SpellingTallyChartsPart1();
    LexedTallyChartsPart1();
    FinalTallyChartsPart1();
    SlugTallyChartsPart1();
  }

  lemma JoinedTallyCharts()
    ensures Concat(["Tally Charts"]) == "Tally Charts"
  {
  }

  lemma JoinedSlugTallyCharts()
    ensures Concat(["tally-charts"]) == "tally-charts"
  {
  }

  lemma ChunksTallyCharts()
    ensures ChunksOk([[Run("Tally", "tally"), Sep(" "), Run("Charts", "charts")]], ["Tally Charts"], ["tally-charts"], [Start, Word], 0)
  {
    ChunkTallyChartsPart1();
  }

  lemma KebabTallyCharts(s: string)
    requires s == "Tally Charts"
    ensures ToKebabCase(s) == "tally-charts"
  {
    ChunksTallyCharts();
    JoinedTallyCharts();
    JoinedSlugTallyCharts();
    KebabOfChunks(s, "tally-charts", [[Run("Tally", "tally"), Sep(" "), Run("Charts", "charts")]], ["Tally Charts"], ["tally-charts"], [Start, Word]);
  }

  lemma SpellingBlockDiagramsPart1()
    ensures "Block Diagrams" == Spelled([Run("Block", "block"), Sep(" "), Run("Diagra", "diagra"), Run("ms", "ms")], 0)
  {
  }

  lemma LexedBlockDiagramsPart1()
    ensures Lexed([Run("Block", "block"), Sep(" "), Run("Diagra", "diagra"), Run("ms", "ms")], 0, Start)
  {
  }

  lemma FinalBlockDiagramsPart1()
    ensures Final([Run("Block", "block"), Sep(" "), Run("Diagra", "diagra"), Run("ms", "ms")], 0, Start) == Word
  {
  }

  lemma SlugBlockDiagramsPart1()
    ensures Slug([Run("Block", "block"), Sep(" "), Run("Diagra", "diagra"), Run("ms", "ms")], 0, Start) == "block-diagrams"
  {
  }

  lemma ChunkBlockDiagramsPart1()
    ensures ChunkOk([Run("Block", "block"), Sep(" "), Run("Diagra", "diagra"), Run("ms", "ms")], "Block Diagrams", "block-diagrams", Start, Word)
  {
    SpellingBlockDiagramsPart1();
    LexedBlockDiagramsPart1();
    FinalBlockDiagramsPart1();
    SlugBlockDiagramsPart1();
  }

  lemma JoinedBlockDiagrams()
    ensures Concat(["Block Diagrams"]) == "Block Diagrams"
  {
  }

  lemma JoinedSlugBlockDiagrams()
    ensures Concat(["block-diagrams"]) == "block-diagrams"
  {
  }

  lemma ChunksBlockDiagrams()
    ensures ChunksOk([[Run("Block", "block"), Sep(" "), Run("Diagra", "diagra"), Run("ms", "ms")]], ["Block Diagrams"], ["block-diagrams"], [Start, Word], 0)
  {
    ChunkBlockDiagramsPart1();
  }

  lemma KebabBlockDiagrams(s: string)
    requires s == "Block Diagrams"
    ensures ToKebabCase(s) == "block-diagrams"
  {
    ChunksBlockDiagrams();
    JoinedBlockDiagrams();
    JoinedSlugBlockDiagrams();
    KebabOfChunks(s, "block-diagrams", [[Run("Block", "block"), Sep(" "), Run("Diagra", "diagra"), Run("ms", "ms")]], ["Block Diagrams"], ["block-diagrams"], [Start, Word]);
  }

  lemma SpellingTablesPart1()
    ensures "Tables" == Spelled([Run("Tables", "tables")], 0)
  {
  }

  lemma LexedTablesPart1()
    ensures Lexed([Run("Tables", "tables")], 0, Start)
  {
  }

  lemma FinalTablesPart1()
    ensures Final([Run("Tables", "tables")], 0, Start) == Word
  {
  }

  lemma SlugTablesPart1()
    ensures Slug([Run("Tables", "tables")], 0, Start) == "tables"
  {
  }

  lemma ChunkTablesPart1()
    ensures ChunkOk([Run("Tables", "tables")], "Tables", "tables", Start, Word)
  {
    SpellingTablesPart1();
    LexedTablesPart1();
    FinalTablesPart1();
    SlugTablesPart1();
  }

  lemma JoinedTables()
    ensures Concat(["Tables"]) == "Tables"
  {
  }

  lemma JoinedSlugTables()
    ensures Concat(["tables"]) == "tables"
  {
  }

  lemma ChunksTables()
    ensures ChunksOk([[Run("Tables", "tables")]], ["Tables"], ["tables"], [Start, Word], 0)
  {
    ChunkTablesPart1();
  }

  lemma KebabTables(s: string)
    requires s == "Tables"
    ensures ToKebabCase(s) == "tables"
  {
    ChunksTables();
    JoinedTables();
    JoinedSlugTables();
    KebabOfChunks(s, "tables", [[Run("Tables", "tables")]], ["Tables"], ["tables"], [Start, Word]);
  }

  lemma SpellingGatheringInformationAndUsingDataPart1()
    ensures "Gathering Inform" == Spelled([Run("Gather", "gather"), Run("ing", "ing"), Sep(" "), Run("Inform", "inform")], 0)
  {
  }

  lemma LexedGatheringInformationAndUsingDataPart1()
    ensures Lexed([Run("Gather", "gather"), Run("ing", "ing"), Sep(" "), Run("Inform", "inform")], 0, Start)
  {
  }

  lemma FinalGatheringInformationAndUsingDataPart1()
    ensures Final([Run("Gather", "gather"), Run("ing", "ing"), Sep(" "), Run("Inform", "inform")], 0, Start) == Word
  {
  }

  lemma SlugGatheringInformationAndUsingDataPart1()
    ensures Slug([Run("Gather", "gather"), Run("ing", "ing"), Sep(" "), Run("Inform", "inform")], 0, Start) == "gathering-inform"
  {
  }

  lemma ChunkGatheringInformationAndUsingDataPart1()
    ensures ChunkOk([Run("Gather", "gather"), Run("ing", "ing"), Sep(" "), Run("Inform", "inform")], "Gathering Inform", "gathering-inform", Start, Word)
  {
    SpellingGatheringInformationAndUsingDataPart1();
    LexedGatheringInformationAndUsingDataPart1();
    FinalGatheringInformationAndUsingDataPart1();
    SlugGatheringInformationAndUsingDataPart1();
  }

  lemma SpellingGatheringInformationAndUsingDataPart2()
    ensures "ation and Using " == Spelled([Run("ation", "ation"), Sep(" "), Run("and", "and"), Sep(" "), Run("Using", "using"), Sep(" ")], 0)
  {
  }

  lemma LexedGatheringInformationAndUsingDataPart2()
    ensures Lexed([Run("ation", "ation"), Sep(" "), Run("and", "and"), Sep(" "), Run("Using", "using"), Sep(" ")], 0, Word)
  {
  }

  lemma FinalGatheringInformationAndUsingDataPart2()
    ensures Final([Run("ation", "ation"), Sep(" "), Run("and", "and"), Sep(" "), Run("Using", "using"), Sep(" ")], 0, Word) == Gap
  {
  }

  lemma SlugGatheringInformationAndUsingDataPart2()
    ensures Slug([Run("ation", "ation"), Sep(" "), Run("and", "and"), Sep(" "), Run("Using", "using"), Sep(" ")], 0, Word) == "ation-and-using"
  {
  }

  lemma ChunkGatheringInformationAndUsingDataPart2()
    ensures ChunkOk([Run("ation", "ation"), Sep(" "), Run("and", "and"), Sep(" "), Run("Using", "using"), Sep(" ")], "ation and Using ", "ation-and-using", Word, Gap)
  {
    SpellingGatheringInformationAndUsingDataPart2();
    LexedGatheringInformationAndUsingDataPart2();
    FinalGatheringInformationAndUsingDataPart2();
    SlugGatheringInformationAndUsingDataPart2();
  }

  lemma SpellingGatheringInformationAndUsingDataPart3()
    ensures "Data" == Spelled([Run("Data", "data")], 0)
  {
  }

  lemma LexedGatheringInformationAndUsingDataPart3()
    ensures Lexed([Run("Data", "data")], 0, Gap)
  {
  }

  lemma FinalGatheringInformationAndUsingDataPart3()
    ensures Final([Run("Data", "data")], 0, Gap) == Word
  {
  }

  lemma SlugGatheringInformationAndUsingDataPart3()
    ensures Slug([Run("Data", "data")], 0, Gap) == "-data"
  {
  }

  lemma ChunkGatheringInformationAndUsingDataPart3()
    ensures ChunkOk([Run("Data", "data")], "Data", "-data", Gap, Word)
  {
    SpellingGatheringInformationAndUsingDataPart3();
    LexedGatheringInformationAndUsingDataPart3();
    FinalGatheringInformationAndUsingDataPart3();
    SlugGatheringInformationAndUsingDataPart3();
  }

  lemma JoinedGatheringInformationAndUsingDataL()
    ensures Concat(["Gathering Inform"]) == "Gathering Inform"
  {
  }

  lemma JoinedGatheringInformationAndUsingDataR()
    ensures Concat(["ation and Using ", "Data"]) == "ation and Using Data"
  {
  }

  lemma JoinedGatheringInformationAndUsingDataCut()
    ensures "Gathering Information and Using Data" == "Gathering Inform" + "ation and Using Data"
  {
  }

  lemma JoinedGatheringInformationAndUsingDataList()
    ensures ["Gathering Inform", "ation and Using ", "Data"] == ["Gathering Inform"] + ["ation and Using ", "Data"]
  {
  }

  lemma JoinedGatheringInformationAndUsingData()
    ensures Concat(["Gathering Inform", "ation and Using ", "Data"]) == "Gathering Information and Using Data"
  {
    JoinedGatheringInformationAndUsingDataL();
    JoinedGatheringInformationAndUsingDataR();
    JoinedGatheringInformationAndUsingDataCut();
    JoinedGatheringInformationAndUsingDataList();
    ConcatAppend(["Gathering Inform"], ["ation and Using ", "Data"]);
  }

  lemma JoinedSlugGatheringInformationAndUsingDataL()
    ensures Concat(["gathering-inform"]) == "gathering-inform"
  {
  }

  lemma JoinedSlugGatheringInformationAndUsingDataR()
    ensures Concat(["ation-and-using", "-data"]) == "ation-and-using-data"
  {
  }

  lemma JoinedSlugGatheringInformationAndUsingDataCut()
    ensures "gathering-information-and-using-data" == "gathering-inform" + "ation-and-using-data"
  {
  }

  lemma JoinedSlugGatheringInformationAndUsingDataList()
    ensures ["gathering-inform", "ation-and-using", "-data"] == ["gathering-inform"] + ["ation-and-using", "-data"]
  {
  }

  lemma JoinedSlugGatheringInformationAndUsingData()
    ensures Concat(["gathering-inform", "ation-and-using", "-data"]) == "gathering-information-and-using-data"
  {
    JoinedSlugGatheringInformationAndUsingDataL();
    JoinedSlugGatheringInformationAndUsingDataR();
    JoinedSlugGatheringInformationAndUsingDataCut();
    JoinedSlugGatheringInformationAndUsingDataList();
    ConcatAppend(["gathering-inform"], ["ation-and-using", "-data"]);
  }

  lemma ChunksGatheringInformationAndUsingData()
    ensures ChunksOk([[Run("Gather", "gather"), Run("ing", "ing"), Sep(" "), Run("Inform", "inform")], [Run("ation", "ation"), Sep(" "), Run("and", "and"), Sep(" "), Run("Using", "using"), Sep(" ")], [Run("Data", "data")]], ["Gathering Inform", "ation and Using ", "Data"], ["gathering-inform", "ation-and-using", "-data"], [Start, Word, Gap, Word], 0)
  {
    ChunkGatheringInformationAndUsingDataPart1();
    ChunkGatheringInformationAndUsingDataPart2();
    ChunkGatheringInformationAndUsingDataPart3();
  }

  lemma KebabGatheringInformationAndUsingData(s: string)
    requires s == "Gathering Information and Using Data"
    ensures ToKebabCase(s) == "gathering-information-and-using-data"
  {
    ChunksGatheringInformationAndUsingData();
    JoinedGatheringInformationAndUsingData();
    JoinedSlugGatheringInformationAndUsingData();
    KebabOfChunks(s, "gathering-information-and-using-data", [[Run("Gather", "gather"), Run("ing", "ing"), Sep(" "), Run("Inform", "inform")], [Run("ation", "ation"), Sep(" "), Run("and", "and"), Sep(" "), Run("Using", "using"), Sep(" ")], [Run("Data", "data")]], ["Gathering Inform", "ation and Using ", "Data"], ["gathering-inform", "ation-and-using", "-data"], [Start, Word, Gap, Word]);
  }
}
