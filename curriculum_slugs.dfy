/**
 * The ids of the derived curriculum, computed: every topic id is the one written in the table
 * and every category id is the slug of its title.
 */
module CurriculumSlugs {
  import opened KebabCase
  import opened Curriculum
  import CurriculumIds

  /** Every topic of `ts` from position `k` on carries the id that the slug of its name gives. */
  predicate SlugsMatch(ts: seq<RawTopic>, k: nat)
    decreases |ts| - k
  {
    k >= |ts| || (ToKebabCase(ts[k].name) == ts[k].id && SlugsMatch(ts, k + 1))
  }

  lemma {:induction false} SlugsMatchEach(ts: seq<RawTopic>, k: nat)
    requires SlugsMatch(ts, k)
    ensures forall j :: k <= j < |ts| ==> ToKebabCase(ts[j].name) == ts[j].id
    decreases |ts| - k
  {
    if k < |ts| {
      SlugsMatchEach(ts, k + 1);
    }
  }

  /** No two topics of `ts` carry the same id. */
  predicate IdsDistinct(ts: seq<RawTopic>)
  {
    forall a, b :: 0 <= a < b < |ts| ==> ts[a].id != ts[b].id
  }

  /** In a category whose written ids are distinct and match the slugs, the derived topic ids are distinct. */
  lemma DerivedTopicIdsDistinct(c: RawCategory)
    requires SlugsMatch(c.topics, 0) && IdsDistinct(c.topics)
    ensures forall a, b :: 0 <= a < b < |c.topics| ==> DeriveCategory(c).topics[a].id != DeriveCategory(c).topics[b].id
  {
    SlugsMatchEach(c.topics, 0);
  }

  /** Deriving keeps the ids of a table whose every category satisfies `SlugsMatch`. */
  lemma DeriveKeepsMatchingIds(raw: seq<RawCategory>)
    requires forall i :: 0 <= i < |raw| ==> SlugsMatch(raw[i].topics, 0)
    ensures forall i, j :: 0 <= i < |raw| && 0 <= j < |raw[i].topics| ==>
      Derive(raw)[i].topics[j].id == raw[i].topics[j].id
  {
    forall i, j | 0 <= i < |raw| && 0 <= j < |raw[i].topics|
      ensures Derive(raw)[i].topics[j].id == raw[i].topics[j].id
    {
      SlugsMatchEach(raw[i].topics, 0);
    }
  }

  /** The ids of the derived categories, in order. */
  const CategoryIds: seq<string> :=
    ["number---number-and-place-value",
     "number---addition-and-subtraction",
     "number---multiplication-and-division",
     "number---fractions",
     "measurement",
     "geometry-properties-of-shapes",
     "geometry-position-and-direction",
     "statistics"]

  /** No two categories share an id. */
  lemma CategoryIdsDistinct()
    ensures forall a, b :: 0 <= a < b < |CategoryIds| ==> CategoryIds[a] != CategoryIds[b]
  {
  }

  lemma IdOfNumbersAndCounting()
    ensures ToKebabCase(NumberAndPlaceValue.topics[0].name) == NumberAndPlaceValue.topics[0].id
  {
    assert NumberAndPlaceValue.topics[0] == RawTopic("numbers-and-counting", "Numbers and Counting");
    CurriculumIds.KebabNumbersAndCounting(NumberAndPlaceValue.topics[0].name);
  }

  lemma IdOfCountingForwardsAndBackwards()
    ensures ToKebabCase(NumberAndPlaceValue.topics[1].name) == NumberAndPlaceValue.topics[1].id
  {
    assert NumberAndPlaceValue.topics[1] == RawTopic("counting-forwards-and-backwards", "Counting Forwards and Backwards");
    CurriculumIds.KebabCountingForwardsAndBackwards(NumberAndPlaceValue.topics[1].name);
  }

  lemma IdOfCountingInStepsOf235And10()
    ensures ToKebabCase(NumberAndPlaceValue.topics[2].name) == NumberAndPlaceValue.topics[2].id
  {
    assert NumberAndPlaceValue.topics[2] == RawTopic("counting-in-steps-of-2-3-5-and-10", "Counting in Steps of 2, 3, 5 and 10");
    CurriculumIds.KebabCountingInStepsOf235And10(NumberAndPlaceValue.topics[2].name);
  }

  lemma IdOfCountingMoreAndLess()
    ensures ToKebabCase(NumberAndPlaceValue.topics[3].name) == NumberAndPlaceValue.topics[3].id
  {
    assert NumberAndPlaceValue.topics[3] == RawTopic("counting-more-and-less", "Counting More and Less");
    CurriculumIds.KebabCountingMoreAndLess(NumberAndPlaceValue.topics[3].name);
  }

  lemma IdOfPlaceValue()
    ensures ToKebabCase(NumberAndPlaceValue.topics[4].name) == NumberAndPlaceValue.topics[4].id
  {
    assert NumberAndPlaceValue.topics[4] == RawTopic("place-value", "Place Value");
    CurriculumIds.KebabPlaceValue(NumberAndPlaceValue.topics[4].name);
  }

  lemma IdOfLessThanGreaterThanAndEqualTo()
    ensures ToKebabCase(NumberAndPlaceValue.topics[5].name) == NumberAndPlaceValue.topics[5].id
  {
    assert NumberAndPlaceValue.topics[5] == RawTopic("less-than-greater-than-and-equal-to", "Less Than, Greater Than and Equal To");
    CurriculumIds.KebabLessThanGreaterThanAndEqualTo(NumberAndPlaceValue.topics[5].name);
  }

  lemma TopicIdsOfNumberAndPlaceValue()
    ensures SlugsMatch(NumberAndPlaceValue.topics, 0)
  {
    IdOfNumbersAndCounting();
    IdOfCountingForwardsAndBackwards();
    IdOfCountingInStepsOf235And10();
    IdOfCountingMoreAndLess();
    IdOfPlaceValue();
    IdOfLessThanGreaterThanAndEqualTo();
  }

  lemma TopicIdsDistinctInNumberAndPlaceValue()
    ensures IdsDistinct(NumberAndPlaceValue.topics)
  {
  }

  lemma TitleSlugOfNumberAndPlaceValue()
    ensures ToKebabCase(NumberAndPlaceValue.title) == "number---number-and-place-value"
  {
    assert NumberAndPlaceValue.title == "Number - Number and Place Value";
    CurriculumIds.KebabNumberNumberAndPlaceValue(NumberAndPlaceValue.title);
  }

  lemma IdOfDoublingAndHalvingUsingAdditionAndSubtraction()
    ensures ToKebabCase(AdditionAndSubtraction.topics[0].name) == AdditionAndSubtraction.topics[0].id
  {
    assert AdditionAndSubtraction.topics[0] == RawTopic("doubling-and-halving-using-addition-and-subtraction", "Doubling and Halving using Addition and Subtraction");
    CurriculumIds.KebabDoublingAndHalvingUsingAdditionAndSubtraction(AdditionAndSubtraction.topics[0].name);
  }

  lemma IdOfSolvingNumberProblems()
    ensures ToKebabCase(AdditionAndSubtraction.topics[1].name) == AdditionAndSubtraction.topics[1].id
  {
    assert AdditionAndSubtraction.topics[1] == RawTopic("solving-number-problems", "Solving Number Problems");
    CurriculumIds.KebabSolvingNumberProblems(AdditionAndSubtraction.topics[1].name);
  }

  lemma IdOfUsingTwoDigitNumbers()
    ensures ToKebabCase(AdditionAndSubtraction.topics[2].name) == AdditionAndSubtraction.topics[2].id
  {
    assert AdditionAndSubtraction.topics[2] == RawTopic("using-two-digit-numbers", "Using Two-Digit Numbers");
    CurriculumIds.KebabUsingTwoDigitNumbers(AdditionAndSubtraction.topics[2].name);
  }

  lemma IdOfSolvingMissingNumberProblems()
    ensures ToKebabCase(AdditionAndSubtraction.topics[3].name) == AdditionAndSubtraction.topics[3].id
  {
    assert AdditionAndSubtraction.topics[3] == RawTopic("solving-missing-number-problems", "Solving Missing Number Problems");
    CurriculumIds.KebabSolvingMissingNumberProblems(AdditionAndSubtraction.topics[3].name);
  }

  lemma TopicIdsOfAdditionAndSubtraction()
    ensures SlugsMatch(AdditionAndSubtraction.topics, 0)
  {
    IdOfDoublingAndHalvingUsingAdditionAndSubtraction();
    IdOfSolvingNumberProblems();
    IdOfUsingTwoDigitNumbers();
    IdOfSolvingMissingNumberProblems();
  }

  lemma TopicIdsDistinctInAdditionAndSubtraction()
    ensures IdsDistinct(AdditionAndSubtraction.topics)
  {
  }

  lemma TitleSlugOfAdditionAndSubtraction()
    ensures ToKebabCase(AdditionAndSubtraction.title) == "number---addition-and-subtraction"
  {
    assert AdditionAndSubtraction.title == "Number - Addition and Subtraction";
    CurriculumIds.KebabNumberAdditionAndSubtraction(AdditionAndSubtraction.title);
  }

  lemma IdOfWhatIsMultiplication()
    ensures ToKebabCase(MultiplicationAndDivision.topics[0].name) == MultiplicationAndDivision.topics[0].id
  {
    assert MultiplicationAndDivision.topics[0] == RawTopic("what-is-multiplication", "What is Multiplication?");
    CurriculumIds.KebabWhatIsMultiplication(MultiplicationAndDivision.topics[0].name);
  }

  lemma IdOfWhatIsDivision()
    ensures ToKebabCase(MultiplicationAndDivision.topics[1].name) == MultiplicationAndDivision.topics[1].id
  {
    assert MultiplicationAndDivision.topics[1] == RawTopic("what-is-division", "What is Division?");
    CurriculumIds.KebabWhatIsDivision(MultiplicationAndDivision.topics[1].name);
  }

  lemma IdOf25And10MultiplicationTables()
    ensures ToKebabCase(MultiplicationAndDivision.topics[2].name) == MultiplicationAndDivision.topics[2].id
  {
    assert MultiplicationAndDivision.topics[2] == RawTopic("2-5-and-10-multiplication-tables", "2, 5 and 10 Multiplication Tables");
    CurriculumIds.Kebab25And10MultiplicationTables(MultiplicationAndDivision.topics[2].name);
  }

  lemma IdOfDivisionProblems()
    ensures ToKebabCase(MultiplicationAndDivision.topics[3].name) == MultiplicationAndDivision.topics[3].id
  {
    assert MultiplicationAndDivision.topics[3] == RawTopic("division-problems", "Division Problems");
    CurriculumIds.KebabDivisionProblems(MultiplicationAndDivision.topics[3].name);
  }

  lemma IdOfConnectingMultiplicationAndDivision()
    ensures ToKebabCase(MultiplicationAndDivision.topics[4].name) == MultiplicationAndDivision.topics[4].id
  {
    assert MultiplicationAndDivision.topics[4] == RawTopic("connecting-multiplication-and-division", "Connecting Multiplication and Division");
    CurriculumIds.KebabConnectingMultiplicationAndDivision(MultiplicationAndDivision.topics[4].name);
  }

  lemma IdOfDoublingAndHalvingUsingMultiplicationAndDivision()
    ensures ToKebabCase(MultiplicationAndDivision.topics[5].name) == MultiplicationAndDivision.topics[5].id
  {
    assert MultiplicationAndDivision.topics[5] == RawTopic("doubling-and-halving-using-multiplication-and-division", "Doubling and Halving using Multiplication and Division");
    CurriculumIds.KebabDoublingAndHalvingUsingMultiplicationAndDivision(MultiplicationAndDivision.topics[5].name);
  }

  lemma IdOfSolvingMultiplicationAndDivisionProblems()
    ensures ToKebabCase(MultiplicationAndDivision.topics[6].name) == MultiplicationAndDivision.topics[6].id
  {
    assert MultiplicationAndDivision.topics[6] == RawTopic("solving-multiplication-and-division-problems", "Solving Multiplication and Division Problems");
    CurriculumIds.KebabSolvingMultiplicationAndDivisionProblems(MultiplicationAndDivision.topics[6].name);
  }

  lemma TopicIdsOfMultiplicationAndDivision()
    ensures SlugsMatch(MultiplicationAndDivision.topics, 0)
  {
    IdOfWhatIsMultiplication();
    IdOfWhatIsDivision();
    IdOf25And10MultiplicationTables();
    IdOfDivisionProblems();
    IdOfConnectingMultiplicationAndDivision();
    IdOfDoublingAndHalvingUsingMultiplicationAndDivision();
    IdOfSolvingMultiplicationAndDivisionProblems();
  }

  lemma TopicIdsDistinctInMultiplicationAndDivision()
    ensures IdsDistinct(MultiplicationAndDivision.topics)
  {
  }

  lemma TitleSlugOfMultiplicationAndDivision()
    ensures ToKebabCase(MultiplicationAndDivision.title) == "number---multiplication-and-division"
  {
    assert MultiplicationAndDivision.title == "Number - Multiplication and Division";
    CurriculumIds.KebabNumberMultiplicationAndDivision(MultiplicationAndDivision.title);
  }

  lemma IdOfWhatIsAFraction()
    ensures ToKebabCase(Fractions.topics[0].name) == Fractions.topics[0].id
  {
    assert Fractions.topics[0] == RawTopic("what-is-a-fraction", "What is a Fraction?");
    CurriculumIds.KebabWhatIsAFraction(Fractions.topics[0].name);
  }

  lemma IdOfFractionsOfNumbers()
    ensures ToKebabCase(Fractions.topics[1].name) == Fractions.topics[1].id
  {
    assert Fractions.topics[1] == RawTopic("fractions-of-numbers", "Fractions of Numbers");
    CurriculumIds.KebabFractionsOfNumbers(Fractions.topics[1].name);
  }

  lemma IdOfFindingFractionsOfLargerGroups()
    ensures ToKebabCase(Fractions.topics[2].name) == Fractions.topics[2].id
  {
    assert Fractions.topics[2] == RawTopic("finding-fractions-of-larger-groups", "Finding Fractions of Larger Groups");
    CurriculumIds.KebabFindingFractionsOfLargerGroups(Fractions.topics[2].name);
  }

  lemma TopicIdsOfFractions()
    ensures SlugsMatch(Fractions.topics, 0)
  {
    IdOfWhatIsAFraction();
    IdOfFractionsOfNumbers();
    IdOfFindingFractionsOfLargerGroups();
  }

  lemma TopicIdsDistinctInFractions()
    ensures IdsDistinct(Fractions.topics)
  {
  }

  lemma TitleSlugOfFractions()
    ensures ToKebabCase(Fractions.title) == "number---fractions"
  {
    assert Fractions.title == "Number - Fractions";
    CurriculumIds.KebabNumberFractions(Fractions.title);
  }

  lemma IdOfMeasuringLengthAndHeight()
    ensures ToKebabCase(Measurement.topics[0].name) == Measurement.topics[0].id
  {
    assert Measurement.topics[0] == RawTopic("measuring-length-and-height", "Measuring Length and Height");
    CurriculumIds.KebabMeasuringLengthAndHeight(Measurement.topics[0].name);
  }

  lemma IdOfMeasuringWeightAndVolume()
    ensures ToKebabCase(Measurement.topics[1].name) == Measurement.topics[1].id
  {
    assert Measurement.topics[1] == RawTopic("measuring-weight-and-volume", "Measuring Weight and Volume");
    CurriculumIds.KebabMeasuringWeightAndVolume(Measurement.topics[1].name);
  }

  lemma IdOfComparingMeasurements()
    ensures ToKebabCase(Measurement.topics[2].name) == Measurement.topics[2].id
  {
    assert Measurement.topics[2] == RawTopic("comparing-measurements", "Comparing Measurements");
    CurriculumIds.KebabComparingMeasurements(Measurement.topics[2].name);
  }

  lemma IdOfMeasuringTemperature()
    ensures ToKebabCase(Measurement.topics[3].name) == Measurement.topics[3].id
  {
    assert Measurement.topics[3] == RawTopic("measuring-temperature", "Measuring Temperature");
    CurriculumIds.KebabMeasuringTemperature(Measurement.topics[3].name);
  }

  lemma IdOfMeasuringTime()
    ensures ToKebabCase(Measurement.topics[4].name) == Measurement.topics[4].id
  {
    assert Measurement.topics[4] == RawTopic("measuring-time", "Measuring Time");
    CurriculumIds.KebabMeasuringTime(Measurement.topics[4].name);
  }

  lemma IdOfStandardUnitsOfMoney()
    ensures ToKebabCase(Measurement.topics[5].name) == Measurement.topics[5].id
  {
    assert Measurement.topics[5] == RawTopic("standard-units-of-money", "Standard Units of Money");
    CurriculumIds.KebabStandardUnitsOfMoney(Measurement.topics[5].name);
  }

  lemma IdOfMoneyProblems()
    ensures ToKebabCase(Measurement.topics[6].name) == Measurement.topics[6].id
  {
    assert Measurement.topics[6] == RawTopic("money-problems", "Money Problems");
    CurriculumIds.KebabMoneyProblems(Measurement.topics[6].name);
  }

  lemma TopicIdsOfMeasurement()
    ensures SlugsMatch(Measurement.topics, 0)
  {
    IdOfMeasuringLengthAndHeight();
    IdOfMeasuringWeightAndVolume();
    IdOfComparingMeasurements();
    IdOfMeasuringTemperature();
    IdOfMeasuringTime();
    IdOfStandardUnitsOfMoney();
    IdOfMoneyProblems();
  }

  lemma TopicIdsDistinctInMeasurement()
    ensures IdsDistinct(Measurement.topics)
  {
  }

  lemma TitleSlugOfMeasurement()
    ensures ToKebabCase(Measurement.title) == "measurement"
  {
    assert Measurement.title == "Measurement";
    CurriculumIds.KebabMeasurement(Measurement.title);
  }

  lemma IdOf2DShapes()
    ensures ToKebabCase(PropertiesOfShapes.topics[0].name) == PropertiesOfShapes.topics[0].id
  {
    assert PropertiesOfShapes.topics[0] == RawTopic("2-d-shapes", "2-D Shapes");
    CurriculumIds.Kebab2DShapes(PropertiesOfShapes.topics[0].name);
  }

  lemma IdOf3DShapes()
    ensures ToKebabCase(PropertiesOfShapes.topics[1].name) == PropertiesOfShapes.topics[1].id
  {
    assert PropertiesOfShapes.topics[1] == RawTopic("3-d-shapes", "3-D Shapes");
    CurriculumIds.Kebab3DShapes(PropertiesOfShapes.topics[1].name);
  }

  lemma IdOfDifferentShapes()
    ensures ToKebabCase(PropertiesOfShapes.topics[2].name) == PropertiesOfShapes.topics[2].id
  {
    assert PropertiesOfShapes.topics[2] == RawTopic("different-shapes", "Different Shapes");
    CurriculumIds.KebabDifferentShapes(PropertiesOfShapes.topics[2].name);
  }

  lemma TopicIdsOfPropertiesOfShapes()
    ensures SlugsMatch(PropertiesOfShapes.topics, 0)
  {
    IdOf2DShapes();
    IdOf3DShapes();
    IdOfDifferentShapes();
  }

  lemma TopicIdsDistinctInPropertiesOfShapes()
    ensures IdsDistinct(PropertiesOfShapes.topics)
  {
  }

  lemma TitleSlugOfPropertiesOfShapes()
    ensures ToKebabCase(PropertiesOfShapes.title) == "geometry-properties-of-shapes"
  {
    assert PropertiesOfShapes.title == "Geometry \U{2013} Properties of Shapes";
    CurriculumIds.KebabGeometryPropertiesOfShapes(PropertiesOfShapes.title);
  }

  lemma IdOfPatterns()
    ensures ToKebabCase(PositionAndDirection.topics[0].name) == PositionAndDirection.topics[0].id
  {
    assert PositionAndDirection.topics[0] == RawTopic("patterns", "Patterns");
    CurriculumIds.KebabPatterns(PositionAndDirection.topics[0].name);
  }

  lemma IdOfSequences()
    ensures ToKebabCase(PositionAndDirection.topics[1].name) == PositionAndDirection.topics[1].id
  {
    assert PositionAndDirection.topics[1] == RawTopic("sequences", "Sequences");
    CurriculumIds.KebabSequences(PositionAndDirection.topics[1].name);
  }

  lemma IdOfQuarterTurnsAndHalfTurns()
    ensures ToKebabCase(PositionAndDirection.topics[2].name) == PositionAndDirection.topics[2].id
  {
    assert PositionAndDirection.topics[2] == RawTopic("quarter-turns-and-half-turns", "Quarter Turns and Half Turns");
    CurriculumIds.KebabQuarterTurnsAndHalfTurns(PositionAndDirection.topics[2].name);
  }

  lemma IdOfRightAngleTurns()
    ensures ToKebabCase(PositionAndDirection.topics[3].name) == PositionAndDirection.topics[3].id
  {
    assert PositionAndDirection.topics[3] == RawTopic("right-angle-turns", "Right-Angle Turns");
    CurriculumIds.KebabRightAngleTurns(PositionAndDirection.topics[3].name);
  }

  lemma TopicIdsOfPositionAndDirection()
    ensures SlugsMatch(PositionAndDirection.topics, 0)
  {
    IdOfPatterns();
    IdOfSequences();
    IdOfQuarterTurnsAndHalfTurns();
    IdOfRightAngleTurns();
  }

  lemma TopicIdsDistinctInPositionAndDirection()
    ensures IdsDistinct(PositionAndDirection.topics)
  {
  }

  lemma TitleSlugOfPositionAndDirection()
    ensures ToKebabCase(PositionAndDirection.title) == "geometry-position-and-direction"
  {
    assert PositionAndDirection.title == "Geometry \U{2013} Position and Direction";
    CurriculumIds.KebabGeometryPositionAndDirection(PositionAndDirection.title);
  }

  lemma IdOfPictograms()
    ensures ToKebabCase(Statistics.topics[0].name) == Statistics.topics[0].id
  {
    assert Statistics.topics[0] == RawTopic("pictograms", "Pictograms");
    CurriculumIds.KebabPictograms(Statistics.topics[0].name);
  }

  lemma IdOfTallyCharts()
    ensures ToKebabCase(Statistics.topics[1].name) == Statistics.topics[1].id
  {
    assert Statistics.topics[1] == RawTopic("tally-charts", "Tally Charts");
    CurriculumIds.KebabTallyCharts(Statistics.topics[1].name);
  }

  lemma IdOfBlockDiagrams()
    ensures ToKebabCase(Statistics.topics[2].name) == Statistics.topics[2].id
  {
    assert Statistics.topics[2] == RawTopic("block-diagrams", "Block Diagrams");
    CurriculumIds.KebabBlockDiagrams(Statistics.topics[2].name);
  }

  lemma IdOfTables()
    ensures ToKebabCase(Statistics.topics[3].name) == Statistics.topics[3].id
  {
    assert Statistics.topics[3] == RawTopic("tables", "Tables");
    CurriculumIds.KebabTables(Statistics.topics[3].name);
  }

  lemma IdOfGatheringInformationAndUsingData()
    ensures ToKebabCase(Statistics.topics[4].name) == Statistics.topics[4].id
  {
    assert Statistics.topics[4] == RawTopic("gathering-information-and-using-data", "Gathering Information and Using Data");
    CurriculumIds.KebabGatheringInformationAndUsingData(Statistics.topics[4].name);
  }

  lemma TopicIdsOfStatistics()
    ensures SlugsMatch(Statistics.topics, 0)
  {
    IdOfPictograms();
    IdOfTallyCharts();
    IdOfBlockDiagrams();
    IdOfTables();
    IdOfGatheringInformationAndUsingData();
  }

  lemma TopicIdsDistinctInStatistics()
    ensures IdsDistinct(Statistics.topics)
  {
  }

  lemma TitleSlugOfStatistics()
    ensures ToKebabCase(Statistics.title) == "statistics"
  {
    assert Statistics.title == "Statistics";
    CurriculumIds.KebabStatistics(Statistics.title);
  }

  /** The topic counts of the eight categories, in order. */
  const TopicCounts: seq<nat> := [6, 4, 7, 3, 7, 3, 4, 5]

  /** The derived category at position `k` of the table carries the slug of its title. */
  lemma DerivedIdIsSlug(k: nat)
    requires k < |RawCurriculum|
    ensures Year2MathCurriculum[k].id == ToKebabCase(RawCurriculum[k].title)
  {
  }

  // The slug of each table entry's title, one category at a time: the entry's title, then its slug.

  lemma CategoryIdOfNumberAndPlaceValue()
    ensures ToKebabCase(RawCurriculum[0].title) == CategoryIds[0]
  {
    assert RawCurriculum[0].title == NumberAndPlaceValue.title;
    TitleSlugOfNumberAndPlaceValue();
  }

  lemma CategoryIdOfAdditionAndSubtraction()
    ensures ToKebabCase(RawCurriculum[1].title) == CategoryIds[1]
  {
    assert RawCurriculum[1].title == AdditionAndSubtraction.title;
    TitleSlugOfAdditionAndSubtraction();
  }

  lemma CategoryIdOfMultiplicationAndDivision()
    ensures ToKebabCase(RawCurriculum[2].title) == CategoryIds[2]
  {
    assert RawCurriculum[2].title == MultiplicationAndDivision.title;
    TitleSlugOfMultiplicationAndDivision();
  }

  lemma CategoryIdOfFractions()
    ensures ToKebabCase(RawCurriculum[3].title) == CategoryIds[3]
  {
    assert RawCurriculum[3].title == Fractions.title;
    TitleSlugOfFractions();
  }

  lemma CategoryIdOfMeasurement()
    ensures ToKebabCase(RawCurriculum[4].title) == CategoryIds[4]
  {
    assert RawCurriculum[4].title == Measurement.title;
    TitleSlugOfMeasurement();
  }

  lemma CategoryIdOfPropertiesOfShapes()
    ensures ToKebabCase(RawCurriculum[5].title) == CategoryIds[5]
  {
    assert RawCurriculum[5].title == PropertiesOfShapes.title;
    TitleSlugOfPropertiesOfShapes();
  }

  lemma CategoryIdOfPositionAndDirection()
    ensures ToKebabCase(RawCurriculum[6].title) == CategoryIds[6]
  {
    assert RawCurriculum[6].title == PositionAndDirection.title;
    TitleSlugOfPositionAndDirection();
  }

  lemma CategoryIdOfStatistics()
    ensures ToKebabCase(RawCurriculum[7].title) == CategoryIds[7]
  {
    assert RawCurriculum[7].title == Statistics.title;
    TitleSlugOfStatistics();
  }

  /** Every category title of the table slugs to the id listed in `CategoryIds`. */
  lemma DerivedCategoryIds()
    ensures |Year2MathCurriculum| == |CategoryIds|
    ensures forall i :: 0 <= i < |CategoryIds| ==> Year2MathCurriculum[i].id == CategoryIds[i]
  {
    forall i | 0 <= i < |CategoryIds|
      ensures Year2MathCurriculum[i].id == CategoryIds[i]
    {
      DerivedIdIsSlug(i);
      if i == 0 {
        CategoryIdOfNumberAndPlaceValue();
      } else if i == 1 {
        CategoryIdOfAdditionAndSubtraction();
      } else if i == 2 {
        CategoryIdOfMultiplicationAndDivision();
      } else if i == 3 {
        CategoryIdOfFractions();
      } else if i == 4 {
        CategoryIdOfMeasurement();
      } else if i == 5 {
        CategoryIdOfPropertiesOfShapes();
      } else if i == 6 {
        CategoryIdOfPositionAndDirection();
      } else {
        CategoryIdOfStatistics();
      }
    }
  }

  /** The table has eight categories with 6, 4, 7, 3, 7, 3, 4 and 5 topics. */
  lemma TableShape(raw: seq<RawCategory>)
    requires raw == RawCurriculum
    ensures |raw| == |TopicCounts|
    ensures forall i :: 0 <= i < |TopicCounts| ==> |raw[i].topics| == TopicCounts[i]
  {
    assert raw[0] == NumberAndPlaceValue;
    assert raw[1] == AdditionAndSubtraction;
    assert raw[2] == MultiplicationAndDivision;
    assert raw[3] == Fractions;
    assert raw[4] == Measurement;
    assert raw[5] == PropertiesOfShapes;
    assert raw[6] == PositionAndDirection;
    assert raw[7] == Statistics;
  }

  /**
   * The derived curriculum `year2MathCurriculum`: eight categories whose ids are the slugs
   * listed in `CategoryIds`, all different, holding 6, 4, 7, 3, 7, 3, 4 and 5 topics.
   */
  lemma DerivedCurriculumIds()
    ensures |Year2MathCurriculum| == 8
    ensures forall i :: 0 <= i < 8 ==> Year2MathCurriculum[i].id == CategoryIds[i]
    ensures forall a, b :: 0 <= a < b < 8 ==> Year2MathCurriculum[a].id != Year2MathCurriculum[b].id
    ensures forall i :: 0 <= i < 8 ==> |Year2MathCurriculum[i].topics| == TopicCounts[i]
  {
    DerivedCategoryIds();
    CategoryIdsDistinct();
    TableShape(RawCurriculum);
  }
}
