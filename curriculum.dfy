/**
 * The year 2 mathematics curriculum: the hand-written table of categories and topics and the
 * tree the application derives from it, where every id is recomputed with `toKebabCase` and
 * every topic receives the same four challenges.
 */
module Curriculum {
  import opened KebabCase

  /** An entry of the hand-written table; its `id` is not used by the derived tree. */
  datatype RawTopic = RawTopic(id: string, name: string)

  datatype RawCategory = RawCategory(title: string, topics: seq<RawTopic>)

  datatype ChallengeInfo = ChallengeInfo(id: nat, title: string)

  datatype Topic = Topic(id: string, name: string, challenges: seq<ChallengeInfo>)

  datatype Category = Category(id: string, title: string, topics: seq<Topic>)

  const NumberAndPlaceValue: RawCategory := RawCategory("Number - Number and Place Value", [
      RawTopic("numbers-and-counting", "Numbers and Counting"),
      RawTopic("counting-forwards-and-backwards", "Counting Forwards and Backwards"),
      RawTopic("counting-in-steps-of-2-3-5-and-10", "Counting in Steps of 2, 3, 5 and 10"),
      RawTopic("counting-more-and-less", "Counting More and Less"),
      RawTopic("place-value", "Place Value"),
      RawTopic("less-than-greater-than-and-equal-to", "Less Than, Greater Than and Equal To")
    ])

  const AdditionAndSubtraction: RawCategory := RawCategory("Number - Addition and Subtraction", [
      RawTopic("doubling-and-halving-using-addition-and-subtraction", "Doubling and Halving using Addition and Subtraction"),
      RawTopic("solving-number-problems", "Solving Number Problems"),
      RawTopic("using-two-digit-numbers", "Using Two-Digit Numbers"),
      RawTopic("solving-missing-number-problems", "Solving Missing Number Problems")
    ])

  const MultiplicationAndDivision: RawCategory := RawCategory("Number - Multiplication and Division", [
      RawTopic("what-is-multiplication", "What is Multiplication?"),
      RawTopic("what-is-division", "What is Division?"),
      RawTopic("2-5-and-10-multiplication-tables", "2, 5 and 10 Multiplication Tables"),
      RawTopic("division-problems", "Division Problems"),
      RawTopic("connecting-multiplication-and-division", "Connecting Multiplication and Division"),
      RawTopic("doubling-and-halving-using-multiplication-and-division", "Doubling and Halving using Multiplication and Division"),
      RawTopic("solving-multiplication-and-division-problems", "Solving Multiplication and Division Problems")
    ])

  const Fractions: RawCategory := RawCategory("Number - Fractions", [
      RawTopic("what-is-a-fraction", "What is a Fraction?"),
      RawTopic("fractions-of-numbers", "Fractions of Numbers"),
      RawTopic("finding-fractions-of-larger-groups", "Finding Fractions of Larger Groups")
    ])

  const Measurement: RawCategory := RawCategory("Measurement", [
      RawTopic("measuring-length-and-height", "Measuring Length and Height"),
      RawTopic("measuring-weight-and-volume", "Measuring Weight and Volume"),
      RawTopic("comparing-measurements", "Comparing Measurements"),
      RawTopic("measuring-temperature", "Measuring Temperature"),
      RawTopic("measuring-time", "Measuring Time"),
      RawTopic("standard-units-of-money", "Standard Units of Money"),
      RawTopic("money-problems", "Money Problems")
    ])

  const PropertiesOfShapes: RawCategory := RawCategory("Geometry \U{2013} Properties of Shapes", [
      RawTopic("2-d-shapes", "2-D Shapes"),
      RawTopic("3-d-shapes", "3-D Shapes"),
      RawTopic("different-shapes", "Different Shapes")
    ])

  const PositionAndDirection: RawCategory := RawCategory("Geometry \U{2013} Position and Direction", [
      RawTopic("patterns", "Patterns"),
      RawTopic("sequences", "Sequences"),
      RawTopic("quarter-turns-and-half-turns", "Quarter Turns and Half Turns"),
      RawTopic("right-angle-turns", "Right-Angle Turns")
    ])

  const Statistics: RawCategory := RawCategory("Statistics", [
      RawTopic("pictograms", "Pictograms"),
      RawTopic("tally-charts", "Tally Charts"),
      RawTopic("block-diagrams", "Block Diagrams"),
      RawTopic("tables", "Tables"),
      RawTopic("gathering-information-and-using-data", "Gathering Information and Using Data")
    ])

  /** `rawCurriculum`, in the order of the table. */
  const RawCurriculum: seq<RawCategory> :=
    [NumberAndPlaceValue, AdditionAndSubtraction, MultiplicationAndDivision, Fractions, Measurement, PropertiesOfShapes, PositionAndDirection, Statistics]

  /** The challenge list every derived topic carries. */
  const FourChallenges: seq<ChallengeInfo> :=
    [ChallengeInfo(1, "Challenge 1"), ChallengeInfo(2, "Challenge 2"), ChallengeInfo(3, "Challenge 3"), ChallengeInfo(4, "Challenge 4")]

  /** A topic of the derived tree: its id is the slug of its name, whatever id the table wrote. */
  function DeriveTopic(t: RawTopic): (r: Topic)
    ensures IsId(r.id) && r.name == t.name && r.challenges == FourChallenges
  {
    Topic(ToKebabCase(t.name), t.name, FourChallenges)
  }

  function DeriveCategory(c: RawCategory): (r: Category)
    ensures IsId(r.id) && r.title == c.title && |r.topics| == |c.topics|
    ensures forall j :: 0 <= j < |c.topics| ==> r.topics[j] == DeriveTopic(c.topics[j])
  {
    Category(ToKebabCase(c.title), c.title, seq(|c.topics|, j requires 0 <= j < |c.topics| => DeriveTopic(c.topics[j])))
  }

  /** `rawCurriculum.map(...)`: the derived tree keeps the order of the table. */
  function Derive(raw: seq<RawCategory>): (r: seq<Category>)
    ensures |r| == |raw|
    ensures forall i :: 0 <= i < |raw| ==> r[i] == DeriveCategory(raw[i])
  {
    seq(|raw|, i requires 0 <= i < |raw| => DeriveCategory(raw[i]))
  }

  /** `year2MathCurriculum`. */
  const Year2MathCurriculum: seq<Category> := Derive(RawCurriculum)

  /** Every derived topic carries four challenges, and each challenge id is its position plus one. */
  lemma ChallengeIdsArePositions(raw: seq<RawCategory>, i: nat, j: nat)
    requires i < |raw| && j < |raw[i].topics|
    ensures |Derive(raw)[i].topics[j].challenges| == 4
    ensures forall k :: 0 <= k < 4 ==> Derive(raw)[i].topics[j].challenges[k].id == k + 1
  {
    assert Derive(raw)[i].topics[j] == DeriveTopic(raw[i].topics[j]);
  }
}
