/**
 * The shape quiz: a shape is drawn and the player picks its name among four options; a score is
 * kept.
 */
module ShapeQuiz {
  import opened Js
  import opened Drill
  import opened Shuffle

  datatype Shape = Shape(name: string, id: string)

  const Shapes: seq<Shape> := [
    Shape("Circle", "circle"), Shape("Square", "square"), Shape("Rectangle", "rectangle"),
    Shape("Triangle", "triangle"), Shape("Diamond", "diamond"), Shape("Pentagon", "pentagon"),
    Shape("Hexagon", "hexagon"), Shape("Star", "star"), Shape("Heart", "heart"),
    Shape("Oval", "oval"), Shape("Trapezoid", "trapezoid")]

  predicate UniqueIds(s: seq<Shape>)
  {
    forall i, j :: 0 <= i < j < |s| ==> s[i].id != s[j].id
  }

  /** No two of the eleven shapes share an id. */
  lemma ShapesUnique()
    ensures |Shapes| == 11 && UniqueIds(Shapes)
  {
    var ids := ["circle", "square", "rectangle", "triangle", "diamond", "pentagon", "hexagon", "star", "heart", "oval", "trapezoid"];
    assert forall k :: 0 <= k < 11 ==> Shapes[k].id == ids[k];
  }

  /** `shapes.filter(s => s.id !== id)`. */
  function Without(s: seq<Shape>, id: string): (r: seq<Shape>)
    ensures forall x :: x in r <==> x in s && x.id != id
    ensures |r| <= |s|
  {
    if s == [] then []
    else if s[0].id != id then [s[0]] + Without(s[1..], id)
    else Without(s[1..], id)
  }

  /** Filtering keeps the ids unique, and drops exactly one shape when one has the id. */
  lemma {:induction false} WithoutOne(s: seq<Shape>, id: string)
    requires UniqueIds(s)
    ensures UniqueIds(Without(s, id))
    ensures (exists k :: 0 <= k < |s| && s[k].id == id) ==> |Without(s, id)| == |s| - 1
  {
    if s != [] {
      WithoutOne(s[1..], id);
      var rest := Without(s[1..], id);
      if s[0].id != id {
        var r := [s[0]] + rest;
        forall i, j | 0 <= i < j < |r|
          ensures r[i].id != r[j].id
        {
          if i == 0 {
            assert r[j] in rest;
            var k :| 0 <= k < |s[1..]| && s[1..][k] == r[j];
            assert s[k + 1] == r[j];
          }
        }
        if exists k :: 0 <= k < |s| && s[k].id == id {
          var k :| 0 <= k < |s| && s[k].id == id;
          assert s[1..][k - 1].id == id;
        }
      } else {
        assert forall k :: 1 <= k < |s| ==> s[k].id != id;
        assert !exists k :: 0 <= k < |s[1..]| && s[1..][k].id == id by {
          forall k | 0 <= k < |s[1..]|
            ensures s[1..][k].id != id
          {
            assert s[1..][k] == s[k + 1];
          }
        }
        NoneRemoved(s[1..], id);
      }
    }
  }

  /** Without a shape of that id, filtering removes nothing. */
  lemma {:induction false} NoneRemoved(s: seq<Shape>, id: string)
    requires forall k :: 0 <= k < |s| ==> s[k].id != id
    ensures Without(s, id) == s
  {
    if s != [] {
      NoneRemoved(s[1..], id);
      assert s == [s[0]] + s[1..];
    }
  }

  datatype Question = Question(shape: Shape, options: seq<Shape>)

  /** Four shapes with different ids, all from the list, one of them the shape asked about. */
  predicate WellFormed(q: Question)
  {
    && |q.options| == 4
    && UniqueIds(q.options)
    && q.shape in q.options
    && forall o :: o in q.options ==> o in Shapes
  }

  /**
   * `generateQuestion`: a random shape, three of the others in shuffled order, and the four
   * shuffled together. `otherShuffle` and `optionShuffle` feed the two shuffles.
   */
  method GenerateQuestion(r: Unit, otherShuffle: nat -> Unit, optionShuffle: nat -> Unit) returns (q: Question)
    ensures WellFormed(q)
    ensures q.shape == Shapes[RandomIndex(r, 11)]
  {
    ShapesUnique();
    var correct := Shapes[RandomIndex(r, |Shapes|)];
    var others := Without(Shapes, correct.id);
    WithoutOne(Shapes, correct.id);
    var options := Options(correct, others, otherShuffle, optionShuffle);
    q := Question(correct, options);
  }

  /** The first three of the shuffled others and the shape asked about, shuffled together. */
  method Options(correct: Shape, others: seq<Shape>, otherShuffle: nat -> Unit, optionShuffle: nat -> Unit)
    returns (options: seq<Shape>)
    requires UniqueIds(others) && |others| >= 3
    requires forall x :: x in others ==> x.id != correct.id
    ensures |options| == 4 && UniqueIds(options) && correct in options
    ensures forall o :: o in options ==> o == correct || o in others
  {
    var shuffled := ShuffleArray(others, otherShuffle);
    var selected := shuffled[..3];
    var all := selected + [correct];
    forall o | o in all
      ensures o == correct || o in others
    {
      if o != correct {
        assert o in shuffled;
        assert o in multiset(shuffled);
      }
    }
    UniqueIdsPermutation(shuffled, others, all);
    options := ShuffleArray(all, optionShuffle);
    assert correct in multiset(options) by { assert all[3] == correct; }
    forall o | o in options
      ensures o in all
    {
      assert o in multiset(all);
    }
    UniqueAfterShuffle(options, all);
  }

  /** The three others plus the shape asked about have unique ids. */
  lemma UniqueIdsPermutation(shuffled: seq<Shape>, others: seq<Shape>, all: seq<Shape>)
    requires multiset(shuffled) == multiset(others) && UniqueIds(others) && |shuffled| >= 3
    requires |all| == 4 && all[..3] == shuffled[..3]
    requires forall x :: x in others ==> x.id != all[3].id
    ensures UniqueIds(all)
  {
    forall i, j | 0 <= i < j < 4
      ensures all[i].id != all[j].id
    {
      assert shuffled[i] in multiset(others);
      if j == 3 {
        assert all[i] == shuffled[i];
      } else {
        assert shuffled[j] in multiset(others);
        SameIdSameShape(shuffled, others, i, j);
      }
    }
  }

  /** Two positions of a permutation of unique-id shapes have different ids. */
  lemma SameIdSameShape(cs: seq<Shape>, ds: seq<Shape>, i: nat, j: nat)
    requires multiset(cs) == multiset(ds) && UniqueIds(ds) && i < j < |cs|
    ensures cs[i].id != cs[j].id
  {
    assert cs[i] in multiset(ds) && cs[j] in multiset(ds);
    var k :| 0 <= k < |ds| && ds[k] == cs[i];
    var l :| 0 <= l < |ds| && ds[l] == cs[j];
    if cs[i].id == cs[j].id {
      assert k == l;
      var x := cs[i];
      assert cs == cs[..i] + [x] + cs[i + 1..j] + [x] + cs[j + 1..];
      assert multiset(cs)[x] >= 2;
      assert Distinct(ds);
      DistinctCount(ds, x);
      assert false;
    }
  }

  lemma UniqueAfterShuffle(cs: seq<Shape>, ds: seq<Shape>)
    requires multiset(cs) == multiset(ds) && UniqueIds(ds)
    ensures UniqueIds(cs)
  {
    forall i, j | 0 <= i < j < |cs|
      ensures cs[i].id != cs[j].id
    {
      SameIdSameShape(cs, ds, i, j);
    }
  }

  /** With unique ids, picking by id is picking the shape. */
  lemma PickedById(q: Question, option: Shape)
    requires WellFormed(q) && option in q.options
    ensures option.id == q.shape.id <==> option == q.shape
  {
    var i :| 0 <= i < 4 && q.options[i] == option;
    var j :| 0 <= j < 4 && q.options[j] == q.shape;
  }

  class Quiz {
    var question: Question
    /** The id of the chosen option, if one was chosen. */
    var selected: Option<string>
    var score: nat
    var total: nat

    predicate Valid()
      reads this
    {
      WellFormed(question) && score <= total
    }

    constructor(r: Unit, otherShuffle: nat -> Unit, optionShuffle: nat -> Unit)
      ensures Valid()
      ensures question.shape == Shapes[RandomIndex(r, 11)] && selected.None? && score == 0 && total == 0
    {
      var q := GenerateQuestion(r, otherShuffle, optionShuffle);
      question := q;
      selected := None;
      score := 0;
      total := 0;
    }

    /**
     * `handleSelect`: only the first choice counts; it adds one to the total, and one to the
     * score when it is the shape shown.
     */
    method Select(option: Shape)
      requires Valid() && option in question.options
      modifies this
      ensures Valid()
      ensures old(selected).Some? ==> selected == old(selected) && score == old(score) && total == old(total)
      ensures old(selected).None? ==> selected == Some(option.id) && total == old(total) + 1
      ensures old(selected).None? ==> score == old(score) + (if option == question.shape then 1 else 0)
      ensures question == old(question)
    {
      if selected.Some? {
        return;
      }
      PickedById(question, option);
      selected := Some(option.id);
      total := total + 1;
      if option.id == question.shape.id {
        score := score + 1;
      }
    }

    /** The delayed step after a choice: a new question, nothing selected. */
    method Next(r: Unit, otherShuffle: nat -> Unit, optionShuffle: nat -> Unit)
      requires Valid()
      modifies this
      ensures Valid()
      ensures old(selected).Some? ==> question.shape == Shapes[RandomIndex(r, 11)] && selected.None?
      ensures old(selected).None? ==> question == old(question) && selected == old(selected)
      ensures score == old(score) && total == old(total)
    {
      if selected.Some? {
        var q := GenerateQuestion(r, otherShuffle, optionShuffle);
        question := q;
        selected := None;
      }
    }
  }
}
