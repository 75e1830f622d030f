/**
 * Sentence builder: the words of a listed sentence are shown in shuffled order; the player drags
 * them into order and presses Check, which compares the joined words with the sentence.
 */
module SentenceBuilder {
  import opened Js
  import opened Shuffle

  const Sentences: seq<string> := [
    "The cat is sleeping on the mat",
    "I like to play football",
    "She is reading a book",
    "The dog is barking loudly",
    "We are going to school",
    "Birds fly in the sky",
    "He drinks milk every morning",
    "The sun rises in the east",
    "They are eating breakfast",
    "My mom is cooking dinner"
  ]

  /** The words of a sentence in order, and the order they are first shown in. */
  datatype Question = Question(correct: seq<string>, scrambled: seq<string>)

  /** Words as `split(' ')` produces them: at least one, none holding a space. */
  predicate Pieces(ws: seq<string>)
  {
    |ws| >= 1 && forall i :: 0 <= i < |ws| ==> ' ' !in ws[i]
  }

  /**
   * The question holds the words of the sentence `draw` picks: the sentence split at its
   * spaces, which join back into it.
   */
  predicate FromDraw(q: Question, draw: Unit)
  {
    var sentence := Sentences[RandomIndex(draw, |Sentences|)];
    q.correct == Split(sentence, ' ') && Join(q.correct, " ") == sentence
  }

  /** `generateQuestion`: a random sentence split at its spaces, and a shuffled copy of the words. */
  method GenerateQuestion(draw: Unit, shuffle: nat -> Unit) returns (q: Question)
    ensures FromDraw(q, draw)
    ensures Pieces(q.correct) && multiset(q.scrambled) == multiset(q.correct)
  {
    var sentence := Sentences[RandomIndex(draw, |Sentences|)];
    var words := Split(sentence, ' ');
    JoinSplit(sentence, ' ');
    var scrambled := ShuffleArray(words, shuffle);
    q := Question(words, scrambled);
  }

  /** A rearrangement of pieces is made of pieces. */
  lemma PiecesPermutation(ws: seq<string>, vs: seq<string>)
    requires Pieces(vs) && multiset(ws) == multiset(vs)
    ensures Pieces(ws)
  {
    assert |ws| == |multiset(vs)|;
    forall i | 0 <= i < |ws|
      ensures ' ' !in ws[i]
    {
      assert ws[i] in multiset(vs);
      var k :| 0 <= k < |vs| && vs[k] == ws[i];
    }
  }

  /** `words.join(' ') === question.correct.join(' ')`. */
  predicate SameSentence(words: seq<string>, correct: seq<string>)
  {
    Join(words, " ") == Join(correct, " ")
  }

  /** Joined with spaces, two lists of pieces read the same exactly when they are the same list. */
  lemma SameSentenceIff(words: seq<string>, correct: seq<string>)
    requires Pieces(words) && Pieces(correct)
    ensures SameSentence(words, correct) <==> words == correct
  {
    if SameSentence(words, correct) {
      SplitJoin(words, ' ');
      SplitJoin(correct, ' ');
    }
  }

  /** The colour of the chip at `index` after checking: green when it holds the sentence's word there. */
  predicate ChipCorrect(correct: seq<string>, words: seq<string>, index: nat)
    requires index < |words|
  {
    index < |correct| && correct[index] == words[index]
  }

  /** All chips are green exactly when the check accepts the order. */
  lemma AllChipsIff(words: seq<string>, correct: seq<string>)
    requires Pieces(correct) && multiset(words) == multiset(correct)
    ensures (forall i :: 0 <= i < |words| ==> ChipCorrect(correct, words, i)) <==> SameSentence(words, correct)
  {
    PiecesPermutation(words, correct);
    SameSentenceIff(words, correct);
    assert |words| == |multiset(correct)|;
    if forall i :: 0 <= i < |words| ==> ChipCorrect(correct, words, i) {
      forall i | 0 <= i < |words|
        ensures words[i] == correct[i]
      {
        assert ChipCorrect(correct, words, i);
      }
    }
  }

  /** One reorder: the word at position `from` is dragged to position `to`. */
  datatype Drag = Drag(from: nat, to: nat)

  /** The reorders one after the other; `None` when one names a position outside the list. */
  function Dragged<T>(s: seq<T>, drags: seq<Drag>): (r: Option<seq<T>>)
    ensures r.Some? ==> multiset(r.value) == multiset(s)
    decreases |drags|
  {
    if drags == [] then Some(s)
    else if drags[0].from < |s| && drags[0].to < |s| then Dragged(Move(s, drags[0].from, drags[0].to), drags[1..])
    else None
  }

  /** Dragging an element forward from `j` to `k` puts it at `k` and shifts the ones between. */
  lemma MoveForward<T>(s: seq<T>, j: nat, k: nat)
    requires k <= j < |s|
    ensures Move(s, j, k) == s[..k] + [s[j]] + s[k..j] + s[j + 1..]
  {
    var r := s[..j] + s[j + 1..];
    assert RemoveAt(s, j) == r;
    assert r[..k] == s[..k];
    assert r[k..] == s[k..j] + s[j + 1..];
  }

  /**
   * Whatever order the words are shown in, the sentence can be built: one drag per position
   * puts the right word there, so at most as many drags as words are needed.
   */
  lemma Solvable<T>(s: seq<T>, target: seq<T>) returns (drags: seq<Drag>)
    requires multiset(s) == multiset(target)
    ensures Dragged(s, drags) == Some(target) && |drags| <= |s|
  {
    assert |s| == |multiset(target)|;
    assert s[0..] == s && target[0..] == target;
    drags := ArrangeFrom(s, target, 0);
  }

  lemma {:induction false} ArrangeFrom<T>(s: seq<T>, target: seq<T>, k: nat) returns (drags: seq<Drag>)
    requires |s| == |target| && k <= |s|
    requires s[..k] == target[..k] && multiset(s[k..]) == multiset(target[k..])
    ensures Dragged(s, drags) == Some(target) && |drags| <= |s| - k
    decreases |s| - k
  {
    if k == |s| {
      assert s == s[..k] && target == target[..k];
      drags := [];
    } else {
      var j := Locate(s, target, k);
      var t := Move(s, j, k);
      DragStep(s, target, k, j);
      var rest := ArrangeFrom(t, target, k + 1);
      drags := [Drag(j, k)] + rest;
      assert drags[1..] == rest;
    }
  }

  /** Where the word the sentence needs at `k` stands among the words not yet placed. */
  lemma Locate<T>(s: seq<T>, target: seq<T>, k: nat) returns (j: nat)
    requires |s| == |target| && k < |s| && multiset(s[k..]) == multiset(target[k..])
    ensures k <= j < |s| && s[j] == target[k]
  {
    assert target[k] in multiset(target[k..]) by {
      assert target[k..][0] == target[k];
    }
    var i :| 0 <= i < |s[k..]| && s[k..][i] == target[k];
    j := k + i;
  }

  /** Dragging the needed word to `k` extends the placed prefix by one. */
  lemma DragStep<T>(s: seq<T>, target: seq<T>, k: nat, j: nat)
    requires |s| == |target| && k <= j < |s| && s[j] == target[k]
    requires s[..k] == target[..k] && multiset(s[k..]) == multiset(target[k..])
    ensures var t := Move(s, j, k);
      t[..k + 1] == target[..k + 1] && multiset(t[k + 1..]) == multiset(target[k + 1..])
  {
    var t := Move(s, j, k);
    var between := s[k..j] + s[j + 1..];
    MoveForward(s, j, k);
    assert t == s[..k] + [s[j]] + between;
    assert t[..k + 1] == s[..k] + [s[j]];
    assert t[k + 1..] == between;
    assert target[..k + 1] == target[..k] + [target[k]];
    RestCounts(s, target, k, j);
  }

  lemma RestCounts<T>(s: seq<T>, target: seq<T>, k: nat, j: nat)
    requires |s| == |target| && k <= j < |s| && s[j] == target[k]
    requires multiset(s[k..]) == multiset(target[k..])
    ensures multiset(s[k..j] + s[j + 1..]) == multiset(target[k + 1..])
  {
    assert s[k..] == s[k..j] + [s[j]] + s[j + 1..];
    assert target[k..] == [target[k]] + target[k + 1..];
    assert multiset(s[k..]) == multiset(s[k..j]) + multiset{s[j]} + multiset(s[j + 1..]);
    assert multiset(target[k..]) == multiset{target[k]} + multiset(target[k + 1..]);
    assert multiset(s[k..j] + s[j + 1..]) == multiset(s[k..]) - multiset{s[j]};
  }

  class Builder {
    var question: Question
    /** The words in the order now shown. */
    var words: seq<string>
    /** Whether the current order was checked; then it is locked until the next question. */
    var selected: bool
    /** `Some(true)` for a right answer, `Some(false)` for a wrong one. */
    var feedback: Option<bool>
    var score: nat
    var total: nat

    predicate Valid()
      reads this
    {
      && Pieces(question.correct)
      && multiset(words) == multiset(question.correct)
      && score <= total
    }

    /** A first question, shown in its scrambled order. */
    constructor(draw: Unit, shuffle: nat -> Unit)
      ensures Valid()
      ensures FromDraw(question, draw) && words == question.scrambled
      ensures !selected && feedback.None? && score == 0 && total == 0
    {
      var q := GenerateQuestion(draw, shuffle);
      question := q;
      words := q.scrambled;
      selected := false;
      feedback := None;
      score := 0;
      total := 0;
    }

    /**
     * `handleDragEnd`: a drop outside the list, or any drop after checking, changes nothing;
     * otherwise the dragged word moves to the drop position.
     */
    method DragEnd(source: nat, destination: Option<nat>)
      requires Valid() && source < |words|
      requires destination.Some? ==> destination.value < |words|
      modifies this
      ensures Valid()
      ensures destination.None? || old(selected) ==> words == old(words)
      ensures destination.Some? && !old(selected) ==> words == Move(old(words), source, destination.value)
      ensures multiset(words) == multiset(old(words))
      ensures question == old(question) && selected == old(selected) && feedback == old(feedback)
      ensures score == old(score) && total == old(total)
    {
      if destination.None? || selected {
        return;
      }
      words := Move(words, source, destination.value);
    }

    /**
     * `handleCheck`: only the first check of a question counts; it adds one to the total, and
     * one to the score exactly when the words stand in the sentence's order.
     */
    method Check()
      requires Valid()
      modifies this
      ensures Valid()
      ensures old(selected) ==> score == old(score) && total == old(total) && feedback == old(feedback)
      ensures !old(selected) ==> total == old(total) + 1 && feedback == Some(words == question.correct)
      ensures !old(selected) ==> score == old(score) + (if words == question.correct then 1 else 0)
      ensures selected && question == old(question) && words == old(words)
    {
      if selected {
        return;
      }
      selected := true;
      total := total + 1;
      PiecesPermutation(words, question.correct);
      SameSentenceIff(words, question.correct);
      var isCorrect := SameSentence(words, question.correct);
      if isCorrect {
        score := score + 1;
      }
      feedback := Some(isCorrect);
    }

    /** The delayed step after a check: a new question in its scrambled order, unlocked. */
    method Advance(draw: Unit, shuffle: nat -> Unit)
      requires Valid()
      modifies this
      ensures Valid()
      ensures old(selected) ==>
        FromDraw(question, draw) && words == question.scrambled && !selected && feedback.None?
      ensures !old(selected) ==> question == old(question) && words == old(words) && selected == old(selected) && feedback == old(feedback)
      ensures score == old(score) && total == old(total)
    {
      if selected {
        var next := GenerateQuestion(draw, shuffle);
        question, words, selected, feedback := next, next.scrambled, false, None;
      }
    }
  }
}
