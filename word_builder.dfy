/**
 * Word builder: a three-letter word is shown with one letter blanked out, and the player picks the
 * missing letter among four; a score is kept.
 */
module WordBuilder {
  import opened Js
  import opened Drill
  import opened Shuffle

  const Words: seq<string> := ["cat", "bat", "mat", "rat", "hat", "man", "fan", "can", "pan", "cap"]

  const Alphabet: string := "abcdefghijklmnopqrstuvwxyz"

  predicate IsLower(c: char)
  {
    'a' <= c <= 'z'
  }

  /** The alphabet is the 26 lower-case letters in order, each once. */
  lemma AlphabetLetters()
    ensures |Alphabet| == 26 && Distinct(Alphabet)
    ensures forall c :: c in Alphabet <==> IsLower(c)
  {
    assert forall k :: 0 <= k < 26 ==> Alphabet[k] as int == 'a' as int + k;
    forall c | IsLower(c)
      ensures c in Alphabet
    {
      assert Alphabet[c as int - 'a' as int] == c;
    }
  }

  /** Every word is made of lower-case letters only. */
  lemma WordsLower()
    ensures forall w, c :: w in Words && c in w ==> IsLower(c)
  {
    forall w, c | w in Words && c in w
      ensures IsLower(c)
    {
      var k :| 0 <= k < |Words| && Words[k] == w;
      assert |w| == 3;
    }
  }

  datatype Question = Question(word: string, missingIndex: nat, correctLetter: char, options: seq<char>)

  /**
   * A listed word, a position inside it, the letter at that position as the answer, and four
   * different lower-case letters to choose from, the answer among them.
   */
  predicate WellFormed(q: Question)
  {
    && q.word in Words
    && q.missingIndex < |q.word|
    && q.correctLetter == q.word[q.missingIndex]
    && |q.options| == 4
    && Distinct(q.options)
    && q.correctLetter in q.options
    && forall o :: o in q.options ==> IsLower(o)
  }

  /**
   * `generateQuestion`: a random word and position; three letters of the shuffled alphabet
   * without the answer, and the answer, shuffled together.
   */
  method GenerateQuestion(wordDraw: Unit, indexDraw: Unit, alphabetShuffle: nat -> Unit, optionShuffle: nat -> Unit)
    returns (q: Question)
    ensures WellFormed(q)
    ensures q.word == Words[RandomIndex(wordDraw, 10)] && q.missingIndex == RandomIndex(indexDraw, |q.word|)
  {
    var word := Words[RandomIndex(wordDraw, |Words|)];
    var missingIndex := RandomIndex(indexDraw, |word|);
    var correct := word[missingIndex];
    AlphabetLetters();
    WordsLower();
    assert correct in word;
    var alphabet := Remove(Alphabet, correct);
    var options := ShuffledOptions(correct, alphabet, alphabetShuffle, optionShuffle);
    q := Question(word, missingIndex, correct, options);
  }

  /** `displayWord`: the word with its missing letter replaced by an underscore. */
  function Display(word: string, missingIndex: nat): (r: string)
    requires missingIndex < |word|
    ensures |r| == |word|
    ensures forall i :: 0 <= i < |r| && i != missingIndex ==> r[i] == word[i]
  {
    word[..missingIndex] + "_" + word[missingIndex + 1..]
  }

  /** The blank is the only underscore shown, and putting the answer in it gives the word back. */
  lemma DisplayBlank(q: Question)
    requires WellFormed(q)
    ensures forall i :: 0 <= i < 3 ==> (Display(q.word, q.missingIndex)[i] == '_' <==> i == q.missingIndex)
    ensures Display(q.word, q.missingIndex)[q.missingIndex := q.correctLetter] == q.word
  {
    WordsLower();
    var d := Display(q.word, q.missingIndex);
    assert |q.word| == 3 by {
      var k :| 0 <= k < |Words| && Words[k] == q.word;
    }
    assert d[q.missingIndex] == '_';
    forall i | 0 <= i < 3 && i != q.missingIndex
      ensures d[i] != '_'
    {
      assert q.word[i] in q.word;
    }
  }

  class Builder {
    var question: Question
    /** The letter chosen, if one was chosen. */
    var selected: Option<char>
    var score: nat
    var total: nat

    predicate Valid()
      reads this
    {
      WellFormed(question) && score <= total
    }

    constructor(wordDraw: Unit, indexDraw: Unit, alphabetShuffle: nat -> Unit, optionShuffle: nat -> Unit)
      ensures Valid()
      ensures question.word == Words[RandomIndex(wordDraw, 10)] && selected.None? && score == 0 && total == 0
    {
      var q := GenerateQuestion(wordDraw, indexDraw, alphabetShuffle, optionShuffle);
      question := q;
      selected := None;
      score := 0;
      total := 0;
    }

    /**
     * `handleSelect`: only the first choice counts; it adds one to the total, and one to the
     * score when it is the missing letter.
     */
    method Select(letter: char)
      requires Valid()
      modifies this
      ensures Valid()
      ensures old(selected).Some? ==> selected == old(selected) && score == old(score) && total == old(total)
      ensures old(selected).None? ==> selected == Some(letter) && total == old(total) + 1
      ensures old(selected).None? ==> score == old(score) + (if letter == question.word[question.missingIndex] then 1 else 0)
      ensures question == old(question)
    {
      if selected.Some? {
        return;
      }
      selected := Some(letter);
      total := total + 1;
      if letter == question.correctLetter {
        score := score + 1;
      }
    }

    /** The delayed step after a choice: a new question, nothing selected. */
    method Next(wordDraw: Unit, indexDraw: Unit, alphabetShuffle: nat -> Unit, optionShuffle: nat -> Unit)
      requires Valid()
      modifies this
      ensures Valid()
      ensures old(selected).Some? ==> question.word == Words[RandomIndex(wordDraw, 10)] && selected.None?
      ensures old(selected).None? ==> question == old(question) && selected == old(selected)
      ensures score == old(score) && total == old(total)
    {
      if selected.Some? {
        var q := GenerateQuestion(wordDraw, indexDraw, alphabetShuffle, optionShuffle);
        question := q;
        selected := None;
      }
    }
  }
}
