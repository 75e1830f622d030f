/**
 * Flag finder: the country list is fetched once and cleaned; each question shows the flag of a
 * random country and four country names, and the first click on a name is scored.
 */
module FlagFinder {
  import opened Js
  import opened Drill
  import opened Shuffle
  import Distractors

  // ---------------------------------------------------------------------------
  // Country records
  // ---------------------------------------------------------------------------

  /** One entry of the fetched list: `name.common`, `flags.svg` and `flags.alt`, each possibly missing. */
  datatype Entry = Entry(common: Option<string>, svg: Option<string>, alt: Option<string>)

  /** A country as the game uses it. */
  datatype Country = Country(name: string, flag: string, alt: string)

  /** JavaScript truthiness of an optional string: present and not empty. */
  predicate Present(s: Option<string>)
  {
    s.Some? && s.value != ""
  }

  /** The filter: an entry with a common name and an svg flag. */
  predicate Usable(e: Entry)
  {
    Present(e.common) && Present(e.svg)
  }

  /** `trim` leaves nothing more to trim. */
  lemma TrimIdempotent(s: string)
    ensures Trim(Trim(s)) == Trim(s)
  {
    var _ := TrimSlice(s);
    TrimNoSpaceEnds(Trim(s));
  }

  /**
   * The map: the trimmed common name, the svg flag, and the entry's alt text or, without one,
   * "Flag of " and the untrimmed common name.
   */
  function Formatted(e: Entry): (c: Country)
    requires Usable(e)
    ensures Trim(c.name) == c.name && c.flag == e.svg.value && c.flag != "" && c.alt != ""
    ensures Present(e.alt) ==> c.alt == e.alt.value
  {
    TrimIdempotent(e.common.value);
    Country(Trim(e.common.value), e.svg.value, if Present(e.alt) then e.alt.value else "Flag of " + e.common.value)
  }

  /** A cleaned record: a trimmed name, a flag and an alt text. */
  predicate Tidy(c: Country)
  {
    Trim(c.name) == c.name && c.flag != "" && c.alt != ""
  }

  /** `data.filter(...).map(...)`: every usable entry, formatted, in order; nothing else. */
  function Format(data: seq<Entry>): (r: seq<Country>)
    ensures |r| <= |data|
    ensures forall c :: c in r ==> Tidy(c)
    ensures forall i :: 0 <= i < |data| && Usable(data[i]) ==> Formatted(data[i]) in r
    ensures forall c :: c in r ==> exists i :: 0 <= i < |data| && Usable(data[i]) && c == Formatted(data[i])
    ensures r == [] <==> forall i :: 0 <= i < |data| ==> !Usable(data[i])
  {
    if data == [] then []
    else
      var rest := Format(data[1..]);
      assert forall i :: 1 <= i < |data| ==> data[i] == data[1..][i - 1];
      var head := if Usable(data[0]) then [Formatted(data[0])] else [];
      forall c | c in head + rest
        ensures exists i :: 0 <= i < |data| && Usable(data[i]) && c == Formatted(data[i])
      {
        if c !in head {
          var i :| 0 <= i < |data[1..]| && Usable(data[1..][i]) && c == Formatted(data[1..][i]);
          assert data[i + 1] == data[1..][i];
        }
      }
      head + rest
  }

  /** The filter looks at the untrimmed name: a name of white space is kept, and becomes empty. */
  lemma BlankNameKept()
    ensures Format([Entry(Some(" "), Some("f.svg"), None)]) == [Country("", "f.svg", "Flag of  ")]
  {
    var e := Entry(Some(" "), Some("f.svg"), None);
    assert IsSpace(' ') && " "[1..] == "";
    assert TrimStart(" ") == "";
    assert Trim(" ") == "";
    assert Formatted(e) == Country("", "f.svg", "Flag of  ");
    assert [e][1..] == [];
    assert Format([e]) == [Formatted(e)] + Format([]);
  }

  // ---------------------------------------------------------------------------
  // Questions
  // ---------------------------------------------------------------------------

  /** The countries' names, in order. */
  function Names(cs: seq<Country>): (r: seq<string>)
    ensures |r| == |cs| && forall i :: 0 <= i < |cs| ==> r[i] == cs[i].name
  {
    seq(|cs|, i requires 0 <= i < |cs| => cs[i].name)
  }

  /** The different names in a list. */
  function NameSet(list: seq<Country>): set<string>
  {
    set c | c in list :: c.name
  }

  /**
   * The option loop: a random country is added when no option has its name yet, until there
   * are four options. The page draws as often as it needs; `draws` are the values it gets, and
   * when they run out before four options are chosen, the loop has not ended.
   */
  function Pick(list: seq<Country>, options: seq<Country>, draws: seq<Unit>): seq<Country>
    requires |list| > 0
    decreases |draws|
  {
    if |options| >= 4 || draws == [] then options
    else
      var c := list[RandomIndex(draws[0], |list|)];
      Pick(list, if c.name in Names(options) then options else options + [c], draws[1..])
  }

  /** Options with different names, all taken from the list. */
  predicate Fits(list: seq<Country>, options: seq<Country>)
  {
    Distinct(Names(options)) && forall o :: o in options ==> o in list
  }

  /** The loop only adds countries of the list with new names, and stops at four. */
  lemma {:induction false} PickFits(list: seq<Country>, options: seq<Country>, draws: seq<Unit>)
    requires |list| > 0 && Fits(list, options) && |options| <= 4
    ensures var r := Pick(list, options, draws);
      Fits(list, r) && |r| <= 4 && options <= r
    decreases |draws|
  {
    if |options| < 4 && draws != [] {
      var c := list[RandomIndex(draws[0], |list|)];
      var next := if c.name in Names(options) then options else options + [c];
      assert Fits(list, next) by {
        assert Names(options + [c]) == Names(options) + [c.name];
      }
      PickFits(list, next, draws[1..]);
    }
  }

  /** Options with different names from the list are no more than the list's different names. */
  lemma FitsBound(list: seq<Country>, options: seq<Country>)
    requires Fits(list, options)
    ensures |options| <= |NameSet(list)|
  {
    var ns := Names(options);
    DistinctCardinality(ns);
    assert (set x | x in ns) <= NameSet(list) by {
      forall x | x in ns
        ensures x in NameSet(list)
      {
        var i :| 0 <= i < |ns| && ns[i] == x;
        assert options[i] in list;
      }
    }
    assert |NameSet(list) - (set x | x in ns)| == |NameSet(list)| - |set x | x in ns|;
  }

  /** With fewer than four different names in the list, the loop never ends, whatever the draws. */
  lemma Stuck(list: seq<Country>, first: Unit, draws: seq<Unit>)
    requires |list| > 0 && |NameSet(list)| < 4
    ensures |Pick(list, [list[RandomIndex(first, |list|)]], draws)| < 4
  {
    var start := [list[RandomIndex(first, |list|)]];
    PickFits(list, start, draws);
    FitsBound(list, Pick(list, start, draws));
  }

  /** One round of the loop that adds its country. */
  lemma AddStep(list: seq<Country>, options: seq<Country>, draws: seq<Unit>)
    requires |list| > 0 && |options| < 4 && draws != []
    requires list[RandomIndex(draws[0], |list|)].name !in Names(options)
    ensures Pick(list, options, draws) == Pick(list, options + [list[RandomIndex(draws[0], |list|)]], draws[1..])
  {
  }

  /** A country of the list with a name outside `taken`, when the list has more names than `taken`. */
  lemma OtherName(list: seq<Country>, taken: set<string>) returns (i: nat)
    requires |NameSet(list)| > |taken|
    ensures i < |list| && list[i].name !in taken
  {
    var rest := NameSet(list) - taken;
    assert |rest| > 0 by {
      assert |NameSet(list)| <= |rest| + |taken| by {
        assert NameSet(list) <= rest + taken;
      }
    }
    var n :| n in rest;
    var c :| c in list && c.name == n;
    i :| 0 <= i < |list| && list[i] == c;
  }

  /** With four different names in the list, some draws end the loop after three more rounds. */
  lemma Finishes(list: seq<Country>, first: Unit) returns (draws: seq<Unit>)
    requires |NameSet(list)| >= 4
    ensures |list| > 0 && |Pick(list, [list[RandomIndex(first, |list|)]], draws)| == 4
  {
    var n := |list|;
    var _ := OtherName(list, {});
    var c := list[RandomIndex(first, n)];
    var a := OtherName(list, {c.name});
    var b := OtherName(list, {c.name, list[a].name});
    var d := OtherName(list, {c.name, list[a].name, list[b].name});
    var ra, rb, rd := Distractors.DrawFor(a, n), Distractors.DrawFor(b, n), Distractors.DrawFor(d, n);
    draws := [ra, rb, rd];
    var o1 := [c];
    var o2 := o1 + [list[a]];
    var o3 := o2 + [list[b]];
    var o4 := o3 + [list[d]];
    assert Names(o1) == [c.name];
    assert Names(o2) == [c.name, list[a].name];
    assert Names(o3) == [c.name, list[a].name, list[b].name];
    assert draws[1..] == [rb, rd] && [rb, rd][1..] == [rd] && [rd][1..] == [];
    AddStep(list, o1, draws);
    AddStep(list, o2, [rb, rd]);
    AddStep(list, o3, [rd]);
    assert Pick(list, o4, []) == o4;
  }

  /** The loop can end exactly when the list holds at least four different names. */
  lemma EndsIff(list: seq<Country>, first: Unit)
    requires |list| > 0
    ensures (exists draws :: |Pick(list, [list[RandomIndex(first, |list|)]], draws)| == 4) <==> |NameSet(list)| >= 4
  {
    if |NameSet(list)| >= 4 {
      var draws := Finishes(list, first);
    } else {
      forall draws
        ensures |Pick(list, [list[RandomIndex(first, |list|)]], draws)| < 4
      {
        Stuck(list, first, draws);
      }
    }
  }

  /** The draws let the page build a question: the list is not empty and the loop ends. */
  predicate Ends(list: seq<Country>, first: Unit, draws: seq<Unit>)
  {
    |list| > 0 && |Pick(list, [list[RandomIndex(first, |list|)]], draws)| == 4
  }

  datatype Question = Question(correct: Country, options: seq<Country>)

  /** Four options with different names, the correct country among them, all from the list. */
  predicate Good(q: Question, list: seq<Country>)
  {
    |q.options| == 4 && Fits(list, q.options) && q.correct in q.options
  }

  /** The option loop, as the page runs it. */
  method PickLoop(list: seq<Country>, correct: Country, draws: seq<Unit>) returns (options: seq<Country>)
    requires |list| > 0
    ensures options == Pick(list, [correct], draws)
  {
    options := [correct];
    var k := 0;
    while |options| < 4 && k < |draws|
      invariant 0 <= k <= |draws|
      invariant Pick(list, options, draws[k..]) == Pick(list, [correct], draws)
      decreases |draws| - k
    {
      var random := list[RandomIndex(draws[k], |list|)];
      assert draws[k..][1..] == draws[k + 1..];
      if random.name !in Names(options) {
        options := options + [random];
      }
      k := k + 1;
    }
  }

  /**
   * `generateQuestion`: a random correct country, the option loop, and the options shuffled.
   * An empty list has no country to name and the page's call fails; `None` also stands for a loop
   * that the draws do not end.
   */
  method GenerateQuestion(list: seq<Country>, first: Unit, draws: seq<Unit>, shuffle: nat -> Unit) returns (q: Option<Question>)
    ensures q.None? <==> !Ends(list, first, draws)
    ensures q.Some? ==> Good(q.value, list) && q.value.correct == list[RandomIndex(first, |list|)]
    ensures q.Some? ==> multiset(q.value.options) == multiset(Pick(list, [q.value.correct], draws))
  {
    if list == [] {
      return None;
    }
    var correct := list[RandomIndex(first, |list|)];
    var options := PickLoop(list, correct, draws);
    if |options| < 4 {
      return None;
    }
    PickFits(list, [correct], draws);
    var shuffled := ShuffleArray(options, shuffle);
    ShuffledFits(list, options, shuffled);
    assert correct in multiset(shuffled) by {
      assert options[0] == correct;
    }
    q := Some(Question(correct, shuffled));
  }

  /** Rearranged options still fit. */
  lemma ShuffledFits(list: seq<Country>, options: seq<Country>, shuffled: seq<Country>)
    requires Fits(list, options) && multiset(shuffled) == multiset(options)
    ensures Fits(list, shuffled) && |shuffled| == |options|
  {
    assert |shuffled| == |multiset(options)|;
    forall o | o in shuffled
      ensures o in options && o in list
    {
      assert o in multiset(options);
    }
    assert Distinct(options) by {
      forall i, j | 0 <= i < j < |options|
        ensures options[i] != options[j]
      {
        assert Names(options)[i] != Names(options)[j];
      }
    }
    DistinctPermutation(shuffled, options);
    KeysDistinct(shuffled, options, (c: Country) => c.name);
  }

  // ---------------------------------------------------------------------------
  // Buttons
  // ---------------------------------------------------------------------------

  datatype Shade = Plain | Right | Wrong | Dimmed

  /** The class of an option's button: plain until a name is chosen, then green, red or dimmed. */
  function ShadeOf(q: Question, selected: Option<string>, option: Country): (s: Shade)
    ensures selected.None? <==> s == Plain
    ensures s == Right <==> selected.Some? && option.name == q.correct.name
    ensures s == Wrong ==> selected == Some(option.name) && option.name != q.correct.name
  {
    if selected.None? then Plain
    else if option.name == q.correct.name then Right
    else if option.name == selected.value then Wrong
    else Dimmed
  }

  /** After a choice exactly one button is green, and a wrong choice turns exactly its own button red. */
  lemma OneRight(q: Question, list: seq<Country>, chosen: string)
    requires Good(q, list)
    ensures exists i :: 0 <= i < 4 && ShadeOf(q, Some(chosen), q.options[i]) == Right
    ensures forall i, j ::
      (0 <= i < 4 && 0 <= j < 4 && ShadeOf(q, Some(chosen), q.options[i]) == Right && ShadeOf(q, Some(chosen), q.options[j]) == Right) ==> i == j
    ensures forall i, j ::
      (0 <= i < 4 && 0 <= j < 4 && ShadeOf(q, Some(chosen), q.options[i]) == Wrong && ShadeOf(q, Some(chosen), q.options[j]) == Wrong) ==> i == j
  {
    var k :| 0 <= k < 4 && q.options[k] == q.correct;
    assert ShadeOf(q, Some(chosen), q.options[k]) == Right;
    forall i, j | 0 <= i < 4 && 0 <= j < 4 && q.options[i].name == q.options[j].name
      ensures i == j
    {
      assert Names(q.options)[i] == Names(q.options)[j];
    }
  }

  // ---------------------------------------------------------------------------
  // The page
  // ---------------------------------------------------------------------------

  class Finder {
    var countries: seq<Country>
    /** `None` while the flags are loading. */
    var question: Option<Question>
    /** The name chosen for the current question. */
    var selected: Option<string>
    var score: nat
    var total: nat

    predicate Valid()
      reads this
    {
      && (question.Some? ==> Good(question.value, countries))
      && (selected.Some? ==> question.Some?)
      && score <= total
    }

    /** The page before the list arrives. */
    constructor()
      ensures Valid()
      ensures countries == [] && question.None? && selected.None? && score == 0 && total == 0
    {
      countries := [];
      question := None;
      selected := None;
      score := 0;
      total := 0;
    }

    /**
     * The fetch handler: the list is cleaned and a first question made. With no usable entry the
     * question cannot be made, and the page stays on its loading message.
     */
    method Load(data: seq<Entry>, first: Unit, draws: seq<Unit>, shuffle: nat -> Unit)
      requires Valid() && question.None? && selected.None?
      requires Format(data) != [] ==> Ends(Format(data), first, draws)
      modifies this
      ensures Valid()
      ensures countries == Format(data)
      ensures countries == [] ==> question.None?
      ensures countries != [] ==> question.Some? && question.value.correct == countries[RandomIndex(first, |countries|)]
      ensures selected == old(selected) && score == old(score) && total == old(total)
    {
      var list := Format(data);
      var q := GenerateQuestion(list, first, draws, shuffle);
      countries := list;
      if q.Some? {
        question := q;
      }
    }

    /**
     * `handleSelect`: a click after a choice is ignored; the first adds one to the total, and one
     * to the score exactly when it names the correct country.
     */
    method Select(option: string)
      requires Valid() && question.Some?
      modifies this
      ensures Valid()
      ensures old(selected).Some? ==> selected == old(selected) && score == old(score) && total == old(total)
      ensures old(selected).None? ==> selected == Some(option) && total == old(total) + 1
      ensures old(selected).None? ==> score == old(score) + (if option == question.value.correct.name then 1 else 0)
      ensures countries == old(countries) && question == old(question)
    {
      if selected.Some? {
        return;
      }
      selected := Some(option);
      total := total + 1;
      if option == question.value.correct.name {
        score := score + 1;
      }
    }

    /** The delayed step after a choice: a new question from the list, nothing chosen. */
    method Advance(first: Unit, draws: seq<Unit>, shuffle: nat -> Unit)
      requires Valid()
      requires selected.Some? ==> Ends(countries, first, draws)
      modifies this
      ensures Valid()
      ensures old(selected).Some? ==>
        selected.None? && |countries| > 0 && question.Some? && question.value.correct == countries[RandomIndex(first, |countries|)]
      ensures old(selected).None? ==> question == old(question) && selected.None?
      ensures countries == old(countries) && score == old(score) && total == old(total)
    {
      if selected.None? {
        return;
      }
      var q := GenerateQuestion(countries, first, draws, shuffle);
      question := q;
      selected := None;
    }
  }
}
