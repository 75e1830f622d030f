/**
 * The map quiz: the country list read from the GeoJSON features, the continent filter's choices,
 * the random choice of the next country to find, and the game state the click handler, the
 * delayed advance, reset, the filter change and the end-of-game check update.
 */
module MapGame {
  import opened Js
  import opened MapNames

  // ---------------------------------------------------------------------------
  // Countries and continents
  // ---------------------------------------------------------------------------

  /**
   * The properties of a feature the quiz reads: `ADMIN`, `NAME`, `name` and `CONTINENT`. A
   * property that is absent (or a feature without properties) is `None`.
   */
  datatype Feature = Feature(admin: Option<string>, nameUpper: Option<string>, nameLower: Option<string>, continent: Option<string>)

  datatype Country = Country(name: string, continent: string)

  /** A string property is truthy when it is present and not empty. */
  predicate Truthy(p: Option<string>) { p.Some? && p.value != [] }

  /** `ADMIN || NAME || name`: the first truthy property, or the last one when none is. */
  function RawName(f: Feature): (n: Option<string>)
    ensures Truthy(n) <==> Truthy(f.admin) || Truthy(f.nameUpper) || Truthy(f.nameLower)
    ensures Truthy(f.admin) ==> n == f.admin
  {
    if Truthy(f.admin) then f.admin else if Truthy(f.nameUpper) then f.nameUpper else f.nameLower
  }

  /** `(CONTINENT || 'Unknown').trim()`; `Unknown` has no white space to trim. */
  function ContinentOf(f: Feature): (c: string)
    ensures Truthy(f.continent) ==> c == Trim(f.continent.value)
    ensures !Truthy(f.continent) ==> c == "Unknown"
  {
    if Truthy(f.continent) then Trim(f.continent.value) else "Unknown"
  }

  predicate Named(f: Feature) { Truthy(RawName(f)) }

  function CountryOf(f: Feature): Country
    requires Named(f)
  {
    Country(RawName(f).value, ContinentOf(f))
  }

  /** The features with a name, as countries, in order. */
  function CountriesOf(fs: seq<Feature>): (cs: seq<Country>)
    ensures |cs| <= |fs|
    ensures forall i :: 0 <= i < |cs| ==> cs[i].name != []
    ensures forall i :: 0 <= i < |cs| ==> exists f :: f in fs && Named(f) && cs[i] == CountryOf(f)
    ensures forall f :: f in fs && Named(f) ==> CountryOf(f) in cs
  {
    if fs == [] then []
    else
      var rest := CountriesOf(fs[1..]);
      if Named(fs[0]) then [CountryOf(fs[0])] + rest else rest
  }

  /** `countries`: no feature list gives no countries. */
  function Countries(features: Option<seq<Feature>>): (cs: seq<Country>)
    ensures features.None? ==> cs == []
    ensures features.Some? ==> cs == CountriesOf(features.value)
  {
    match features
    case None => []
    case Some(fs) => CountriesOf(fs)
  }

  /** The names of the countries. */
  function Names(cs: seq<Country>): (ns: set<string>)
    ensures forall c :: c in cs ==> c.name in ns
  {
    if cs == [] then {} else {cs[0].name} + Names(cs[1..])
  }

  /** The order `sort()` puts strings in: code unit by code unit, a prefix first. */
  predicate Less(a: string, b: string)
  {
    if a == [] then b != []
    else if b == [] then false
    else a[0] < b[0] || (a[0] == b[0] && Less(a[1..], b[1..]))
  }

  lemma {:induction false} LessIrreflexive(a: string)
    ensures !Less(a, a)
  {
    if a != [] {
      LessIrreflexive(a[1..]);
    }
  }

  lemma {:induction false} LessTransitive(a: string, b: string, c: string)
    requires Less(a, b) && Less(b, c)
    ensures Less(a, c)
  {
    if a != [] && b != [] && c != [] && a[0] == b[0] && b[0] == c[0] {
      LessTransitive(a[1..], b[1..], c[1..]);
    }
  }

  lemma {:induction false} LessTotal(a: string, b: string)
    requires a != b
    ensures Less(a, b) || Less(b, a)
  {
    if a != [] && b != [] && a[0] == b[0] {
      assert a == [a[0]] + a[1..] && b == [b[0]] + b[1..];
      LessTotal(a[1..], b[1..]);
    }
  }

  predicate StrictlySorted(xs: seq<string>)
  {
    forall i, j :: 0 <= i < j < |xs| ==> Less(xs[i], xs[j])
  }

  /** `x` put in its place in a strictly sorted list that may already hold it. */
  function Insert(xs: seq<string>, x: string): (r: seq<string>)
    requires StrictlySorted(xs)
    ensures StrictlySorted(r)
    ensures forall y :: y in r <==> y in xs || y == x
  {
    if xs == [] then [x]
    else if x == xs[0] then xs
    else if Less(x, xs[0]) then
      InsertFront(xs, x);
      [x] + xs
    else
      LessTotal(x, xs[0]);
      var rest := Insert(xs[1..], x);
      InsertBehind(xs, x, rest);
      [xs[0]] + rest
  }

  lemma InsertFront(xs: seq<string>, x: string)
    requires StrictlySorted(xs) && xs != [] && Less(x, xs[0])
    ensures StrictlySorted([x] + xs)
  {
    forall j | 1 <= j < |xs| + 1
      ensures Less(x, ([x] + xs)[j])
    {
      if j > 1 {
        LessTransitive(x, xs[0], xs[j - 1]);
      }
    }
  }

  lemma InsertBehind(xs: seq<string>, x: string, rest: seq<string>)
    requires StrictlySorted(xs) && xs != [] && Less(xs[0], x)
    requires StrictlySorted(rest)
    requires forall y :: y in rest ==> y in xs[1..] || y == x
    ensures StrictlySorted([xs[0]] + rest)
  {
    forall j | 0 <= j < |rest|
      ensures Less(xs[0], rest[j])
    {
      if rest[j] != x {
        assert rest[j] in rest;
        var k :| 0 <= k < |xs| - 1 && xs[1..][k] == rest[j];
        assert xs[k + 1] == rest[j];
      }
    }
  }

  /** The distinct non-empty continents of the countries, sorted. */
  function SortedContinents(cs: seq<Country>): (r: seq<string>)
    ensures StrictlySorted(r)
    ensures forall y :: y in r <==> y != [] && exists c :: c in cs && c.continent == y
  {
    if cs == [] then []
    else
      var rest := SortedContinents(cs[1..]);
      assert forall c :: c in cs <==> c == cs[0] || c in cs[1..];
      if cs[0].continent != [] then Insert(rest, cs[0].continent) else rest
  }

  /** `continents`: "All" followed by the sorted distinct continents. */
  function Continents(cs: seq<Country>): (r: seq<string>)
    ensures |r| >= 1 && r[0] == "All"
    ensures StrictlySorted(r[1..])
    ensures forall y :: y in r[1..] <==> y != [] && exists c :: c in cs && c.continent == y
  {
    var s := SortedContinents(cs);
    assert (["All"] + s)[1..] == s;
    ["All"] + s
  }

  /** No continent is listed twice. */
  lemma ContinentsDistinct(cs: seq<Country>)
    ensures forall i, j :: 1 <= i < j < |Continents(cs)| ==> Continents(cs)[i] != Continents(cs)[j]
  {
    var r := Continents(cs);
    forall i, j | 1 <= i < j < |r|
      ensures r[i] != r[j]
    {
      assert r[i] == r[1..][i - 1] && r[j] == r[1..][j - 1];
      LessIrreflexive(r[i]);
    }
  }

  // ---------------------------------------------------------------------------
  // pickRandomTarget
  // ---------------------------------------------------------------------------

  /** A country the next round may ask for: not yet revealed, and on the chosen continent unless the filter is "All". */
  predicate Eligible(c: Country, filter: string, revealed: set<string>)
  {
    c.name !in revealed && (filter == "All" || ToLower(c.continent) == ToLower(filter))
  }

  /** `available`: the eligible countries, in list order. */
  function Available(cs: seq<Country>, filter: string, revealed: set<string>): (r: seq<Country>)
    ensures forall c :: c in r <==> c in cs && Eligible(c, filter, revealed)
  {
    if cs == [] then []
    else
      var rest := Available(cs[1..], filter, revealed);
      assert forall c :: c in cs <==> c == cs[0] || c in cs[1..];
      if Eligible(cs[0], filter, revealed) then [cs[0]] + rest else rest
  }

  /** `pickRandomTarget`: the name of a random eligible country, or nothing when none is left. */
  function PickTarget(cs: seq<Country>, filter: string, revealed: set<string>, r: Unit): (t: Option<string>)
    ensures t.None? <==> forall c :: c in cs ==> !Eligible(c, filter, revealed)
    ensures t.Some? ==> exists c :: c in cs && Eligible(c, filter, revealed) && c.name == t.value
    ensures t.Some? ==> t.value in Names(cs) && t.value !in revealed
  {
    var available := Available(cs, filter, revealed);
    if |available| == 0 then None
    else
      var c := available[RandomIndex(r, |available|)];
      assert c in available;
      Some(c.name)
  }

  /** Every eligible country is the one picked for some value of `Math.random()`. */
  lemma EveryEligibleCanBePicked(cs: seq<Country>, filter: string, revealed: set<string>, c: Country)
    requires c in cs && Eligible(c, filter, revealed)
    ensures exists r: Unit :: PickTarget(cs, filter, revealed, r) == Some(c.name)
  {
    var available := Available(cs, filter, revealed);
    var i :| 0 <= i < |available| && available[i] == c;
    var n := |available|;
    var r: Unit := (i as real) / (n as real);
    assert r * (n as real) == i as real;
    assert RandomIndex(r, n) == i;
    assert PickTarget(cs, filter, revealed, r) == Some(c.name);
  }

  // ---------------------------------------------------------------------------
  // The game
  // ---------------------------------------------------------------------------

  datatype Message = Prompt | Correct(name: string) | Wrong(clicked: Option<string>) | GameComplete(found: nat)

  /**
   * The delayed advance a click schedules, with what the handler saw when it ran: whether the
   * answer was right, the filter and the revealed set including the target.
   */
  datatype Pending = Pending(correct: bool, filter: string, revealed: set<string>)

  /** Whether the clicked feature's name matches the target: both keys are compared, and an absent name matches nothing. */
  predicate Matches(clicked: Option<string>, target: string)
  {
    NormalizeName(clicked) == Some(Normalize(target))
  }

  class MapQuiz {
    const countries: seq<Country>
    /** The names of the countries. */
    const names: set<string> := Names(countries)
    var target: Option<string>
    var score: int
    var round: int
    var message: Message
    var revealed: set<string>
    var isLocked: bool
    var lastWrong: Option<string>
    var filter: string
    var pending: Option<Pending>

    /**
     * The state every transition keeps: the score never passes the number of revealed countries,
     * revealed names and the target are country names, a scheduled advance keeps input locked,
     * and an open round asks for a country not yet revealed.
     */
    predicate Valid()
      reads this
    {
      && 0 <= score <= |revealed|
      && round >= 1
      && revealed <= names
      && (target.Some? ==> target.value in names)
      && (pending.Some? ==> isLocked && revealed <= pending.value.revealed <= names)
      && (!isLocked && target.Some? ==> target.value !in revealed)
    }

    /** The first render. */
    constructor(features: Option<seq<Feature>>)
      ensures countries == Countries(features)
      ensures target.None? && score == 0 && round == 1 && message == Prompt && revealed == {}
      ensures !isLocked && lastWrong.None? && filter == "All" && pending.None?
      ensures Valid()
    {
      countries := Countries(features);
      target := None;
      score := 0;
      round := 1;
      message := Prompt;
      revealed := {};
      isLocked := false;
      lastWrong := None;
      filter := "All";
      pending := None;
    }

    /** The first-target effect: with countries loaded and no target, pick one. */
    method InitTarget(r: Unit)
      requires Valid()
      modifies this
      ensures Valid()
      ensures |countries| > 0 && old(target).None? ==> target == PickTarget(countries, filter, revealed, r)
      ensures !(|countries| > 0 && old(target).None?) ==> target == old(target)
      ensures score == old(score) && round == old(round) && message == old(message) && revealed == old(revealed)
      ensures isLocked == old(isLocked) && lastWrong == old(lastWrong) && filter == old(filter) && pending == old(pending)
    {
      if |countries| > 0 && target.None? {
        target := PickTarget(countries, filter, revealed, r);
      }
    }

    /** Start the game again on the current filter: everything but the lock and a scheduled advance is reset. */
    method Reset(r: Unit)
      requires Valid()
      modifies this
      ensures Valid()
      ensures score == 0 && round == 1 && revealed == {} && lastWrong.None? && message == Prompt
      ensures target == PickTarget(countries, filter, {}, r)
      ensures isLocked == old(isLocked) && pending == old(pending) && filter == old(filter)
    {
      score := 0;
      round := 1;
      revealed := {};
      lastWrong := None;
      message := Prompt;
      target := PickTarget(countries, filter, {}, r);
    }

    /** A new continent is chosen: with countries loaded, the game starts again on it. */
    method ChangeFilter(f: string, r: Unit)
      requires Valid()
      modifies this
      ensures Valid()
      ensures filter == f
      ensures |countries| > 0 ==> score == 0 && round == 1 && revealed == {} && lastWrong.None? && message == Prompt
      ensures |countries| > 0 ==> target == PickTarget(countries, f, {}, r)
      ensures |countries| == 0 ==> target == old(target) && score == old(score) && round == old(round)
      ensures |countries| == 0 ==> revealed == old(revealed) && lastWrong == old(lastWrong) && message == old(message)
      ensures isLocked == old(isLocked) && pending == old(pending)
    {
      filter := f;
      if |countries| > 0 {
        Reset(r);
      }
    }

    /** The end-of-game effect: no target left after at least one country was revealed. */
    method CheckComplete()
      requires Valid()
      modifies this
      ensures Valid()
      ensures old(target).None? && |old(revealed)| > 0 ==> message == GameComplete(|revealed|) && isLocked
      ensures !(old(target).None? && |old(revealed)| > 0) ==> message == old(message) && isLocked == old(isLocked)
      ensures target == old(target) && score == old(score) && round == old(round) && revealed == old(revealed)
      ensures lastWrong == old(lastWrong) && filter == old(filter) && pending == old(pending)
    {
      if target.None? && |revealed| > 0 {
        message := GameComplete(|revealed|);
        isLocked := true;
      }
    }

    /**
     * A click on a feature. While input is locked or there is no target it does nothing;
     * otherwise it locks input, reveals the target, scores a matching name, remembers a wrong one,
     * and schedules the advance.
     */
    method Click(clicked: Option<string>)
      requires Valid()
      modifies this
      ensures Valid()
      ensures old(isLocked) || old(target).None? ==>
        target == old(target) && score == old(score) && revealed == old(revealed) && isLocked == old(isLocked)
        && lastWrong == old(lastWrong) && message == old(message) && pending == old(pending)
      ensures !old(isLocked) && old(target).Some? ==>
        Answered(old(target).value, Matches(clicked, old(target).value), clicked, old(score), old(revealed))
      ensures round == old(round) && filter == old(filter) && target == old(target)
    {
      if isLocked || target.None? {
        return;
      }
      Answer(Matches(clicked, target.value), clicked);
    }

    /** The state right after the target `t` was answered, rightly or not, by a click on `clicked`. */
    ghost predicate Answered(t: string, correct: bool, clicked: Option<string>, score0: int, revealed0: set<string>)
      reads this
    {
      && isLocked && revealed == revealed0 + {t}
      && pending == Some(Pending(correct, filter, revealed0 + {t}))
      && (correct ==> score == score0 + 1 && lastWrong.None? && message == Correct(t))
      && (!correct ==> score == score0 && lastWrong == clicked && message == Wrong(clicked))
    }

    /** The click handler's work once the name comparison is made. */
    method Answer(correct: bool, clicked: Option<string>)
      requires Valid() && !isLocked && target.Some?
      modifies this
      ensures Valid()
      ensures Answered(old(target).value, correct, clicked, old(score), old(revealed))
      ensures round == old(round) && filter == old(filter) && target == old(target)
    {
      var t := target.value;
      isLocked := true;
      revealed := revealed + {t};
      pending := Some(Pending(correct, filter, revealed));
      if correct {
        message := Correct(t);
        score := score + 1;
        lastWrong := None;
      } else {
        message := Wrong(clicked);
        lastWrong := clicked;
      }
    }

    /**
     * The scheduled advance: the next round asks for a country picked with the filter and
     * revealed set the click saw, and input is unlocked.
     */
    method Advance(r: Unit)
      requires Valid()
      modifies this
      ensures Valid()
      ensures old(pending).None? ==>
        target == old(target) && round == old(round) && isLocked == old(isLocked)
        && lastWrong == old(lastWrong) && message == old(message)
      ensures old(pending).Some? ==>
        var p := old(pending).value;
        && round == old(round) + 1 && !isLocked && message == Prompt
        && target == PickTarget(countries, p.filter, p.revealed, r)
        && (p.correct ==> lastWrong == old(lastWrong)) && (!p.correct ==> lastWrong.None?)
      ensures pending.None?
      ensures score == old(score) && revealed == old(revealed) && filter == old(filter)
    {
      if pending.None? {
        return;
      }
      var p := pending.value;
      if !p.correct {
        lastWrong := None;
      }
      round := round + 1;
      target := PickTarget(countries, p.filter, p.revealed, r);
      message := Prompt;
      isLocked := false;
      pending := None;
    }

    /** Locked input with nothing scheduled to unlock it: the state the end of the game leaves. */
    predicate Stuck()
      reads this
    {
      isLocked && pending.None?
    }
  }

  /**
   * Reset and the filter change never clear the lock, so once the game is complete no transition
   * unlocks it again and every click is ignored.
   */
  method StuckAfterComplete(q: MapQuiz, r: Unit, f: string, clicked: Option<string>)
    requires q.Valid() && q.Stuck()
    modifies q
    ensures q.Stuck() && q.score == 0 && q.revealed == {}
  {
    q.Reset(r);
    q.InitTarget(r);
    q.ChangeFilter(f, r);
    q.Click(clicked);
    q.Advance(r);
    q.CheckComplete();
  }
}
