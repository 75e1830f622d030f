/**
 * City spotlight: the city list is shuffled into a pool; a game takes cities from the front of
 * the pool one at a time, and the first name chosen for each city is scored.
 */
module CitySpotlight {
  import opened Js
  import opened Drill
  import opened Shuffle

  /** A city of the list: its name, a picture, a hint and its position on the map. */
  datatype City = City(name: string, image: string, hint: string, latitude: real, longitude: real)

  datatype Mode = Picture | Map

  /** The cities' names, in order. */
  function Names(cs: seq<City>): (r: seq<string>)
    ensures |r| == |cs| && forall i :: 0 <= i < |cs| ==> r[i] == cs[i].name
  {
    seq(|cs|, i requires 0 <= i < |cs| => cs[i].name)
  }

  /** `cities.filter(c => c.name !== name)`: the cities with another name, in order. */
  function Others(cs: seq<City>, name: string): (r: seq<City>)
    ensures forall c :: c in r <==> c in cs && c.name != name
    ensures Distinct(cs) ==> Distinct(r)
  {
    if cs == [] then []
    else
      var rest := Others(cs[1..], name);
      assert cs == [cs[0]] + cs[1..];
      assert Distinct(cs) ==> Distinct(cs[1..]) && cs[0] !in cs[1..];
      if cs[0].name != name then [cs[0]] + rest else rest
  }

  /**
   * The answer buttons: up to three names of other cities, drawn at random, and the city's own
   * name, in random order. The own name is there exactly once; with different city names, all
   * options differ.
   */
  method Options(cities: seq<City>, current: City, otherShuffle: nat -> Unit, optionShuffle: nat -> Unit)
    returns (options: seq<string>)
    ensures |options| == 1 + Min(3, |Others(cities, current.name)|)
    ensures multiset(options)[current.name] == 1
    ensures forall o :: o in options && o != current.name ==> o in Names(cities)
    ensures Distinct(Names(cities)) ==> Distinct(options)
  {
    var others := Others(cities, current.name);
    var keysDistinct := Distinct(Names(cities));
    if keysDistinct {
      NamesDistinct(cities);
    }
    var taken := Take(others, 3, otherShuffle);
    var all := Names(taken) + [current.name];
    OtherNames(cities, current.name, taken);
    assert multiset(all)[current.name] == 1 by {
      assert current.name !in Names(taken);
      assert multiset(all) == multiset(Names(taken)) + multiset{current.name};
    }
    if keysDistinct {
      KeysDistinct(taken, cities, (c: City) => c.name);
      assert Distinct(all) by {
        forall i, j | 0 <= i < j < |all|
          ensures all[i] != all[j]
        {
          if j < |taken| {
            assert all[i] == taken[i].name && all[j] == taken[j].name;
          }
        }
      }
    }
    options := ShuffleArray(all, optionShuffle);
    forall o | o in options && o != current.name
      ensures o in Names(cities)
    {
      assert o in multiset(all);
    }
    if keysDistinct {
      DistinctPermutation(options, all);
    }
  }

  /** Different names make different cities. */
  lemma NamesDistinct(cs: seq<City>)
    requires Distinct(Names(cs))
    ensures Distinct(cs)
  {
    forall i, j | 0 <= i < j < |cs|
      ensures cs[i] != cs[j]
    {
      assert Names(cs)[i] != Names(cs)[j];
    }
  }

  /** Names of cities drawn from the others are names of the list, none of them `name`. */
  lemma OtherNames(cities: seq<City>, name: string, taken: seq<City>)
    requires forall c :: c in taken ==> c in Others(cities, name)
    ensures forall n :: n in Names(taken) ==> n != name && n in Names(cities)
  {
    forall n | n in Names(taken)
      ensures n != name && n in Names(cities)
    {
      var i :| 0 <= i < |taken| && Names(taken)[i] == n;
      assert taken[i] in taken;
      assert taken[i] in Others(cities, name);
      var k :| 0 <= k < |cities| && cities[k] == taken[i];
      assert Names(cities)[k] == n;
    }
  }

  /** Part of a list without repeats has no repeats. */
  lemma SubDistinct<T>(part: seq<T>, whole: seq<T>)
    requires multiset(part) <= multiset(whole) && Distinct(whole)
    ensures Distinct(part)
  {
    forall i, j | 0 <= i < j < |part|
      ensures part[i] != part[j]
    {
      if part[i] == part[j] {
        var x := part[i];
        assert part == part[..i] + [x] + part[i + 1..j] + [x] + part[j + 1..];
        assert multiset(part)[x] >= 2;
        DistinctCount(whole, x);
      }
    }
  }

  /** Taking the front of the pool into the shown cities keeps the two together the same. */
  lemma MoveFront(shown: seq<City>, pool: seq<City>)
    requires pool != []
    ensures multiset(shown + [pool[0]]) + multiset(pool[1..]) == multiset(shown) + multiset(pool)
  {
    assert pool == [pool[0]] + pool[1..];
  }

  class Spotlight {
    const cities: seq<City>
    var mode: Mode
    var started: bool
    /** The cities still to come, front first. */
    var pool: seq<City>
    /** `None` before a game and once the pool is used up. */
    var current: Option<City>
    var selected: Option<string>
    var score: nat
    var total: nat
    /** The cities this game has shown so far, the current one last. */
    ghost var shown: seq<City>

    /**
     * Before a game the pool holds every city; during one, the cities shown and the pool
     * together are the list, the total counts the cities shown, and the current city is the
     * last one shown. A point needs a shown city, and the current one gives at most one.
     */
    ghost predicate Valid()
      reads this
    {
      && (!started ==> multiset(pool) == multiset(cities) && current.None?)
      && (started ==> multiset(shown) + multiset(pool) == multiset(cities) && total == |shown|)
      && (started && current.Some? ==> shown != [] && current.value == shown[|shown| - 1])
      && score + (if current.Some? && selected.None? then 1 else 0) <= total
    }

    /** The page as first shown: the settings, and a pool that is the list in random order. */
    constructor(cities: seq<City>, shuffle: nat -> Unit)
      ensures Valid()
      ensures this.cities == cities && mode == Picture && !started && current.None? && selected.None?
      ensures multiset(pool) == multiset(cities) && score == 0 && total == 0
    {
      var shuffled := ShuffleArray(cities, shuffle);
      this.cities := cities;
      mode := Picture;
      started := false;
      pool := shuffled;
      current := None;
      selected := None;
      score := 0;
      total := 0;
      shown := [];
    }

    /** The mode menu on the settings screen. */
    method SetMode(m: Mode)
      requires Valid() && !started
      modifies this
      ensures Valid()
      ensures mode == m && !started && pool == old(pool) && current == old(current) && selected == old(selected)
      ensures score == old(score) && total == old(total)
    {
      mode := m;
    }

    /**
     * `loadNext`: with the pool used up there is no current city; otherwise the front of the
     * pool becomes current, leaves the pool, the choice is cleared and the total counts it.
     */
    method LoadNext()
      requires Valid() && started
      modifies this
      ensures Valid()
      ensures old(pool) == [] ==> current.None? && pool == [] && selected == old(selected) && total == old(total)
      ensures old(pool) != [] ==>
        current == Some(old(pool)[0]) && pool == old(pool)[1..] && selected.None? && total == old(total) + 1
      ensures started && mode == old(mode) && score == old(score)
    {
      if pool == [] {
        current := None;
        return;
      }
      var next, rest := pool[0], pool[1..];
      MoveFront(shown, pool);
      shown := shown + [next];
      current, pool, selected, total := Some(next), rest, None, total + 1;
    }

    /** `startGame`: the score and total start from zero and the first city is taken. */
    method StartGame()
      requires Valid() && !started
      modifies this
      ensures Valid()
      ensures started && score == 0 && shown == (if old(pool) == [] then [] else [old(pool)[0]])
      ensures old(pool) == [] ==> current.None? && total == 0
      ensures old(pool) != [] ==> current == Some(old(pool)[0]) && pool == old(pool)[1..] && selected.None? && total == 1
    {
      started := true;
      score := 0;
      total := 0;
      selected := None;
      shown := [];
      LoadNext();
    }

    /**
     * `handleSelect`: a choice after the first is ignored; the first adds one to the score
     * exactly when it is the current city's name. The total is not touched: it counts cities.
     * Only the answer buttons of picture mode call it.
     */
    method Select(answer: string)
      requires Valid() && current.Some? && mode == Picture
      modifies this
      ensures Valid()
      ensures old(selected).Some? ==> selected == old(selected) && score == old(score)
      ensures old(selected).None? ==> selected == Some(answer) && score == old(score) + (if answer == old(current).value.name then 1 else 0)
      ensures total == old(total) && started == old(started) && pool == old(pool) && current == old(current)
    {
      if selected.Some? {
        return;
      }
      selected := Some(answer);
      if answer == current.value.name {
        score := score + 1;
      }
    }

    /** The delayed step after a choice during a game: the next city. */
    method NextRound()
      requires Valid()
      modifies this
      ensures Valid()
      ensures !(old(started) && old(current).Some? && old(selected).Some?) ==>
        pool == old(pool) && current == old(current) && selected == old(selected) && total == old(total)
      ensures old(started) && old(current).Some? && old(selected).Some? && old(pool) != [] ==>
        current == Some(old(pool)[0]) && pool == old(pool)[1..] && selected.None? && total == old(total) + 1
      ensures old(started) && old(current).Some? && old(selected).Some? && old(pool) == [] ==>
        current.None? && total == old(total)
      ensures score == old(score) && started == old(started)
    {
      if started && current.Some? && selected.Some? {
        LoadNext();
      }
    }

    /** "Play Again" on the closing screen: back to the settings with a freshly shuffled pool. */
    method PlayAgain(shuffle: nat -> Unit)
      requires Valid() && started && current.None?
      modifies this
      ensures Valid()
      ensures !started && multiset(pool) == multiset(cities) && current.None?
      ensures score == old(score) && total == old(total) && selected == old(selected)
    {
      started := false;
      pool := ShuffleArray(cities, shuffle);
    }
  }

  /** With different cities in the list, no city is shown twice in a game. */
  lemma NoCityTwice(s: Spotlight)
    requires s.Valid() && s.started && Distinct(s.cities)
    ensures Distinct(s.shown)
  {
    assert multiset(s.shown) <= multiset(s.cities);
    SubDistinct(s.shown, s.cities);
  }

  /** A game shows each city of the list at most once, so its total never passes the list's length. */
  lemma TotalBounded(s: Spotlight)
    requires s.Valid() && s.started
    ensures s.total <= |s.cities| && s.score <= s.total
  {
    assert |multiset(s.shown)| <= |multiset(s.cities)|;
  }

  /** A game has shown every city exactly when the pool is empty. */
  lemma AllShownIffPoolEmpty(s: Spotlight)
    requires s.Valid() && s.started
    ensures multiset(s.shown) == multiset(s.cities) <==> s.pool == []
  {
    if multiset(s.shown) == multiset(s.cities) {
      assert |multiset(s.pool)| == 0;
    }
  }
}
