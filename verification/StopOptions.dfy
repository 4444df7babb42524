/** The stop pickers of a trip (frontend/src/client/modules/transport/utils.ts). */
module StopOptions {
  import opened Options

  datatype Stop = Stop(id: string, name: string, sequence: int)

  datatype Choice = Choice(value: string, text: string)

  // ----- a stable sort by sequence

  /** Before the first stop of a later sequence, so that equals keep their order. */
  function Place(s: Stop, sorted: seq<Stop>): seq<Stop> {
    if sorted == [] || s.sequence <= sorted[0].sequence then [s] + sorted
    else [sorted[0]] + Place(s, sorted[1..])
  }

  function SortBySequence(stops: seq<Stop>): seq<Stop> {
    if stops == [] then [] else Place(stops[0], SortBySequence(stops[1..]))
  }

  function Filter<T>(p: T -> bool, xs: seq<T>): seq<T> {
    if xs == [] then []
    else if p(xs[0]) then [xs[0]] + Filter(p, xs[1..])
    else Filter(p, xs[1..])
  }

  function Map<T, U>(f: T -> U, xs: seq<T>): (ys: seq<U>)
    ensures |ys| == |xs| && forall i :: 0 <= i < |xs| ==> ys[i] == f(xs[i])
  {
    seq(|xs|, i requires 0 <= i < |xs| => f(xs[i]))
  }

  function AsChoice(s: Stop): Choice {
    Choice(s.id, s.name)
  }

  // ----- the pickers

  function Find(stops: seq<Stop>, id: string): Option<Stop> {
    if stops == [] then None
    else if stops[0].id == id then Some(stops[0])
    else Find(stops[1..], id)
  }

  function BuildStopOptions(stops: seq<Stop>): seq<Choice> {
    Map(AsChoice, SortBySequence(stops))
  }

  function Later(than: Stop): Stop -> bool {
    (s: Stop) => s.sequence > than.sequence
  }

  function Earlier(than: Stop): Stop -> bool {
    (s: Stop) => s.sequence < than.sequence
  }

  /** The stop the picker was given, if it names one of the stops; the empty text does not. */
  function Chosen(stops: seq<Stop>, id: Option<string>): Option<Stop> {
    if id.None? || id.value == "" then None else Find(stops, id.value)
  }

  function FilterDropoffOptions(stops: seq<Stop>, pickup: Option<string>): seq<Choice> {
    match Chosen(stops, pickup)
    case None => BuildStopOptions(stops)
    case Some(p) => Map(AsChoice, SortBySequence(Filter(Later(p), stops)))
  }

  function FilterPickupOptions(stops: seq<Stop>, dropoff: Option<string>): seq<Choice> {
    match Chosen(stops, dropoff)
    case None => BuildStopOptions(stops)
    case Some(d) => Map(AsChoice, SortBySequence(Filter(Earlier(d), stops)))
  }

  // ----- the sort is the stable sort

  ghost predicate NonDecreasing(stops: seq<Stop>) {
    forall i, j :: 0 <= i < j < |stops| ==> stops[i].sequence <= stops[j].sequence
  }

  function AtSequence(k: int): Stop -> bool {
    (s: Stop) => s.sequence == k
  }

  lemma FilterCons<T>(p: T -> bool, x: T, xs: seq<T>)
    ensures Filter(p, [x] + xs) == if p(x) then [x] + Filter(p, xs) else Filter(p, xs)
  {
    assert ([x] + xs)[1..] == xs;
  }

  lemma {:induction false} PlaceContents(s: Stop, sorted: seq<Stop>)
    ensures multiset(Place(s, sorted)) == multiset{s} + multiset(sorted)
  {
    if sorted == [] || s.sequence <= sorted[0].sequence {
      assert multiset([s] + sorted) == multiset{s} + multiset(sorted);
    } else {
      PlaceContents(s, sorted[1..]);
      assert sorted == [sorted[0]] + sorted[1..];
      assert multiset(sorted) == multiset{sorted[0]} + multiset(sorted[1..]);
    }
  }

  lemma NonDecreasingCons(h: Stop, rest: seq<Stop>)
    requires NonDecreasing(rest) && (rest == [] || h.sequence <= rest[0].sequence)
    ensures NonDecreasing([h] + rest)
  {
  }

  lemma {:induction false} PlaceOrdered(s: Stop, sorted: seq<Stop>)
    requires NonDecreasing(sorted)
    ensures NonDecreasing(Place(s, sorted))
  {
    if sorted == [] || s.sequence <= sorted[0].sequence {
      NonDecreasingCons(s, sorted);
    } else {
      PlaceOrdered(s, sorted[1..]);
      NonDecreasingCons(sorted[0], Place(s, sorted[1..]));
    }
  }

  lemma {:induction false} PlaceStable(s: Stop, sorted: seq<Stop>, k: int)
    ensures Filter(AtSequence(k), Place(s, sorted)) == Filter(AtSequence(k), [s] + sorted)
  {
    if sorted != [] && s.sequence > sorted[0].sequence {
      PlaceStable(s, sorted[1..], k);
      assert sorted == [sorted[0]] + sorted[1..];
      FilterCons(AtSequence(k), s, sorted[1..]);
      FilterCons(AtSequence(k), s, sorted);
      FilterCons(AtSequence(k), sorted[0], sorted[1..]);
      FilterCons(AtSequence(k), sorted[0], Place(s, sorted[1..]));
    }
  }

  /** The result is ordered, has the same stops, and keeps the given order among stops
      of equal sequence. */
  lemma {:induction false} SortIsStable(stops: seq<Stop>, k: int)
    ensures NonDecreasing(SortBySequence(stops))
    ensures multiset(SortBySequence(stops)) == multiset(stops)
    ensures Filter(AtSequence(k), SortBySequence(stops)) == Filter(AtSequence(k), stops)
  {
    if stops != [] {
      var rest := SortBySequence(stops[1..]);
      SortIsStable(stops[1..], k);
      PlaceOrdered(stops[0], rest);
      PlaceContents(stops[0], rest);
      PlaceStable(stops[0], rest, k);
      assert stops == [stops[0]] + stops[1..];
      FilterCons(AtSequence(k), stops[0], rest);
    }
  }

  lemma {:induction false} FilterIn<T>(p: T -> bool, xs: seq<T>)
    ensures forall x :: x in Filter(p, xs) <==> x in xs && p(x)
  {
    if xs != [] {
      FilterIn(p, xs[1..]);
      assert xs == [xs[0]] + xs[1..];
    }
  }

  /** Being ordered and stable leaves one result, so any sort that has these two
      properties is this one. */
  lemma {:induction false} StableSortUnique(a: seq<Stop>, b: seq<Stop>)
    requires NonDecreasing(a) && NonDecreasing(b)
    requires forall k :: Filter(AtSequence(k), a) == Filter(AtSequence(k), b)
    ensures a == b
  {
    if a != [] {
      HeadKept(a);
    }
    if b != [] {
      HeadKept(b);
    }
    if a != [] && b != [] {
      HeadSequence(a, b);
      HeadSequence(b, a);
      var k0 := a[0].sequence;
      assert a[0] == Filter(AtSequence(k0), a)[0] == Filter(AtSequence(k0), b)[0] == b[0];
      forall k
        ensures Filter(AtSequence(k), a[1..]) == Filter(AtSequence(k), b[1..])
      {
        var fa, fb := Filter(AtSequence(k), a), Filter(AtSequence(k), b);
        assert fa == fb;
        if k == k0 {
          assert fa[1..] == Filter(AtSequence(k), a[1..]) && fb[1..] == Filter(AtSequence(k), b[1..]);
        }
      }
      StableSortUnique(a[1..], b[1..]);
      assert a == [a[0]] + a[1..] && b == [b[0]] + b[1..];
    }
  }

  lemma HeadKept(a: seq<Stop>)
    requires a != []
    ensures var kept := Filter(AtSequence(a[0].sequence), a); kept != [] && kept[0] == a[0]
  {
  }

  lemma HeadSequence(a: seq<Stop>, b: seq<Stop>)
    requires a != [] && b != [] && NonDecreasing(a)
    requires forall k :: Filter(AtSequence(k), a) == Filter(AtSequence(k), b)
    ensures a[0].sequence <= b[0].sequence
  {
    var k := b[0].sequence;
    FilterIn(AtSequence(k), a);
    FilterIn(AtSequence(k), b);
    assert b[0] in Filter(AtSequence(k), b);
    assert b[0] in a;
  }

  // ----- what the pickers show

  lemma {:induction false} FilterPlace(p: Stop -> bool, s: Stop, sorted: seq<Stop>)
    requires NonDecreasing(sorted)
    ensures Filter(p, Place(s, sorted)) == if p(s) then Place(s, Filter(p, sorted)) else Filter(p, sorted)
  {
    if sorted == [] || s.sequence <= sorted[0].sequence {
      FilterCons(p, s, sorted);
      FilterIn(p, sorted);
      assert forall x :: x in sorted ==> s.sequence <= x.sequence by {
        assert forall i :: 0 <= i < |sorted| ==> sorted[0].sequence <= sorted[i].sequence;
      }
      assert Filter(p, sorted) != [] ==> Filter(p, sorted)[0] in Filter(p, sorted);
    } else {
      FilterPlace(p, s, sorted[1..]);
      FilterCons(p, sorted[0], Place(s, sorted[1..]));
    }
  }

  /** Filtering and then sorting is sorting and then filtering. */
  lemma {:induction false} FilterCommutesWithSort(p: Stop -> bool, stops: seq<Stop>)
    ensures SortBySequence(Filter(p, stops)) == Filter(p, SortBySequence(stops))
  {
    if stops != [] {
      var rest := SortBySequence(stops[1..]);
      FilterCommutesWithSort(p, stops[1..]);
      SortIsStable(stops[1..], 0);
      FilterPlace(p, stops[0], rest);
      FilterCons(p, stops[0], Filter(p, stops[1..]));
    }
  }

  ghost predicate UniqueIds(stops: seq<Stop>) {
    forall i, j :: 0 <= i < j < |stops| ==> stops[i].id != stops[j].id
  }

  lemma {:induction false} FindIs(stops: seq<Stop>, s: Stop)
    requires UniqueIds(stops) && s in stops
    ensures Find(stops, s.id) == Some(s)
  {
    if stops[0] != s {
      assert stops == [stops[0]] + stops[1..];
      FindIs(stops[1..], s);
    }
  }

  lemma {:induction false} FindNothing(stops: seq<Stop>, id: string)
    ensures Find(stops, id).None? <==> forall s :: s in stops ==> s.id != id
    ensures Find(stops, id).Some? ==> Find(stops, id).value in stops && Find(stops, id).value.id == id
  {
    if stops != [] {
      assert stops == [stops[0]] + stops[1..];
      FindNothing(stops[1..], id);
    }
  }

  /** Some stop of this identifier satisfies `p`. */
  ghost function ValueOf(stops: seq<Stop>, p: Stop -> bool): Choice -> bool {
    (c: Choice) => exists s :: s in stops && s.id == c.value && p(s)
  }

  lemma {:induction false} FilterChoices(p: Stop -> bool, stops: seq<Stop>, sorted: seq<Stop>)
    requires UniqueIds(stops) && forall s :: s in sorted ==> s in stops
    ensures Map(AsChoice, Filter(p, sorted)) == Filter(ValueOf(stops, p), Map(AsChoice, sorted))
  {
    if sorted != [] {
      var s := sorted[0];
      FilterChoices(p, stops, sorted[1..]);
      assert Map(AsChoice, sorted) == [AsChoice(s)] + Map(AsChoice, sorted[1..]);
      FilterCons(ValueOf(stops, p), AsChoice(s), Map(AsChoice, sorted[1..]));
      FilterIn(p, sorted);
      assert s in stops;
      assert ValueOf(stops, p)(AsChoice(s)) <==> p(s);
      assert Map(AsChoice, [s] + Filter(p, sorted[1..])) == [AsChoice(s)] + Map(AsChoice, Filter(p, sorted[1..]));
    }
  }

  /** A narrowed picker shows what the full one shows, in its order, without the stops
      on the wrong side; with no known stop chosen it is the full one. */
  lemma PickersNarrow(stops: seq<Stop>, id: Option<string>)
    requires UniqueIds(stops)
    ensures Chosen(stops, id).None? ==>
              FilterDropoffOptions(stops, id) == FilterPickupOptions(stops, id) == BuildStopOptions(stops)
    ensures Chosen(stops, id).Some? ==>
              var c := Chosen(stops, id).value;
              && FilterDropoffOptions(stops, id) == Filter(ValueOf(stops, Later(c)), BuildStopOptions(stops))
              && FilterPickupOptions(stops, id) == Filter(ValueOf(stops, Earlier(c)), BuildStopOptions(stops))
  {
    if Chosen(stops, id).Some? {
      var c := Chosen(stops, id).value;
      var sorted := SortBySequence(stops);
      SortHasSameStops(stops);
      FilterCommutesWithSort(Later(c), stops);
      FilterCommutesWithSort(Earlier(c), stops);
      FilterChoices(Later(c), stops, sorted);
      FilterChoices(Earlier(c), stops, sorted);
    }
  }

  ghost predicate Offers(choices: seq<Choice>, id: string) {
    exists c :: c in choices && c.value == id
  }

  lemma SortHasSameStops(stops: seq<Stop>)
    ensures forall x :: x in SortBySequence(stops) <==> x in stops
  {
    SortIsStable(stops, 0);
    assert forall x :: x in SortBySequence(stops) <==> x in multiset(SortBySequence(stops));
  }

  lemma ChoicesOffer(stops: seq<Stop>, id: string)
    ensures Offers(Map(AsChoice, stops), id) <==> exists s :: s in stops && s.id == id
  {
    forall i | 0 <= i < |stops|
      ensures AsChoice(stops[i]) in Map(AsChoice, stops)
    {
      assert Map(AsChoice, stops)[i] == AsChoice(stops[i]);
    }
  }

  lemma OffersIff(p: Stop -> bool, stops: seq<Stop>, s: Stop)
    requires UniqueIds(stops) && s in stops
    ensures Offers(Map(AsChoice, SortBySequence(Filter(p, stops))), s.id) <==> p(s)
  {
    var kept := Filter(p, stops);
    SortHasSameStops(kept);
    FilterIn(p, stops);
    ChoicesOffer(SortBySequence(kept), s.id);
    assert forall x :: x in stops && x.id == s.id ==> x == s;
  }

  /** A stop can be the end of a journey from another exactly when that other can be
      the start of a journey to it: when it comes later. */
  lemma PickersAreDual(stops: seq<Stop>, p: Stop, d: Stop)
    requires UniqueIds(stops) && p in stops && d in stops && p.id != "" && d.id != ""
    ensures Offers(FilterDropoffOptions(stops, Some(p.id)), d.id) <==> p.sequence < d.sequence
    ensures Offers(FilterPickupOptions(stops, Some(d.id)), p.id) <==> p.sequence < d.sequence
  {
    FindIs(stops, p);
    FindIs(stops, d);
    OffersIff(Later(p), stops, d);
    OffersIff(Earlier(d), stops, p);
  }

  /** The full list shows each stop once, by its name, and picks it by its identifier. */
  lemma OptionsShowStops(stops: seq<Stop>)
    ensures var sorted, choices := SortBySequence(stops), BuildStopOptions(stops);
            && |choices| == |sorted| && multiset(sorted) == multiset(stops)
            && forall i :: 0 <= i < |sorted| ==>
                 choices[i].value == sorted[i].id && choices[i].text == sorted[i].name
  {
    SortIsStable(stops, 0);
  }
}
