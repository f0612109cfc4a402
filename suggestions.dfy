/** `getCitySuggestions` and `getCitySuggestionsFallback`: turning the geocoders'
    raw records into at most five ranked place suggestions. The two provider calls
    are inputs; what is modelled is the record shaping and the fallback decision. */
module Suggestions {
  import opened Text
  import opened WeatherModel

  const MinQueryLength: nat := 2
  const MaxSuggestions: nat := 5
  const AcceptableTypes: seq<string> :=
    ["city", "town", "village", "municipality", "administrative", "suburb", "district", "county"]

  /** `item.address`; an absent field is the empty string, as every use defaults it to ''. */
  datatype Address = Address(city: string, town: string, village: string, municipality: string,
                             county: string, country: string, countryCode: string,
                             state: string, region: string, province: string)

  /** One primary-geocoder result. An absent importance is 0. */
  datatype RawPlace = RawPlace(name: string, address: Address, displayName: string,
                               placeType: string, placeClass: string, importance: real)

  /** The intermediate record of the first `.map`. */
  datatype Candidate = Candidate(name: string, country: string, countryCode: string, state: string,
                                 placeType: string, placeClass: string, importance: real,
                                 fullName: string, displayName: string, searchQuery: string)

  /** What the caller receives. */
  datatype Suggestion = Suggestion(name: string, country: string, countryCode: string, state: string,
                                   fullName: string, displayName: string, searchQuery: string)

  /** `a || b || ... || ''` over strings. */
  function FirstNonEmpty(xs: seq<string>): (r: string)
    ensures r == "" <==> forall k :: 0 <= k < |xs| ==> xs[k] == ""
    ensures r != "" ==> r in xs
    ensures r != "" ==> exists i :: 0 <= i < |xs| && xs[i] == r && forall j :: 0 <= j < i ==> xs[j] == ""
  {
    if xs == [] then "" else if xs[0] != "" then xs[0] else FirstNonEmpty(xs[1..])
  }

  /** The place name: `item.name`, then the address' city, town, village, municipality
      or county, then the trimmed first comma-separated part of `display_name`. */
  /** `a || b || c || d || e || f` unfolded. */
  lemma FirstNonEmptyOfSix(x0: string, x1: string, x2: string, x3: string, x4: string, x5: string)
    ensures FirstNonEmpty([x0, x1, x2, x3, x4, x5]) ==
            if x0 != "" then x0 else if x1 != "" then x1 else if x2 != "" then x2
            else if x3 != "" then x3 else if x4 != "" then x4 else x5
  {
    assert [x0, x1, x2, x3, x4, x5][1..] == [x1, x2, x3, x4, x5];
    assert [x1, x2, x3, x4, x5][1..] == [x2, x3, x4, x5];
    assert [x2, x3, x4, x5][1..] == [x3, x4, x5];
    assert [x3, x4, x5][1..] == [x4, x5];
    assert [x4, x5][1..] == [x5];
    assert FirstNonEmpty([x4, x5]) == if x4 != "" then x4 else x5;
    assert FirstNonEmpty([x3, x4, x5]) == if x3 != "" then x3 else FirstNonEmpty([x4, x5]);
    assert FirstNonEmpty([x2, x3, x4, x5]) == if x2 != "" then x2 else FirstNonEmpty([x3, x4, x5]);
    assert FirstNonEmpty([x1, x2, x3, x4, x5]) == if x1 != "" then x1 else FirstNonEmpty([x2, x3, x4, x5]);
  }

  function PlaceName(item: RawPlace): (name: string)
    ensures item.name != "" ==> name == item.name
    ensures var a := item.address;
            item.name == "" ==>
              (a.city != "" ==> name == a.city) &&
              (a.city == "" && a.town != "" ==> name == a.town) &&
              (a.city == a.town == "" && a.village != "" ==> name == a.village) &&
              (a.city == a.town == a.village == "" && a.municipality != "" ==> name == a.municipality) &&
              (a.city == a.town == a.village == a.municipality == "" && a.county != "" ==> name == a.county) &&
              (a.city == a.town == a.village == a.municipality == a.county == "" ==>
                 name == Trim(FirstSegment(item.displayName, ',')))
  {
    var a := item.address;
    var n := FirstNonEmpty([item.name, a.city, a.town, a.village, a.municipality, a.county]);
    FirstNonEmptyOfSix(item.name, a.city, a.town, a.village, a.municipality, a.county);
    if n != "" then n else Trim(FirstSegment(item.displayName, ','))
  }

  /** A name taken from `display_name` has no comma and no surrounding white space, and
      is empty only when that first part is blank. */
  lemma NameFromDisplayName(item: RawPlace)
    requires item.name == "" && item.address.city == "" && item.address.town == "" &&
             item.address.village == "" && item.address.municipality == "" &&
             item.address.county == ""
    ensures ',' !in PlaceName(item)
    ensures PlaceName(item) != "" ==>
            !IsJsSpace(PlaceName(item)[0]) && !IsJsSpace(PlaceName(item)[|PlaceName(item)| - 1])
    ensures PlaceName(item) == "" <==> AllSpace(FirstSegment(item.displayName, ','))
  {
    var seg := FirstSegment(item.displayName, ',');
    var t := Trim(seg);
    assert PlaceName(item) == t;
    forall k | 0 <= k < |t| ensures t[k] != ',' {
      assert t[k] == seg[LeadingSpaces(seg) + k];
    }
  }

  /** `searchQuery`: `"name, CC"` when the upper-cased country code is non-empty. */
  function SearchQuery(name: string, countryCode: string): (q: string)
    ensures countryCode == "" ==> q == name
    ensures countryCode != "" ==>
            |q| == |name| + 2 + |countryCode| && q[..|name|] == name && q[|name|..] == ", " + countryCode
  {
    if countryCode != "" then name + ", " + countryCode else name
  }

  /** `${name}, ${state}, ${country}` or `${name}, ${country}`: the display name
      followed by the country. */
  function FullName(name: string, state: string, country: string): (r: string)
    ensures r == DisplayName(name, state) + ", " + country
  {
    if state != "" then name + ", " + state + ", " + country else name + ", " + country
  }

  /** `${name}, ${state}` or `name`: the name, then the state when there is one. */
  function DisplayName(name: string, state: string): (r: string)
    ensures |r| >= |name| && r[..|name|] == name
    ensures state == "" <==> r == name
    ensures state != "" ==> r[|name|..] == ", " + state
  {
    if state != "" then name + ", " + state else name
  }

  /** The first `.map` of the pipeline. */
  function Shape(item: RawPlace): (c: Candidate)
    ensures c.name == PlaceName(item) && c.country == item.address.country
    ensures c.countryCode == ToUpper(item.address.countryCode)
    ensures c.searchQuery == SearchQuery(c.name, c.countryCode)
    ensures c.importance == item.importance
    ensures c.placeType == item.placeType && c.placeClass == item.placeClass
    ensures c.state == FirstNonEmpty([item.address.state, item.address.region,
                                      item.address.province, item.address.county])
    ensures c.fullName == FullName(c.name, c.state, c.country)
    ensures c.displayName == DisplayName(c.name, c.state)
  {
    var a := item.address;
    var name := PlaceName(item);
    var code := ToUpper(a.countryCode);
    var state := FirstNonEmpty([a.state, a.region, a.province, a.county]);
    Candidate(name, a.country, code, state, item.placeType, item.placeClass, item.importance,
              FullName(name, state, a.country), DisplayName(name, state), SearchQuery(name, code))
  }

  /** The `.filter` predicate: a name, a country, and a settlement-like type or class. */
  predicate Accepted(c: Candidate): (b: bool)
    ensures b ==> c.name != "" && c.country != ""
    ensures c.name != "" && c.country != "" ==>
              (b <==> c.placeType in AcceptableTypes || c.placeClass in {"place", "boundary"})
  {
    c.name != "" && c.country != "" &&
    (c.placeType in AcceptableTypes || c.placeClass == "place" || c.placeClass == "boundary")
  }

  /** `.filter(Accepted)`, keeping order. */
  function Filter(cs: seq<Candidate>): (r: seq<Candidate>)
    ensures forall k :: 0 <= k < |r| ==> Accepted(r[k])
    ensures forall c :: c in r <==> c in cs && Accepted(c)
    ensures |r| <= |cs|
    ensures |cs| == 1 ==> r == if Accepted(cs[0]) then cs else []
  {
    if cs == [] then []
    else
      var rest := Filter(cs[..|cs| - 1]);
      var last := cs[|cs| - 1];
      assert cs == cs[..|cs| - 1] + [last];
      if Accepted(last) then rest + [last] else rest
  }

  /** Every accepted record is kept as often as it occurs, every other one dropped. */
  lemma {:induction false} FilterCounts(cs: seq<Candidate>)
    ensures forall c :: multiset(Filter(cs))[c] == if Accepted(c) then multiset(cs)[c] else 0
  {
    if cs != [] {
      var init := cs[..|cs| - 1];
      assert cs == init + [cs[|cs| - 1]];
      FilterCounts(init);
    }
  }

  /** Filtering distributes over concatenation; with the one-element case this is
      what keeps the accepted records in their original order. */
  lemma {:induction false} FilterAppend(a: seq<Candidate>, b: seq<Candidate>)
    ensures Filter(a + b) == Filter(a) + Filter(b)
  {
    if b == [] {
      assert a + b == a;
    } else {
      var b', y := b[..|b| - 1], b[|b| - 1];
      var tail := if Accepted(y) then [y] else [];
      assert (a + b)[..|a + b| - 1] == a + b';
      assert (a + b)[|a + b| - 1] == y;
      assert Filter(a + b) == Filter(a + b') + tail;
      assert Filter(b) == Filter(b') + tail;
      FilterAppend(a, b');
      assert Filter(a) + Filter(b') + tail == Filter(a) + (Filter(b') + tail);
    }
  }

  predicate SortedByImportance(s: seq<Candidate>)
  {
    forall i, j :: 0 <= i < j < |s| ==> s[i].importance >= s[j].importance
  }

  /** One step of a stable sort by descending importance: `x` goes before the first
      element it is at least as important as. */
  function InsertByImportance(x: Candidate, s: seq<Candidate>): (r: seq<Candidate>)
    ensures multiset(r) == multiset(s) + multiset{x}
  {
    if s == [] || x.importance >= s[0].importance then [x] + s
    else
      assert s == [s[0]] + s[1..];
      [s[0]] + InsertByImportance(x, s[1..])
  }

  lemma InsertBelowHead(x: Candidate, s: seq<Candidate>)
    requires SortedByImportance(s) && s != [] && x.importance < s[0].importance
    ensures forall c :: c in InsertByImportance(x, s[1..]) ==> s[0].importance >= c.importance
  {
    var tail := s[1..];
    forall c | c in InsertByImportance(x, tail) ensures s[0].importance >= c.importance {
      assert c in multiset(tail) + multiset{x};
      if c != x {
        var k :| 0 <= k < |tail| && tail[k] == c;
        assert s[k + 1] == c;
      }
    }
  }

  lemma {:induction false} InsertKeepsOrder(x: Candidate, s: seq<Candidate>)
    requires SortedByImportance(s)
    ensures SortedByImportance(InsertByImportance(x, s))
  {
    if s != [] && x.importance < s[0].importance {
      var rest := InsertByImportance(x, s[1..]);
      InsertKeepsOrder(x, s[1..]);
      InsertBelowHead(x, s);
      var r := [s[0]] + rest;
      forall i, j | 0 <= i < j < |r| ensures r[i].importance >= r[j].importance {
        if i == 0 {
          assert r[j] in rest;
        } else {
          assert r[i] == rest[i - 1] && r[j] == rest[j - 1];
        }
      }
      assert InsertByImportance(x, s) == r;
    }
  }

  /** `.sort((a, b) => b.importance - a.importance)`, which is stable. */
  function SortByImportance(s: seq<Candidate>): (r: seq<Candidate>)
    ensures multiset(r) == multiset(s)
    ensures SortedByImportance(r)
  {
    if s == [] then []
    else
      assert s == [s[0]] + s[1..];
      InsertKeepsOrder(s[0], SortByImportance(s[1..]));
      InsertByImportance(s[0], SortByImportance(s[1..]))
  }

  /** The elements of importance `v`, in order. */
  function WithImportance(s: seq<Candidate>, v: real): (r: seq<Candidate>)
    ensures forall k :: 0 <= k < |r| ==> r[k].importance == v
  {
    if s == [] then []
    else (if s[0].importance == v then [s[0]] else []) + WithImportance(s[1..], v)
  }

  /** An insertion goes before every element as important as the inserted one. */
  lemma {:induction false} InsertStable(x: Candidate, s: seq<Candidate>, v: real)
    ensures WithImportance(InsertByImportance(x, s), v) ==
            (if x.importance == v then [x] else []) + WithImportance(s, v)
  {
    if s == [] || x.importance >= s[0].importance {
      assert ([x] + s)[1..] == s;
    } else {
      var r := [s[0]] + InsertByImportance(x, s[1..]);
      assert r[1..] == InsertByImportance(x, s[1..]);
      InsertStable(x, s[1..], v);
    }
  }

  /** The sort is stable: records of equal importance keep their relative order,
      which decides which of them the five-item cut keeps. */
  lemma {:induction false} SortStable(s: seq<Candidate>, v: real)
    ensures WithImportance(SortByImportance(s), v) == WithImportance(s, v)
  {
    if s != [] {
      SortStable(s[1..], v);
      InsertStable(s[0], SortByImportance(s[1..]), v);
    }
  }

  /** The final `.map`, dropping type, class and importance. */
  function Project(c: Candidate): (s: Suggestion)
    ensures s.name == c.name && s.country == c.country && s.countryCode == c.countryCode
    ensures s.state == c.state && s.fullName == c.fullName && s.displayName == c.displayName
    ensures s.searchQuery == c.searchQuery
  {
    Suggestion(c.name, c.country, c.countryCode, c.state, c.fullName, c.displayName, c.searchQuery)
  }

  /** The accepted candidates in ranking order. */
  function Ranked(raw: seq<RawPlace>): seq<Candidate>
  {
    SortByImportance(Filter(seq(|raw|, k requires 0 <= k < |raw| => Shape(raw[k]))))
  }

  /** The ranking holds exactly the accepted candidates, each as often as the provider
      returned it, in descending importance. */
  lemma RankedIsSortedPermutation(raw: seq<RawPlace>)
    ensures SortedByImportance(Ranked(raw))
    ensures multiset(Ranked(raw)) ==
            multiset(Filter(seq(|raw|, k requires 0 <= k < |raw| => Shape(raw[k]))))
    ensures forall c :: c in Ranked(raw) <==>
            Accepted(c) && exists k :: 0 <= k < |raw| && c == Shape(raw[k])
  {
    var shaped := seq(|raw|, k requires 0 <= k < |raw| => Shape(raw[k]));
    forall c ensures c in Ranked(raw) <==> Accepted(c) && exists k :: 0 <= k < |raw| && c == Shape(raw[k]) {
      assert c in Ranked(raw) <==> c in multiset(Ranked(raw));
      assert c in Filter(shaped) <==> c in multiset(Filter(shaped));
      if c in shaped {
        var k :| 0 <= k < |shaped| && shaped[k] == c;
        assert c == Shape(raw[k]);
      }
      if exists k :: 0 <= k < |raw| && c == Shape(raw[k]) {
        var k :| 0 <= k < |raw| && c == Shape(raw[k]);
        assert shaped[k] == c;
      }
    }
  }

  /** The primary path: at most five suggestions, the most important first. */
  function PrimarySuggestions(raw: seq<RawPlace>): (r: seq<Suggestion>)
    ensures |r| == if |Ranked(raw)| < MaxSuggestions then |Ranked(raw)| else MaxSuggestions
    ensures forall i :: 0 <= i < |r| ==> r[i] == Project(Ranked(raw)[i])
  {
    var ranked := Ranked(raw);
    var n := if |ranked| < MaxSuggestions then |ranked| else MaxSuggestions;
    seq(n, i requires 0 <= i < n => Project(ranked[i]))
  }

  /** Every primary suggestion has a name and a country, comes from an accepted
      provider record, and no accepted record left out outranks one that is kept. */
  lemma PrimarySuggestionsAccepted(raw: seq<RawPlace>)
    ensures |PrimarySuggestions(raw)| <= MaxSuggestions
    ensures forall i :: 0 <= i < |PrimarySuggestions(raw)| ==>
              PrimarySuggestions(raw)[i].name != "" && PrimarySuggestions(raw)[i].country != "" &&
              exists k :: 0 <= k < |raw| && Accepted(Shape(raw[k])) &&
                          PrimarySuggestions(raw)[i] == Project(Shape(raw[k]))
    ensures forall i, j :: 0 <= i < |PrimarySuggestions(raw)| <= j < |Ranked(raw)| ==>
              Ranked(raw)[i].importance >= Ranked(raw)[j].importance
  {
    RankedIsSortedPermutation(raw);
    var r := PrimarySuggestions(raw);
    forall i | 0 <= i < |r|
      ensures r[i].name != "" && r[i].country != "" &&
              exists k :: 0 <= k < |raw| && Accepted(Shape(raw[k])) && r[i] == Project(Shape(raw[k]))
    {
      var c := Ranked(raw)[i];
      assert c in Ranked(raw);
      var k :| 0 <= k < |raw| && c == Shape(raw[k]);
      assert Accepted(Shape(raw[k]));
    }
  }

  /** A secondary-geocoder result. */
  datatype GeoCity = GeoCity(name: string, country: string, state: string)

  /** The outcome of the primary request: a parsed body, a non-ok status, or a thrown error. */
  datatype PrimaryResponse = PrimaryOk(places: seq<RawPlace>) | PrimaryNotOk | PrimaryFailed

  /** The outcome of the secondary request. */
  datatype FallbackResponse = FallbackOk(cities: seq<GeoCity>) | FallbackNotOk | FallbackFailed

  /** The fallback's `.map`: the country field serves as the country code. */
  function FromGeoCity(city: GeoCity): (s: Suggestion)
    ensures s.countryCode == s.country == city.country
    ensures s.searchQuery == SearchQuery(city.name, city.country)
    ensures s.name == city.name && s.state == city.state
    ensures s.fullName == FullName(city.name, city.state, city.country)
    ensures s.displayName == DisplayName(city.name, city.state)
  {
    Suggestion(city.name, city.country, city.country, city.state,
               FullName(city.name, city.state, city.country),
               DisplayName(city.name, city.state), SearchQuery(city.name, city.country))
  }

  /** `getCitySuggestionsFallback`: empty without a usable key or a good response,
      otherwise every returned city, in order and unfiltered. */
  function FallbackSuggestions(apiKey: string, response: FallbackResponse): (r: seq<Suggestion>)
    ensures !KeyUsable(apiKey) || !response.FallbackOk? ==> r == []
    ensures KeyUsable(apiKey) && response.FallbackOk? ==>
            |r| == |response.cities| &&
            forall i :: 0 <= i < |r| ==> r[i] == FromGeoCity(response.cities[i])
  {
    if !KeyUsable(apiKey) then []
    else match response
      case FallbackOk(cities) => seq(|cities|, i requires 0 <= i < |cities| => FromGeoCity(cities[i]))
      case _ => []
  }

  /** `!query || query.trim().length < 2`. */
  predicate QueryTooShort(query: Option<string>): (b: bool)
    ensures b <==> query.None? ||
                   !exists i, j :: 0 <= i < j < |query.value| &&
                                   !IsJsSpace(query.value[i]) && !IsJsSpace(query.value[j])
  {
    assert query.Some? ==> (|Trim(query.value)| >= 2 <==>
             exists i, j :: 0 <= i < j < |query.value| &&
                            !IsJsSpace(query.value[i]) && !IsJsSpace(query.value[j])) by {
      if query.Some? {
        TrimAtLeastTwo(query.value);
      }
    }
    query.None? || |Trim(query.value)| < MinQueryLength
  }

  /** `getCitySuggestions(query)`, given both providers' results: the primary list when
      the primary request succeeded with at least one suggestion, the fallback list
      otherwise, and nothing for a missing or too-short query. */
  function CitySuggestions(query: Option<string>, primary: PrimaryResponse,
                           fallback: seq<Suggestion>): (r: seq<Suggestion>)
    ensures QueryTooShort(query) ==> r == []
    ensures !QueryTooShort(query) && primary.PrimaryOk? && PrimarySuggestions(primary.places) != [] ==>
            r == PrimarySuggestions(primary.places)
    ensures !QueryTooShort(query) && !(primary.PrimaryOk? && PrimarySuggestions(primary.places) != []) ==>
            r == fallback
  {
    if QueryTooShort(query) then []
    else match primary
      case PrimaryOk(places) =>
        var s := PrimarySuggestions(places);
        if |s| == 0 then fallback else s
      case _ => fallback
  }

  /** A query shorter than two characters, or blank however long, yields nothing,
      whatever either provider would have answered. */
  lemma ShortQueryIsEmpty(query: string, primary: PrimaryResponse, fallback: seq<Suggestion>)
    requires |query| < MinQueryLength || AllSpace(query)
    ensures CitySuggestions(Some(query), primary, fallback) == []
  {
  }
}
