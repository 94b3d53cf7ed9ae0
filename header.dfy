/**
 * The site header: the search box over hero, war-hero and place names, the active state of
 * the navigation links, and the in-page scroll for `/#...` links. Lower-casing is
 * `String.prototype.toLowerCase`, passed in as `lower` (its Unicode tables are not modelled).
 */
module Header {
  import opened Wrappers
  import opened Types
  import opened Text
  import opened Seqs

  datatype SearchHit = HeroHit(hero: Hero) | WarHeroHit(warHero: WarHero) | PlaceHit(place: Place)

  /** `name.toLowerCase().includes(query.toLowerCase())`. */
  predicate NameMatches(lower: string -> string, query: string, name: string) {
    Contains(lower(name), lower(query))
  }

  function HeroMatches(lower: string -> string, query: string): Hero -> bool {
    (h: Hero) => NameMatches(lower, query, h.name)
  }

  function WarHeroMatches(lower: string -> string, query: string): WarHero -> bool {
    (w: WarHero) => NameMatches(lower, query, w.name)
  }

  function PlaceMatches(lower: string -> string, query: string): Place -> bool {
    (p: Place) => NameMatches(lower, query, p.name)
  }

  function AsHeroHit(h: Hero): SearchHit { HeroHit(h) }
  function AsWarHeroHit(w: WarHero): SearchHit { WarHeroHit(w) }
  function AsPlaceHit(p: Place): SearchHit { PlaceHit(p) }

  /** Every match, heroes first, then war heroes, then places, each in collection order. */
  function AllMatches(heroes: seq<Hero>, warHeroes: seq<WarHero>, places: seq<Place>, query: string, lower: string -> string): seq<SearchHit> {
    Map(Filter(heroes, HeroMatches(lower, query)), AsHeroHit)
    + Map(Filter(warHeroes, WarHeroMatches(lower, query)), AsWarHeroHit)
    + Map(Filter(places, PlaceMatches(lower, query)), AsPlaceHit)
  }

  /** `searchResults`: nothing for a query of two characters or fewer, else the first five matches. */
  function SearchResults(heroes: seq<Hero>, warHeroes: seq<WarHero>, places: seq<Place>, query: string, lower: string -> string): (r: seq<SearchHit>)
    ensures |r| <= 5 && |r| <= |AllMatches(heroes, warHeroes, places, query, lower)|
    ensures |query| <= 2 ==> r == []
    ensures |query| > 2 ==> r == AllMatches(heroes, warHeroes, places, query, lower)[..|r|]
    ensures |query| > 2 && |AllMatches(heroes, warHeroes, places, query, lower)| <= 5 ==>
      r == AllMatches(heroes, warHeroes, places, query, lower)
    ensures |query| > 2 && |AllMatches(heroes, warHeroes, places, query, lower)| > 5 ==> |r| == 5
  {
    if |query| > 2 then Take(AllMatches(heroes, warHeroes, places, query, lower), 5) else []
  }

  /** A hero is among the matches exactly when it is in the collection and its name matches. */
  lemma HeroHitIff(heroes: seq<Hero>, warHeroes: seq<WarHero>, places: seq<Place>, query: string, lower: string -> string, h: Hero)
    ensures HeroHit(h) in AllMatches(heroes, warHeroes, places, query, lower)
        <==> h in heroes && NameMatches(lower, query, h.name)
  {
    var hs := Filter(heroes, HeroMatches(lower, query));
    var ws := Map(Filter(warHeroes, WarHeroMatches(lower, query)), AsWarHeroHit);
    var ps := Map(Filter(places, PlaceMatches(lower, query)), AsPlaceHit);
    MapMembership(hs, AsHeroHit, h);
    FilterMembership(heroes, HeroMatches(lower, query), h);
    assert HeroHit(h) !in ws;
    assert HeroHit(h) !in ps;
  }

  lemma WarHeroHitIff(heroes: seq<Hero>, warHeroes: seq<WarHero>, places: seq<Place>, query: string, lower: string -> string, w: WarHero)
    ensures WarHeroHit(w) in AllMatches(heroes, warHeroes, places, query, lower)
        <==> w in warHeroes && NameMatches(lower, query, w.name)
  {
    var hs := Map(Filter(heroes, HeroMatches(lower, query)), AsHeroHit);
    var ws := Filter(warHeroes, WarHeroMatches(lower, query));
    var ps := Map(Filter(places, PlaceMatches(lower, query)), AsPlaceHit);
    MapMembership(ws, AsWarHeroHit, w);
    FilterMembership(warHeroes, WarHeroMatches(lower, query), w);
    assert WarHeroHit(w) !in hs;
    assert WarHeroHit(w) !in ps;
  }

  lemma PlaceHitIff(heroes: seq<Hero>, warHeroes: seq<WarHero>, places: seq<Place>, query: string, lower: string -> string, p: Place)
    ensures PlaceHit(p) in AllMatches(heroes, warHeroes, places, query, lower)
        <==> p in places && NameMatches(lower, query, p.name)
  {
    var hs := Map(Filter(heroes, HeroMatches(lower, query)), AsHeroHit);
    var ws := Map(Filter(warHeroes, WarHeroMatches(lower, query)), AsWarHeroHit);
    var ps := Filter(places, PlaceMatches(lower, query));
    MapMembership(ps, AsPlaceHit, p);
    FilterMembership(places, PlaceMatches(lower, query), p);
    assert PlaceHit(p) !in hs;
    assert PlaceHit(p) !in ws;
  }

  /** Heroes come before war heroes, which come before places. */
  lemma MatchesOrdered(heroes: seq<Hero>, warHeroes: seq<WarHero>, places: seq<Place>, query: string, lower: string -> string, i: int, j: int)
    requires var all := AllMatches(heroes, warHeroes, places, query, lower); 0 <= i < j < |all|
    ensures var all := AllMatches(heroes, warHeroes, places, query, lower);
      (all[j].HeroHit? ==> all[i].HeroHit?) && (all[j].WarHeroHit? ==> !all[i].PlaceHit?)
  {
  }

  /** `isActive(path)` for the current `pathname` and `hash`. */
  predicate IsActive(path: string, pathname: string, hash: string) {
    if path == "/" && pathname != "/" then false
    else pathname == path || (StartsWith(path, "/#") && hash == path[1..])
  }

  /** The home link is active only on the home page; an anchor link also when its hash is current; any other link only on its own page. */
  lemma IsActiveCases(path: string, pathname: string, hash: string)
    ensures path == "/" ==> (IsActive(path, pathname, hash) <==> pathname == "/")
    ensures StartsWith(path, "/#") ==> (IsActive(path, pathname, hash) <==> pathname == path || hash == path[1..])
    ensures path != "/" && !StartsWith(path, "/#") ==> (IsActive(path, pathname, hash) <==> pathname == path)
  {
  }

  /** The element an anchor click scrolls to: the text after `/#`, and only while on the home page. */
  function AnchorTarget(href: string, pathname: string): (r: Option<string>)
    ensures r.Some? <==> StartsWith(href, "/#") && (pathname == "/" || pathname == "")
    ensures r.Some? ==> "/#" + r.value == href
  {
    if StartsWith(href, "/#") && (pathname == "/" || pathname == "") then Some(href[2..]) else None
  }
}
