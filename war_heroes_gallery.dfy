/** The war heroes gallery: the war heroes ordered by birth year, on a copy of the collection. */
module WarHeroesGallery {
  import opened Types
  import opened Seqs
  import opened Sorting
  import opened YearText

  /** `getBirthYear(hero.years)`. */
  function BirthYear(w: WarHero): int {
    GetYear(w.years)
  }

  /** `[...warHeroes].sort(by birth year)`: the same war heroes, earliest first. */
  function SortedWarHeroes(warHeroes: seq<WarHero>): (r: seq<WarHero>)
    ensures |r| == |warHeroes|
    ensures multiset(r) == multiset(warHeroes)
    ensures SortedBy(r, BirthYear)
  {
    SortBy(warHeroes, BirthYear)
  }

  /** War heroes with the same birth year keep their collection order. */
  lemma SortedWarHeroesStable(warHeroes: seq<WarHero>, year: int)
    ensures Filter(SortedWarHeroes(warHeroes), HasKey(BirthYear, year)) == Filter(warHeroes, HasKey(BirthYear, year))
  {
    SortByStable(warHeroes, BirthYear, year);
  }
}
