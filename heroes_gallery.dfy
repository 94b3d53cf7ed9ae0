/**
 * The heroes gallery: the heroes ordered by birth year (the first year in their `years`
 * text), optionally narrowed to one period. Sorting works on a copy; the collection itself
 * is a value and is never reordered.
 */
module HeroesGallery {
  import opened Types
  import opened Seqs
  import opened Sorting
  import opened YearText

  /** `getBirthYear(hero.years)`. */
  function BirthYear(h: Hero): int {
    GetYear(h.years)
  }

  /** `[...heroes].sort(by birth year)`: the same heroes, earliest first. */
  function SortedHeroes(heroes: seq<Hero>): (r: seq<Hero>)
    ensures |r| == |heroes|
    ensures multiset(r) == multiset(heroes)
    ensures SortedBy(r, BirthYear)
  {
    SortBy(heroes, BirthYear)
  }

  /** Heroes with the same birth year keep their collection order. */
  lemma SortedHeroesStable(heroes: seq<Hero>, year: int)
    ensures Filter(SortedHeroes(heroes), HasKey(BirthYear, year)) == Filter(heroes, HasKey(BirthYear, year))
  {
    SortByStable(heroes, BirthYear, year);
  }

  /** The period buttons: all heroes, or only one period. */
  datatype PeriodChoice = AllPeriods | OnlyPeriod(period: Period)

  function InPeriod(p: Period): Hero -> bool {
    (h: Hero) => h.period == p
  }

  /** `filteredHeroes`. */
  function FilteredHeroes(heroes: seq<Hero>, choice: PeriodChoice): (r: seq<Hero>)
    ensures |r| <= |heroes|
    ensures SortedBy(r, BirthYear)
  {
    match choice
    case AllPeriods => SortedHeroes(heroes)
    case OnlyPeriod(p) =>
      FilterSorted(SortedHeroes(heroes), InPeriod(p), BirthYear);
      Filter(SortedHeroes(heroes), InPeriod(p))
  }

  /** "All" shows every hero; a period shows exactly the heroes of that period. */
  lemma FilteredMembership(heroes: seq<Hero>, choice: PeriodChoice, h: Hero)
    ensures choice.AllPeriods? ==> FilteredHeroes(heroes, choice) == SortedHeroes(heroes)
    ensures h in FilteredHeroes(heroes, choice) <==> h in heroes && (choice.AllPeriods? || h.period == choice.period)
  {
    var sorted := SortedHeroes(heroes);
    assert h in sorted <==> h in multiset(sorted);
    if choice.OnlyPeriod? {
      FilterMembership(sorted, InPeriod(choice.period), h);
    }
  }

  /** A period shows each of its heroes as often as the collection holds them. */
  lemma FilteredCount(heroes: seq<Hero>, p: Period, h: Hero)
    ensures multiset(FilteredHeroes(heroes, OnlyPeriod(p)))[h] == if h.period == p then multiset(heroes)[h] else 0
  {
    FilterMultiset(SortedHeroes(heroes), InPeriod(p), h);
  }
}
