/**
 * The timeline page: every hero, war hero and historical event as one entry, heroes first,
 * then war heroes, then events, sorted by year. Hero entries take their year from the
 * `years` text; event entries keep their own year.
 */
module TimelinePage {
  import opened Wrappers
  import opened Types
  import opened Text
  import opened Seqs
  import opened Sorting
  import opened YearText

  datatype EntryKind = HeroEntry | WarHeroEntry | EventEntry

  /** Hero ids are text, event ids are numbers. */
  datatype EntryId = TextId(text: string) | NumberId(number: int)

  datatype TimelineEntry = TimelineEntry(
    id: EntryId,
    year: int,
    title: string,
    description: string,
    kind: EntryKind,
    image: Option<string>,
    fullDate: string)

  function FromHero(h: Hero): TimelineEntry {
    TimelineEntry(TextId(h.id), GetYear(h.years), h.name, h.title, HeroEntry, Some(h.image), h.years)
  }

  function FromWarHero(w: WarHero): TimelineEntry {
    TimelineEntry(TextId(w.id), GetYear(w.years), w.name, w.title, WarHeroEntry, Some(w.image), w.years)
  }

  function FromEvent(e: HistoricalEvent): TimelineEntry {
    TimelineEntry(NumberId(e.id), e.year, e.title, e.description, EventEntry, e.image, IntToDecimal(e.year))
  }

  /** The entries before sorting: heroes, then war heroes, then events, each in collection order. */
  function Entries(heroes: seq<Hero>, warHeroes: seq<WarHero>, events: seq<HistoricalEvent>): (r: seq<TimelineEntry>)
    ensures |r| == |heroes| + |warHeroes| + |events|
  {
    Map(heroes, FromHero) + Map(warHeroes, FromWarHero) + Map(events, FromEvent)
  }

  function EntryYear(e: TimelineEntry): int {
    e.year
  }

  /** `events.sort((a, b) => a.year - b.year)`. */
  function Timeline(heroes: seq<Hero>, warHeroes: seq<WarHero>, events: seq<HistoricalEvent>): (r: seq<TimelineEntry>)
    ensures |r| == |heroes| + |warHeroes| + |events|
    ensures SortedBy(r, EntryYear)
    ensures multiset(r) == multiset(Entries(heroes, warHeroes, events))
  {
    SortBy(Entries(heroes, warHeroes, events), EntryYear)
  }

  /** Where each record lands before sorting, and what its entry says. */
  lemma EntryOfHero(heroes: seq<Hero>, warHeroes: seq<WarHero>, events: seq<HistoricalEvent>, i: int)
    requires 0 <= i < |heroes|
    ensures var e := Entries(heroes, warHeroes, events)[i];
      e.id == TextId(heroes[i].id) && e.kind == HeroEntry && e.year == GetYear(heroes[i].years)
      && e.title == heroes[i].name && e.description == heroes[i].title
      && e.image == Some(heroes[i].image) && e.fullDate == heroes[i].years
  {
  }

  lemma EntryOfWarHero(heroes: seq<Hero>, warHeroes: seq<WarHero>, events: seq<HistoricalEvent>, i: int)
    requires 0 <= i < |warHeroes|
    ensures var e := Entries(heroes, warHeroes, events)[|heroes| + i];
      e.id == TextId(warHeroes[i].id) && e.kind == WarHeroEntry && e.year == GetYear(warHeroes[i].years)
      && e.title == warHeroes[i].name && e.description == warHeroes[i].title
      && e.image == Some(warHeroes[i].image) && e.fullDate == warHeroes[i].years
  {
  }

  /** An event keeps its year, and its date text is `year.toString()`: the year in decimal, signed when negative. */
  lemma EntryOfEvent(heroes: seq<Hero>, warHeroes: seq<WarHero>, events: seq<HistoricalEvent>, i: int)
    requires 0 <= i < |events|
    ensures var e := Entries(heroes, warHeroes, events)[|heroes| + |warHeroes| + i];
      e.id == NumberId(events[i].id) && e.kind == EventEntry && e.year == events[i].year && e.title == events[i].title
      && e.description == events[i].description && e.image == events[i].image
      && e.fullDate == IntToDecimal(events[i].year)
  {
    EventAt(heroes, warHeroes, events, i);
  }

  lemma EventAt(heroes: seq<Hero>, warHeroes: seq<WarHero>, events: seq<HistoricalEvent>, i: int)
    requires 0 <= i < |events|
    ensures Entries(heroes, warHeroes, events)[|heroes| + |warHeroes| + i] == FromEvent(events[i])
  {
    MapAfter(Map(heroes, FromHero) + Map(warHeroes, FromWarHero), events, FromEvent, i);
  }

  /** Entries of the same year keep their merged order: heroes, then war heroes, then events. */
  lemma TimelineStable(heroes: seq<Hero>, warHeroes: seq<WarHero>, events: seq<HistoricalEvent>, year: int)
    ensures Filter(Timeline(heroes, warHeroes, events), HasKey(EntryYear, year))
         == Filter(Entries(heroes, warHeroes, events), HasKey(EntryYear, year))
  {
    SortByStable(Entries(heroes, warHeroes, events), EntryYear, year);
  }
}
