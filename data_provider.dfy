/**
 * The content store shared by every page: five collections (heroes, war heroes, places,
 * quiz questions, timeline events) that start as the built-in content, are loaded once from
 * the browser's storage, and after that are written back under their own key
 * (`data_heroes`, `data_warHeroes`, `data_places`, `data_quiz`, `data_timeline`) whenever
 * they change. A key that is absent or holds the empty string means "use the built-in
 * content"; a stored `[]` is an empty collection. If any stored collection fails to parse,
 * all five fall back to the built-in content.
 */
module DataProvider {
  import opened Wrappers
  import opened Types
  import opened Codec
  import opened Collections
  import opened InitialData
  import opened BrowserStorage

  datatype Collection = HeroesData | WarHeroesData | PlacesData | QuizData | TimelineData

  function FileName(c: Collection): string {
    match c
    case HeroesData => "heroes"
    case WarHeroesData => "warHeroes"
    case PlacesData => "places"
    case QuizData => "quiz"
    case TimelineData => "timeline"
  }

  /** `data_${filename}`. */
  function StorageKey(c: Collection): string {
    "data_" + FileName(c)
  }

  /** Each collection has a key of its own. */
  lemma StorageKeysDistinct(c: Collection, d: Collection)
    requires c != d
    ensures StorageKey(c) != StorageKey(d)
  {
    assert StorageKey(c)[5..] == FileName(c);
    assert StorageKey(d)[5..] == FileName(d);
  }

  lemma AllKeysDistinct()
    ensures StorageKey(HeroesData) != StorageKey(WarHeroesData)
    ensures StorageKey(HeroesData) != StorageKey(PlacesData)
    ensures StorageKey(HeroesData) != StorageKey(QuizData)
    ensures StorageKey(HeroesData) != StorageKey(TimelineData)
    ensures StorageKey(WarHeroesData) != StorageKey(PlacesData)
    ensures StorageKey(WarHeroesData) != StorageKey(QuizData)
    ensures StorageKey(WarHeroesData) != StorageKey(TimelineData)
    ensures StorageKey(PlacesData) != StorageKey(QuizData)
    ensures StorageKey(PlacesData) != StorageKey(TimelineData)
    ensures StorageKey(QuizData) != StorageKey(TimelineData)
  {
    StorageKeysDistinct(HeroesData, PlacesData);
  }

  /** The five collections as one value. */
  datatype Snapshot = Snapshot(
    heroes: seq<Hero>,
    warHeroes: seq<WarHero>,
    places: seq<Place>,
    quiz: seq<QuizQuestion>,
    events: seq<HistoricalEvent>)

  /** `t` differs from `s` at most in collection `c`. */
  predicate SameExcept(s: Snapshot, t: Snapshot, c: Collection) {
    && (c != HeroesData ==> t.heroes == s.heroes)
    && (c != WarHeroesData ==> t.warHeroes == s.warHeroes)
    && (c != PlacesData ==> t.places == s.places)
    && (c != QuizData ==> t.quiz == s.quiz)
    && (c != TimelineData ==> t.events == s.events)
  }

  const Seed := Snapshot(InitialHeroes, InitialWarHeroes, InitialPlaces, InitialQuiz, InitialEvents)

  /** `JSON.stringify` of one collection. */
  function Serialize(s: Snapshot, c: Collection): (t: string)
    ensures |t| > 0
  {
    match c
    case HeroesData => EncodeHeroes(s.heroes)
    case WarHeroesData => EncodeWarHeroes(s.warHeroes)
    case PlacesData => EncodePlaces(s.places)
    case QuizData => EncodeQuiz(s.quiz)
    case TimelineData => EncodeEvents(s.events)
  }

  // ---------------------------------------------------------------- loading

  /** `item ? JSON.parse(item) : seed`: absent or empty means the seed; `None` is a parse that throws. */
  function ParseSlot<T>(item: Option<string>, decode: string -> Option<seq<T>>, seed: seq<T>): Option<seq<T>> {
    match item
    case None => Some(seed)
    case Some(text) => if text == "" then Some(seed) else decode(text)
  }

  /** What the store holds after the start-up load from `entries`. */
  function Loaded(entries: map<string, string>): Snapshot {
    var h := ParseSlot(Item(entries, StorageKey(HeroesData)), DecodeHeroes, InitialHeroes);
    var w := ParseSlot(Item(entries, StorageKey(WarHeroesData)), DecodeWarHeroes, InitialWarHeroes);
    var p := ParseSlot(Item(entries, StorageKey(PlacesData)), DecodePlaces, InitialPlaces);
    var q := ParseSlot(Item(entries, StorageKey(QuizData)), DecodeQuiz, InitialQuiz);
    var e := ParseSlot(Item(entries, StorageKey(TimelineData)), DecodeEvents, InitialEvents);
    if h.Some? && w.Some? && p.Some? && q.Some? && e.Some? then
      Snapshot(h.value, w.value, p.value, q.value, e.value)
    else
      Seed
  }

  /** With nothing stored, the load gives the built-in content. */
  lemma LoadNothing()
    ensures Loaded(map[]) == Seed
  {
  }

  /** Removing a key holding the empty string changes no collection's slot: that key reads as absent, the others are untouched. */
  lemma SlotWithoutEmpty<T>(entries: map<string, string>, c: Collection, d: Collection, decode: string -> Option<seq<T>>, seed: seq<T>)
    requires StorageKey(c) in entries && entries[StorageKey(c)] == ""
    ensures ParseSlot(Item(entries - {StorageKey(c)}, StorageKey(d)), decode, seed)
         == ParseSlot(Item(entries, StorageKey(d)), decode, seed)
  {
    if c != d {
      StorageKeysDistinct(c, d);
    }
  }

  /** A key holding the empty string counts as absent. */
  lemma EmptyTextIsAbsent(entries: map<string, string>, c: Collection)
    requires StorageKey(c) in entries && entries[StorageKey(c)] == ""
    ensures Loaded(entries) == Loaded(entries - {StorageKey(c)})
  {
    SlotWithoutEmpty(entries, c, HeroesData, DecodeHeroes, InitialHeroes);
    SlotWithoutEmpty(entries, c, WarHeroesData, DecodeWarHeroes, InitialWarHeroes);
    SlotWithoutEmpty(entries, c, PlacesData, DecodePlaces, InitialPlaces);
    SlotWithoutEmpty(entries, c, QuizData, DecodeQuiz, InitialQuiz);
    SlotWithoutEmpty(entries, c, TimelineData, DecodeEvents, InitialEvents);
  }

  /**
   * The slot of `c` loads without throwing: its key is absent or empty, or its text parses
   * as that collection.
   */
  predicate Readable(entries: map<string, string>, c: Collection) {
    match c
    case HeroesData => ParseSlot(Item(entries, StorageKey(HeroesData)), DecodeHeroes, InitialHeroes).Some?
    case WarHeroesData => ParseSlot(Item(entries, StorageKey(WarHeroesData)), DecodeWarHeroes, InitialWarHeroes).Some?
    case PlacesData => ParseSlot(Item(entries, StorageKey(PlacesData)), DecodePlaces, InitialPlaces).Some?
    case QuizData => ParseSlot(Item(entries, StorageKey(QuizData)), DecodeQuiz, InitialQuiz).Some?
    case TimelineData => ParseSlot(Item(entries, StorageKey(TimelineData)), DecodeEvents, InitialEvents).Some?
  }

  /** Collection `c` of `s` put back to its built-in content. */
  function Reseeded(s: Snapshot, c: Collection): Snapshot {
    match c
    case HeroesData => s.(heroes := InitialHeroes)
    case WarHeroesData => s.(warHeroes := InitialWarHeroes)
    case PlacesData => s.(places := InitialPlaces)
    case QuizData => s.(quiz := InitialQuiz)
    case TimelineData => s.(events := InitialEvents)
  }

  /** The number of records in collection `c` of `s`. */
  function Size(s: Snapshot, c: Collection): nat {
    match c
    case HeroesData => |s.heroes|
    case WarHeroesData => |s.warHeroes|
    case PlacesData => |s.places|
    case QuizData => |s.quiz|
    case TimelineData => |s.events|
  }

  /** Any one unreadable collection sends all five back to the built-in content. */
  lemma UnreadableFallsBack(entries: map<string, string>, c: Collection)
    requires !Readable(entries, c)
    ensures Loaded(entries) == Seed
  {
  }

  /** When every slot is readable, each collection is what its slot holds: the stored value, or the seed for an absent or empty key. */
  lemma ReadableLoads(entries: map<string, string>)
    requires forall d :: Readable(entries, d)
    ensures Readable(entries, HeroesData) && Readable(entries, WarHeroesData) && Readable(entries, PlacesData)
    ensures Readable(entries, QuizData) && Readable(entries, TimelineData)
    ensures Loaded(entries).heroes == ParseSlot(Item(entries, StorageKey(HeroesData)), DecodeHeroes, InitialHeroes).value
    ensures Loaded(entries).warHeroes == ParseSlot(Item(entries, StorageKey(WarHeroesData)), DecodeWarHeroes, InitialWarHeroes).value
    ensures Loaded(entries).places == ParseSlot(Item(entries, StorageKey(PlacesData)), DecodePlaces, InitialPlaces).value
    ensures Loaded(entries).quiz == ParseSlot(Item(entries, StorageKey(QuizData)), DecodeQuiz, InitialQuiz).value
    ensures Loaded(entries).events == ParseSlot(Item(entries, StorageKey(TimelineData)), DecodeEvents, InitialEvents).value
  {
  }

  /** Removing the key of `c` leaves every other collection's entry as it was. */
  lemma ItemWithout(entries: map<string, string>, c: Collection, d: Collection)
    requires c != d
    ensures Item(entries - {StorageKey(c)}, StorageKey(d)) == Item(entries, StorageKey(d))
  {
    StorageKeysDistinct(c, d);
  }

  /** With every slot readable, removing the key of `c` puts back the built-in content of `c` alone. */
  lemma RemovingKeyReseeds(entries: map<string, string>, c: Collection)
    requires forall d :: Readable(entries, d)
    ensures Loaded(entries - {StorageKey(c)}) == Reseeded(Loaded(entries), c)
  {
    var rest := entries - {StorageKey(c)};
    forall d | d != c
      ensures Item(rest, StorageKey(d)) == Item(entries, StorageKey(d))
    {
      ItemWithout(entries, c, d);
    }
    assert Item(rest, StorageKey(c)) == None;
    ReadableLoads(entries);
    forall d ensures Readable(rest, d) {
      if d != c {
        assert Readable(entries, d);
      }
    }
    ReadableLoads(rest);
  }

  /**
   * A stored `[]` loads as an empty collection, not as the built-in content: only removing
   * the key brings the built-in content back, for that collection alone.
   */
  lemma EmptyArrayStays(entries: map<string, string>, c: Collection)
    requires StorageKey(c) in entries && entries[StorageKey(c)] == "[]"
    requires forall d :: d != c ==> Readable(entries, d)
    ensures Size(Loaded(entries), c) == 0
    ensures Loaded(entries - {StorageKey(c)}) == Reseeded(Loaded(entries), c)
  {
    EmptyDecodes(c);
    assert Readable(entries, c);
    assert forall d :: Readable(entries, d);
    ReadableLoads(entries);
    RemovingKeyReseeds(entries, c);
  }

  /** `[]` decodes to the empty collection, whichever it is. */
  lemma EmptyDecodes(c: Collection)
    ensures c == HeroesData ==> DecodeHeroes("[]") == Some([])
    ensures c == WarHeroesData ==> DecodeWarHeroes("[]") == Some([])
    ensures c == PlacesData ==> DecodePlaces("[]") == Some([])
    ensures c == QuizData ==> DecodeQuiz("[]") == Some([])
    ensures c == TimelineData ==> DecodeEvents("[]") == Some([])
  {
    assert EncodeHeroes([]) == "[]" && EncodeWarHeroes([]) == "[]" && EncodePlaces([]) == "[]";
    assert EncodeQuiz([]) == "[]" && EncodeEvents([]) == "[]";
    HeroesRoundTrip([]);
    WarHeroesRoundTrip([]);
    PlacesRoundTrip([]);
    QuizRoundTrip([]);
    EventsRoundTrip([]);
  }

  // ---------------------------------------------------------------- saving

  /** `saveToLocalStorage`: a refused write is caught, so the entry keeps its old value. */
  function Persist(entries: map<string, string>, c: Collection, text: string, refused: set<string>): map<string, string> {
    if StorageKey(c) in refused then entries else entries[StorageKey(c) := text]
  }

  /** All five collections written, in the order of the save watchers. */
  function PersistAll(entries: map<string, string>, s: Snapshot, refused: set<string>): map<string, string> {
    var e1 := Persist(entries, HeroesData, Serialize(s, HeroesData), refused);
    var e2 := Persist(e1, WarHeroesData, Serialize(s, WarHeroesData), refused);
    var e3 := Persist(e2, PlacesData, Serialize(s, PlacesData), refused);
    var e4 := Persist(e3, QuizData, Serialize(s, QuizData), refused);
    Persist(e4, TimelineData, Serialize(s, TimelineData), refused)
  }

  lemma PersistAllAt(entries: map<string, string>, s: Snapshot, c: Collection)
    ensures Item(PersistAll(entries, s, {}), StorageKey(c)) == Some(Serialize(s, c))
  {
    AllKeysDistinct();
  }

  /** After saving, the slot of `c` reads back whatever its saved text decodes to. */
  lemma SlotAfterPersist<T>(entries: map<string, string>, s: Snapshot, c: Collection, decode: string -> Option<seq<T>>, seed: seq<T>, x: seq<T>)
    requires decode(Serialize(s, c)) == Some(x)
    ensures ParseSlot(Item(PersistAll(entries, s, {}), StorageKey(c)), decode, seed) == Some(x)
  {
    PersistAllAt(entries, s, c);
  }

  lemma HeroesReload(entries: map<string, string>, s: Snapshot)
    ensures ParseSlot(Item(PersistAll(entries, s, {}), StorageKey(HeroesData)), DecodeHeroes, InitialHeroes) == Some(s.heroes)
  {
    HeroesRoundTrip(s.heroes);
    SlotAfterPersist(entries, s, HeroesData, DecodeHeroes, InitialHeroes, s.heroes);
  }

  lemma WarHeroesReload(entries: map<string, string>, s: Snapshot)
    ensures ParseSlot(Item(PersistAll(entries, s, {}), StorageKey(WarHeroesData)), DecodeWarHeroes, InitialWarHeroes) == Some(s.warHeroes)
  {
    WarHeroesRoundTrip(s.warHeroes);
    SlotAfterPersist(entries, s, WarHeroesData, DecodeWarHeroes, InitialWarHeroes, s.warHeroes);
  }

  lemma PlacesReload(entries: map<string, string>, s: Snapshot)
    ensures ParseSlot(Item(PersistAll(entries, s, {}), StorageKey(PlacesData)), DecodePlaces, InitialPlaces) == Some(s.places)
  {
    PlacesRoundTrip(s.places);
    SlotAfterPersist(entries, s, PlacesData, DecodePlaces, InitialPlaces, s.places);
  }

  lemma QuizReload(entries: map<string, string>, s: Snapshot)
    ensures ParseSlot(Item(PersistAll(entries, s, {}), StorageKey(QuizData)), DecodeQuiz, InitialQuiz) == Some(s.quiz)
  {
    QuizRoundTrip(s.quiz);
    SlotAfterPersist(entries, s, QuizData, DecodeQuiz, InitialQuiz, s.quiz);
  }

  lemma EventsReload(entries: map<string, string>, s: Snapshot)
    ensures ParseSlot(Item(PersistAll(entries, s, {}), StorageKey(TimelineData)), DecodeEvents, InitialEvents) == Some(s.events)
  {
    EventsRoundTrip(s.events);
    SlotAfterPersist(entries, s, TimelineData, DecodeEvents, InitialEvents, s.events);
  }

  /** What the store writes reads back as what it held: a reload after saving restores the content. */
  lemma SaveThenLoad(entries: map<string, string>, s: Snapshot)
    ensures Loaded(PersistAll(entries, s, {})) == s
  {
    HeroesReload(entries, s);
    WarHeroesReload(entries, s);
    PlacesReload(entries, s);
    QuizReload(entries, s);
    EventsReload(entries, s);
  }

  /** Keys other than the five collection keys (the login flag, say) are never touched. */
  lemma PersistAllOthers(entries: map<string, string>, s: Snapshot, refused: set<string>, key: string)
    requires forall c :: key != StorageKey(c)
    ensures Item(PersistAll(entries, s, refused), key) == Item(entries, key)
  {
  }

  // ---------------------------------------------------------------- the store

  class DataStore {
    var heroes: seq<Hero>
    var warHeroes: seq<WarHero>
    var places: seq<Place>
    var quiz: seq<QuizQuestion>
    var events: seq<HistoricalEvent>
    var initialized: bool
    const storage: LocalStorage

    function Contents(): Snapshot
      reads this
    {
      Snapshot(heroes, warHeroes, places, quiz, events)
    }

    /** Before the load, every collection is its built-in content and nothing is written. */
    constructor (storage: LocalStorage)
      ensures Contents() == Seed && !initialized
      ensures this.storage == storage
    {
      heroes := InitialHeroes;
      warHeroes := InitialWarHeroes;
      places := InitialPlaces;
      quiz := InitialQuiz;
      events := InitialEvents;
      initialized := false;
      this.storage := storage;
    }

    /** What the save watcher of `c` leaves in `entries`: nothing before initialisation, the current value after. */
    function Watched(entries: map<string, string>, c: Collection, refused: set<string>): map<string, string>
      reads this
    {
      if initialized then Persist(entries, c, Serialize(Contents(), c), refused) else entries
    }

    /**
     * A watcher writes nothing before the load; after it, only its own key changes, and that
     * key then holds the current value unless the write was refused.
     */
    lemma WatchedOnlyOwnKey(entries: map<string, string>, c: Collection, refused: set<string>, key: string)
      ensures !initialized ==> Watched(entries, c, refused) == entries
      ensures key != StorageKey(c) ==> Item(Watched(entries, c, refused), key) == Item(entries, key)
      ensures StorageKey(c) in refused ==> Watched(entries, c, refused) == entries
      ensures initialized && StorageKey(c) !in refused ==>
        Item(Watched(entries, c, refused), StorageKey(c)) == Some(Serialize(Contents(), c))
    {
    }

    /** `saveToLocalStorage(filename, data)`: writes `JSON.stringify(data)`; a refused write is caught and logged. */
    method SaveToLocalStorage(c: Collection, data: Snapshot, refused: set<string>)
      modifies storage
      ensures storage.entries == Persist(old(storage.entries), c, Serialize(data, c), refused)
    {
      var stored := storage.SetItem(StorageKey(c), Serialize(data, c), StorageKey(c) in refused);
    }

    /** The save watcher of one collection. */
    method Watch(c: Collection, refused: set<string>)
      modifies storage
      ensures storage.entries == Watched(old(storage.entries), c, refused)
    {
      if initialized {
        SaveToLocalStorage(c, Contents(), refused);
      }
    }

    /**
     * The start-up load, then the five watchers firing as initialisation completes. When
     * storage cannot be read (`accessible` false), the load's `catch` installs the seed.
     */
    method Load(accessible: bool, refused: set<string>)
      modifies this, storage
      ensures Contents() == if accessible then Loaded(old(storage.entries)) else Seed
      ensures initialized
      ensures storage.entries == PersistAll(old(storage.entries), Contents(), refused)
    {
      ReadStorage(accessible);
      initialized := true;
      WatchAll(refused);
    }

    /**
     * `loadData`: reads the five keys, and takes what they hold only if every one parses. A
     * `getItem` that throws (`accessible` false) lands in the same `catch`: all five seeds.
     */
    method ReadStorage(accessible: bool)
      modifies this
      ensures Contents() == if accessible then Loaded(storage.entries) else Seed
      ensures initialized == old(initialized)
    {
      if !accessible {
        heroes, warHeroes, places, quiz, events := InitialHeroes, InitialWarHeroes, InitialPlaces, InitialQuiz, InitialEvents;
        return;
      }
      var localHeroes := storage.GetItem(StorageKey(HeroesData));
      var localWarHeroes := storage.GetItem(StorageKey(WarHeroesData));
      var localPlaces := storage.GetItem(StorageKey(PlacesData));
      var localQuiz := storage.GetItem(StorageKey(QuizData));
      var localEvents := storage.GetItem(StorageKey(TimelineData));
      var h := ParseSlot(localHeroes, DecodeHeroes, InitialHeroes);
      var w := ParseSlot(localWarHeroes, DecodeWarHeroes, InitialWarHeroes);
      var p := ParseSlot(localPlaces, DecodePlaces, InitialPlaces);
      var q := ParseSlot(localQuiz, DecodeQuiz, InitialQuiz);
      var e := ParseSlot(localEvents, DecodeEvents, InitialEvents);
      if h.Some? && w.Some? && p.Some? && q.Some? && e.Some? {
        heroes, warHeroes, places, quiz, events := h.value, w.value, p.value, q.value, e.value;
      } else {
        heroes, warHeroes, places, quiz, events := InitialHeroes, InitialWarHeroes, InitialPlaces, InitialQuiz, InitialEvents;
      }
    }

    /** The five save watchers firing in turn, as they do when initialisation completes. */
    method WatchAll(refused: set<string>)
      modifies storage
      ensures storage.entries == if initialized then PersistAll(old(storage.entries), Contents(), refused) else old(storage.entries)
    {
      Watch(HeroesData, refused);
      Watch(WarHeroesData, refused);
      Watch(PlacesData, refused);
      Watch(QuizData, refused);
      Watch(TimelineData, refused);
    }

    // ------------------------------------------------------------ heroes

    method UpdateHero(oldId: string, hero: Hero, refused: set<string>)
      modifies this, storage
      ensures Contents() == old(Contents()).(heroes := Update(old(heroes), HeroId, oldId, hero))
      ensures initialized == old(initialized)
      ensures storage.entries == Watched(old(storage.entries), HeroesData, refused)
    {
      heroes := Update(heroes, HeroId, oldId, hero);
      Watch(HeroesData, refused);
    }

    method AddHero(hero: Hero, refused: set<string>)
      modifies this, storage
      ensures Contents() == old(Contents()).(heroes := Add(old(heroes), hero))
      ensures initialized == old(initialized)
      ensures storage.entries == Watched(old(storage.entries), HeroesData, refused)
    {
      heroes := Add(heroes, hero);
      Watch(HeroesData, refused);
    }

    method DeleteHero(id: string, refused: set<string>)
      modifies this, storage
      ensures Contents() == old(Contents()).(heroes := Delete(old(heroes), HeroId, id))
      ensures initialized == old(initialized)
      ensures storage.entries == Watched(old(storage.entries), HeroesData, refused)
    {
      heroes := Delete(heroes, HeroId, id);
      Watch(HeroesData, refused);
    }

    // ------------------------------------------------------------ war heroes

    method UpdateWarHero(oldId: string, hero: WarHero, refused: set<string>)
      modifies this, storage
      ensures Contents() == old(Contents()).(warHeroes := Update(old(warHeroes), WarHeroId, oldId, hero))
      ensures initialized == old(initialized)
      ensures storage.entries == Watched(old(storage.entries), WarHeroesData, refused)
    {
      warHeroes := Update(warHeroes, WarHeroId, oldId, hero);
      Watch(WarHeroesData, refused);
    }

    method AddWarHero(hero: WarHero, refused: set<string>)
      modifies this, storage
      ensures Contents() == old(Contents()).(warHeroes := Add(old(warHeroes), hero))
      ensures initialized == old(initialized)
      ensures storage.entries == Watched(old(storage.entries), WarHeroesData, refused)
    {
      warHeroes := Add(warHeroes, hero);
      Watch(WarHeroesData, refused);
    }

    method DeleteWarHero(id: string, refused: set<string>)
      modifies this, storage
      ensures Contents() == old(Contents()).(warHeroes := Delete(old(warHeroes), WarHeroId, id))
      ensures initialized == old(initialized)
      ensures storage.entries == Watched(old(storage.entries), WarHeroesData, refused)
    {
      warHeroes := Delete(warHeroes, WarHeroId, id);
      Watch(WarHeroesData, refused);
    }

    // ------------------------------------------------------------ places

    method UpdatePlace(oldId: string, place: Place, refused: set<string>)
      modifies this, storage
      ensures Contents() == old(Contents()).(places := Update(old(places), PlaceId, oldId, place))
      ensures initialized == old(initialized)
      ensures storage.entries == Watched(old(storage.entries), PlacesData, refused)
    {
      places := Update(places, PlaceId, oldId, place);
      Watch(PlacesData, refused);
    }

    method AddPlace(place: Place, refused: set<string>)
      modifies this, storage
      ensures Contents() == old(Contents()).(places := Add(old(places), place))
      ensures initialized == old(initialized)
      ensures storage.entries == Watched(old(storage.entries), PlacesData, refused)
    {
      places := Add(places, place);
      Watch(PlacesData, refused);
    }

    method DeletePlace(id: string, refused: set<string>)
      modifies this, storage
      ensures Contents() == old(Contents()).(places := Delete(old(places), PlaceId, id))
      ensures initialized == old(initialized)
      ensures storage.entries == Watched(old(storage.entries), PlacesData, refused)
    {
      places := Delete(places, PlaceId, id);
      Watch(PlacesData, refused);
    }

    // ------------------------------------------------------------ quiz

    method UpdateQuizQuestion(oldId: int, question: QuizQuestion, refused: set<string>)
      modifies this, storage
      ensures Contents() == old(Contents()).(quiz := Update(old(quiz), QuestionId, oldId, question))
      ensures initialized == old(initialized)
      ensures storage.entries == Watched(old(storage.entries), QuizData, refused)
    {
      quiz := Update(quiz, QuestionId, oldId, question);
      Watch(QuizData, refused);
    }

    method AddQuizQuestion(question: QuizQuestion, refused: set<string>)
      modifies this, storage
      ensures Contents() == old(Contents()).(quiz := Add(old(quiz), question))
      ensures initialized == old(initialized)
      ensures storage.entries == Watched(old(storage.entries), QuizData, refused)
    {
      quiz := Add(quiz, question);
      Watch(QuizData, refused);
    }

    method DeleteQuizQuestion(id: int, refused: set<string>)
      modifies this, storage
      ensures Contents() == old(Contents()).(quiz := Delete(old(quiz), QuestionId, id))
      ensures initialized == old(initialized)
      ensures storage.entries == Watched(old(storage.entries), QuizData, refused)
    {
      quiz := Delete(quiz, QuestionId, id);
      Watch(QuizData, refused);
    }

    // ------------------------------------------------------------ timeline events

    method UpdateEvent(oldId: int, event: HistoricalEvent, refused: set<string>)
      modifies this, storage
      ensures Contents() == old(Contents()).(events := Update(old(events), EventId, oldId, event))
      ensures initialized == old(initialized)
      ensures storage.entries == Watched(old(storage.entries), TimelineData, refused)
    {
      events := Update(events, EventId, oldId, event);
      Watch(TimelineData, refused);
    }

    method AddEvent(event: HistoricalEvent, refused: set<string>)
      modifies this, storage
      ensures Contents() == old(Contents()).(events := Add(old(events), event))
      ensures initialized == old(initialized)
      ensures storage.entries == Watched(old(storage.entries), TimelineData, refused)
    {
      events := Add(events, event);
      Watch(TimelineData, refused);
    }

    method DeleteEvent(id: int, refused: set<string>)
      modifies this, storage
      ensures Contents() == old(Contents()).(events := Delete(old(events), EventId, id))
      ensures initialized == old(initialized)
      ensures storage.entries == Watched(old(storage.entries), TimelineData, refused)
    {
      events := Delete(events, EventId, id);
      Watch(TimelineData, refused);
    }

    // ------------------------------------------------------------ reset

    /**
     * Back to the built-in content, written under all five keys whether or not the store is
     * initialised. (Once initialised, the watchers then write the same five texts again,
     * which changes nothing.)
     */
    method ResetData(refused: set<string>)
      modifies this, storage
      ensures Contents() == Seed
      ensures initialized == old(initialized)
      ensures storage.entries == PersistAll(old(storage.entries), Seed, refused)
    {
      heroes, warHeroes, places, quiz, events := InitialHeroes, InitialWarHeroes, InitialPlaces, InitialQuiz, InitialEvents;
      SaveToLocalStorage(HeroesData, Seed, refused);
      SaveToLocalStorage(WarHeroesData, Seed, refused);
      SaveToLocalStorage(PlacesData, Seed, refused);
      SaveToLocalStorage(QuizData, Seed, refused);
      SaveToLocalStorage(TimelineData, Seed, refused);
    }
  }
}
