# BR-Site core in Dafny

BR-Site is a small site about Belarusian history. It has a gallery of heroes, a gallery of
Second World War heroes, an interactive map of places, a timeline and a quiz. An admin area
edits all five collections. This project models, and proves properties of:

- the client-side **content store** (`DataProvider`). It holds the five collections, starts
  them from the built-in content, loads them once from the browser's `localStorage` and from
  then on writes each collection back under its own key whenever it changes. It also offers
  add / update / delete for each collection and a reset;
- the built-in content and the record shapes;
- the **file-backed data service** (`server.js`): a directory of `<name>.json` files behind
  one GET and one POST endpoint;
- the **admin login gate**, with its flag persisted in `localStorage`;
- the **quiz runner** state machine and its result thresholds;
- the display derivations: the year read from free text, the merged and sorted timeline, the
  gallery sort and period filter, and the header search, active-link rule and anchor target;
- the three admin editors: path to category, record construction, and the choice between an
  update and an add.

Modules follow the source. `Types` holds the record shapes and `InitialData` the built-in
content. `Collections` holds the CRUD operations and `DataProvider` the content store. The
other modules are `FileServer`, `Auth`, `QuizPage`, `YearText`, `TimelinePage`,
`HeroesGallery`, `WarHeroesGallery`, `Header`, `ContentEditor`, `QuizEditor` and
`TimelineEditor`.

The supporting modules are:

- `Json`: a JSON value tree with a printer in two layouts, compact and two-space indented,
  and a parser. `Parse(Stringify(v, layout)) == Some(v)` is proved.
- `Codec`: each record to and from JSON, with round trips proved.
- `BrowserStorage`: `localStorage` as a class over a `map<string, string>`.
- `Seqs`, `Sorting`, `Text` and `Wrappers`: sequence, stable insertion sort, digit and
  substring helpers.

Where the state changes in place, the model uses classes:

- `DataProvider.DataStore` has five `seq` fields, an `initialized` flag and a shared
  `LocalStorage` object.
- `FileServer.DataServer` holds a map from file name to text.
- `Auth.AuthSession`, `QuizPage.QuizRunner` and the three editor classes hold their
  component state.

Their methods state the whole new state in terms of pure functions (`Loaded`, `PersistAll`,
`Watched`, `Served`, `SaveRecord`, …), and the lemmas are proved about those functions.

Inputs from outside become parameters:

- `Date.now()` is `now: nat`;
- `confirm(...)` is `confirmed: bool`;
- the form's fields arrive already read, as a form record;
- `toLowerCase` is a function parameter `lower`;
- a `localStorage.setItem` that throws (quota) is the key's membership in a `refused` set.
- a `localStorage.getItem` that throws (storage access denied) is `accessible: bool` being false.

Three behaviours of the code shape the model:

- **Empty collections are kept.** The fallback to the built-in content fires only for a key
  that is absent or holds the empty string. A stored `[]` loads as an empty collection, and
  only removing the key brings that collection's built-in content back
  (`DataProvider.EmptyArrayStays`).
- **A failed parse resets everything.** The five reads share one `try`, so one stored
  collection that does not parse sends all five back to the built-in content
  (`DataProvider.UnreadableFallsBack`).
- **The client never calls the server.** Nothing on the client side calls
  `server/server.js`, and its saves are synchronous `localStorage` writes. The server is
  modelled on its own.

## Model

| member | source | states |
|---|---|---|
| Codec.PeriodFromName | src/types.ts:9 | a hero's period is exactly "early" or "modern", and reading a name back gives that name |
| Codec.PlaceTypeFromName | src/types.ts:21 | a place type is exactly one of castle, memorial, religious, historical |
| Codec.NamesRoundTrip | src/types.ts:9-21 | every period and place type reads back as itself from its name |
| Codec.HeroRoundTrip | src/types.ts:2-10 | a hero's JSON object, with all seven fields, decodes to the same hero |
| Codec.WarHeroRoundTrip | src/types.ts:12-19 | a war hero (the hero fields without `period`) decodes to the same war hero |
| Codec.PlaceRoundTrip | src/types.ts:23-33 | a place, with its type under the key `type`, decodes to the same place |
| Codec.EditorHeroDecodes | src/pages/admin/ContentEditor.tsx:106-116 | the hero object as the editor builds it, `period` added last, decodes to the same hero |
| Codec.EditorWarHeroDecodes | src/pages/admin/ContentEditor.tsx:106-113 | the war-hero object in the editor's key order decodes to the same war hero |
| Codec.EditorPlaceDecodes | src/pages/admin/ContentEditor.tsx:91-101 | the place object in the editor's key order decodes to the same place |
| Codec.QuestionRoundTrip | src/types.ts:35-42 | a quiz question decodes to itself; an absent image is an omitted key |
| Codec.EventRoundTrip | src/types.ts:44-50 | a historical event decodes to itself; an absent image is an omitted key |
| Codec.Encode | src/context/DataProvider.tsx:75 | a stored collection is never the empty text: it starts with `[`, and an empty collection prints `[]` |
| Codec.CollectionRoundTrip | src/context/DataProvider.tsx:51-55 | a collection stored with `JSON.stringify`, in either layout, parses back to the same collection whenever each record does |
| Codec.HeroesRoundTrip | src/context/DataProvider.tsx:51 | the heroes written under `data_heroes` read back as the same heroes |
| Codec.WarHeroesRoundTrip | src/context/DataProvider.tsx:52 | the same for war heroes |
| Codec.PlacesRoundTrip | src/context/DataProvider.tsx:53 | the same for places |
| Codec.QuizRoundTrip | src/context/DataProvider.tsx:54 | the same for quiz questions |
| Codec.EventsRoundTrip | src/context/DataProvider.tsx:55 | the same for timeline events |
| Json.RoundTrip | server/server.js:47 | parsing the printed text of any JSON value, compact or indented by two spaces, gives back that value |
| Json.ParseSurrogatePair | server/server.js:32 | a `\uXXXX` high surrogate followed by a `\uXXXX` low surrogate is one character outside the Basic Multilingual Plane, and reading it consumes both escapes |
| Json.Hex4Code | server/server.js:32 | four hex digits written for a code unit read back as that code unit |
| Json.PairEscapeStep | server/server.js:32 | any character outside the Basic Multilingual Plane, written as its surrogate-pair escape, reads back as that one character |
| InitialData.EmptySeeds | src/data/initialData.ts:3-7 | the built-in heroes, war heroes and places (and events, line 33) are empty |
| InitialData.QuizSeed | src/data/initialData.ts:10-31 | the built-in quiz has two questions with ids 1 and 2, each with four options, a valid correct answer and no image |
| Collections.Add | src/context/DataProvider.tsx:92 | `[...prev, r]`: one more record at the end, the earlier ones unchanged and in order |
| Collections.Update | src/context/DataProvider.tsx:91 | an update keeps the length of the collection |
| Collections.UpdateAt | src/context/DataProvider.tsx:91 | every record with the old id becomes the new record; every other record keeps its value and its place |
| Collections.UpdateNoMatch | src/context/DataProvider.tsx:91 | an id no record has leaves the collection unchanged |
| Collections.UpdateKeepsIds | src/context/DataProvider.tsx:91 | a replacement carrying the old id keeps the ids of the collection |
| Collections.UpdateIdempotent | src/context/DataProvider.tsx:91 | repeating the same id-keeping update changes nothing |
| Collections.UpdateAdded | src/context/DataProvider.tsx:91-92 | updating a record just added under a fresh id gives the earlier records plus the replacement |
| Collections.Delete | src/context/DataProvider.tsx:93 | a delete never lengthens the collection |
| Collections.DeleteMembership | src/context/DataProvider.tsx:93 | a record survives a delete exactly when it was there and its id differs |
| Collections.DeleteConcat | src/context/DataProvider.tsx:93 | deleting from two parts is deleting from each, so the relative order is kept |
| Collections.DeleteIdempotent | src/context/DataProvider.tsx:93 | deleting the same id twice is deleting it once |
| Collections.DeleteNoMatch | src/context/DataProvider.tsx:93 | deleting an id no record has leaves the collection unchanged |
| Collections.DeleteUnique | src/context/DataProvider.tsx:93 | deleting an id exactly one record has shortens the collection by exactly one |
| Collections.DeleteAdded | src/context/DataProvider.tsx:92-93 | deleting the id of a record just added undoes the addition |
| BrowserStorage.LocalStorage.SetItem | src/context/DataProvider.tsx:74-78 | a write sets exactly its key; a refused write changes nothing and reports it |
| BrowserStorage.LocalStorage.RemoveItem | src/context/AuthProvider.tsx:37 | removes exactly the key |
| Wrappers.Item | src/context/DataProvider.tsx:45-49 | `getItem`: the stored text exactly when the key is present |
| Wrappers.NonEmpty | src/pages/admin/QuizEditor.tsx:71 | `text \|\| undefined`: nothing exactly for the empty text, otherwise the text itself |
| DataProvider.StorageKeysDistinct | src/context/DataProvider.tsx:45-49 | the five collections have five different keys |
| DataProvider.AllKeysDistinct | src/context/DataProvider.tsx:45-49 | the ten pairs of keys, spelled out, are all different |
| DataProvider.Serialize | src/context/DataProvider.tsx:75 | saved text is never empty, so a saved collection is never read back as "absent" |
| DataProvider.LoadNothing | src/context/DataProvider.tsx:51-55 | loading from an empty store gives the built-in content |
| DataProvider.EmptyTextIsAbsent | src/context/DataProvider.tsx:51-55 | a key holding the empty text loads exactly as if it were absent |
| DataProvider.UnreadableFallsBack | src/context/DataProvider.tsx:51-64 | when any one of the five stored collections does not parse, all five come back as the built-in content |
| DataProvider.EmptyArrayStays | src/context/DataProvider.tsx:51-55 | for any collection, a stored `[]` loads as empty while the other slots parse, and removing its key restores only that collection's built-in content |
| DataProvider.ReadableLoads | src/context/DataProvider.tsx:51-55 | when all five stored slots parse, each collection loads as what its own slot decodes to |
| DataProvider.RemovingKeyReseeds | src/context/DataProvider.tsx:51-55 | removing one collection's key, when every slot parses, brings back that collection's built-in content and leaves the other four as loaded |
| DataProvider.PersistAllAt | src/context/DataProvider.tsx:83-87 | after the five watchers every key holds its collection's text |
| DataProvider.SaveThenLoad | src/context/DataProvider.tsx:41-87 | loading what the watchers wrote gives back exactly the saved contents |
| DataProvider.PersistAllOthers | src/context/DataProvider.tsx:83-87 | the watchers leave every key other than the five collection keys unchanged |
| DataProvider.DataStore.constructor | src/context/DataProvider.tsx:33-38 | every collection starts as its built-in content, not yet initialised |
| DataProvider.DataStore.WatchedOnlyOwnKey | src/context/DataProvider.tsx:83-87 | no write before initialisation; after it a watcher changes its own key only, to the current value unless refused |
| DataProvider.DataStore.SaveToLocalStorage | src/context/DataProvider.tsx:73-79 | `data_<name>` is written with the collection's JSON, or left alone when the write is refused |
| DataProvider.DataStore.Watch | src/context/DataProvider.tsx:83-87 | one save watcher: a write only once initialised |
| DataProvider.DataStore.ReadStorage | src/context/DataProvider.tsx:44-64 | the contents become what the stored entries load as, with the all-or-nothing fallback; storage that cannot be read gives the built-in content |
| DataProvider.DataStore.WatchAll | src/context/DataProvider.tsx:83-87 | the five watchers in order: all five keys written when initialised, nothing otherwise |
| DataProvider.DataStore.Load | src/context/DataProvider.tsx:41-70 | contents are what the store held, or the built-in content when storage cannot be read; initialisation completes either way, and the five watchers then persist the loaded contents |
| DataProvider.DataStore.UpdateHero | src/context/DataProvider.tsx:91 | heroes become the update of the old id, the other four collections unchanged, and the heroes watcher runs |
| DataProvider.DataStore.AddHero | src/context/DataProvider.tsx:92 | heroes get the record appended; the rest as for UpdateHero |
| DataProvider.DataStore.DeleteHero | src/context/DataProvider.tsx:93 | heroes lose the records with the id; the rest as for UpdateHero |
| DataProvider.DataStore.UpdateWarHero | src/context/DataProvider.tsx:95 | the same update for war heroes, under `data_warHeroes` |
| DataProvider.DataStore.AddWarHero | src/context/DataProvider.tsx:96 | the same add for war heroes |
| DataProvider.DataStore.DeleteWarHero | src/context/DataProvider.tsx:97 | the same delete for war heroes |
| DataProvider.DataStore.UpdatePlace | src/context/DataProvider.tsx:99 | the same update for places, under `data_places` |
| DataProvider.DataStore.AddPlace | src/context/DataProvider.tsx:100 | the same add for places |
| DataProvider.DataStore.DeletePlace | src/context/DataProvider.tsx:101 | the same delete for places |
| DataProvider.DataStore.UpdateQuizQuestion | src/context/DataProvider.tsx:103 | the same update for quiz questions, under `data_quiz` |
| DataProvider.DataStore.AddQuizQuestion | src/context/DataProvider.tsx:104 | the same add for quiz questions |
| DataProvider.DataStore.DeleteQuizQuestion | src/context/DataProvider.tsx:105 | the same delete for quiz questions |
| DataProvider.DataStore.UpdateEvent | src/context/DataProvider.tsx:107 | the same update for events, under `data_timeline` |
| DataProvider.DataStore.AddEvent | src/context/DataProvider.tsx:108 | the same add for events |
| DataProvider.DataStore.DeleteEvent | src/context/DataProvider.tsx:109 | the same delete for events |
| DataProvider.DataStore.ResetData | src/context/DataProvider.tsx:112-123 | all five collections become the built-in content and all five keys are written with it, initialised or not |
| FileServer.FileNameInjective | server/server.js:26 | two names never map to the same `<name>.json` file |
| FileServer.WithEmptyFilesAt | server/server.js:19-21 | the seed files hold `[]` and every other file is untouched |
| FileServer.DataServer.constructor | server/server.js:16-22 | a missing directory is created holding the three seed files with `[]`; an existing one is left as it is |
| FileServer.FreshDirectory | server/server.js:16-22 | a fresh directory holds exactly the three seed files, and every name reads as `[]` |
| FileServer.DataServer.Get | server/server.js:25-39 | the reply is the parsed file, or `[]` when the file is missing or does not parse |
| FileServer.ParsedIsServed | server/server.js:29-32 | a file that parses is served as its value |
| FileServer.UnparsableIsEmpty | server/server.js:33-35 | a file that does not parse is served as `[]` |
| FileServer.MissingIsEmpty | server/server.js:36-38 | a missing file is served as `[]` |
| FileServer.DataServer.Post | server/server.js:42-49 | the file is overwritten with the indented text of the whole body, nothing else changes, and the reply is `{success: true}` |
| FileServer.PostThenGet | server/server.js:47 | a GET after a POST of the same name returns exactly the posted value |
| FileServer.PostLeavesOthers | server/server.js:43-47 | a POST to one name leaves what every other name reads unchanged |
| Auth.Restored | src/context/AuthProvider.tsx:20-21 | the stored session counts only when the entry is exactly `true` |
| Auth.AcceptsExactly | src/context/AuthProvider.tsx:13-14 | only `admin` / `admin123` is accepted |
| Auth.RestoreAfterLoginAndLogout | src/context/AuthProvider.tsx:28-38 | after a login the restore finds the session, after a logout it does not |
| Auth.DataKeysAreNotAuthKey | src/context/AuthProvider.tsx:20 | no content key is the login key |
| Auth.SavingKeepsSession | src/context/AuthProvider.tsx:19-24 | saving content never changes what the login restore finds |
| Auth.AuthSession.constructor | src/context/AuthProvider.tsx:17 | a new session is logged out |
| Auth.AuthSession.Mount | src/context/AuthProvider.tsx:19-24 | the flag is set when the stored entry is exactly `true`, and left alone otherwise |
| Auth.AuthSession.Login | src/context/AuthProvider.tsx:26-33 | true exactly for the admin pair (username defaulting to `admin`); success sets the flag and stores `true`, failure changes nothing |
| Auth.AuthSession.Logout | src/context/AuthProvider.tsx:35-38 | clears the flag and removes exactly the login entry |
| Auth.LogoutThenReload | src/context/AuthProvider.tsx:17-38 | a logout followed by a fresh mount is logged out |
| QuizPage.CountCorrect | src/pages/QuizPage.tsx:61-63 | the score counts at most one point per answer |
| QuizPage.CountCorrectSnoc | src/pages/QuizPage.tsx:61-63 | one more answer adds a point exactly when it is the correct option |
| QuizPage.AllCorrect | src/pages/QuizPage.tsx:211 | full marks exactly when every answer is correct |
| QuizPage.CelebratesUnlessEncouraged | src/pages/QuizPage.tsx:211-213 | perfect exactly for full marks; the confetti trigger `score > n / 2` (line 32) fires exactly when the message is not the encouragement |
| QuizPage.ScreenFor | src/pages/QuizPage.tsx:20-26 | with no questions only the loading placeholder is shown; the result card only when completed |
| QuizPage.QuizRunner.constructor | src/pages/QuizPage.tsx:13-17 | first question, score 0, nothing selected, not completed |
| QuizPage.QuizRunner.AnswerClick | src/pages/QuizPage.tsx:55-64 | a second click changes nothing; a first click records the answer, shows the explanation and scores it exactly when correct |
| QuizPage.QuizRunner.NextQuestion | src/pages/QuizPage.tsx:66-74 | offered only after an answer (lines 180-188): advances and clears before the last question, completes on it |
| QuizPage.QuizRunner.Restart | src/pages/QuizPage.tsx:76-82 | back to question 0, score 0, nothing selected, not completed |
| QuizPage.QuizRunner.ScoreBound | src/pages/QuizPage.tsx:55-74 | the score never exceeds the answers given, nor the question count |
| YearText.FirstRun | src/pages/TimelinePage.tsx:10 | finds the leftmost position where three digits start, or none |
| YearText.RunLength | src/pages/TimelinePage.tsx:10 | `\d{3,4}` takes three digits, or four when a fourth follows |
| YearText.GetYear | src/pages/TimelinePage.tsx:9-12 | the year is always in 0..9999 |
| YearText.NoRunIsZero | src/pages/TimelinePage.tsx:11 | text with no run of three digits gives 0 |
| YearText.LeftmostRun | src/pages/TimelinePage.tsx:10-11 | otherwise the year is the value of the leftmost run |
| YearText.RangeGivesFirstYear | src/pages/TimelinePage.tsx:10-11 | "1500-1560" gives 1500 |
| TimelinePage.Entries | src/pages/TimelinePage.tsx:19-47 | one entry per hero, war hero and event |
| TimelinePage.EntryOfHero | src/pages/TimelinePage.tsx:20-28 | a hero entry keeps the hero's id and image, takes its year from `getYear(years)`, its title from the name, its description from the title and its date text from the years |
| TimelinePage.EntryOfWarHero | src/pages/TimelinePage.tsx:29-37 | the same for war-hero entries: id, image, year, title, description and date text |
| TimelinePage.EntryOfEvent | src/pages/TimelinePage.tsx:38-46 | an event entry keeps the event's id, year, title, description and image, and its date text is that year in decimal |
| TimelinePage.Timeline | src/pages/TimelinePage.tsx:49 | the timeline is sorted by year and is a permutation of the merged entries |
| TimelinePage.TimelineStable | src/pages/TimelinePage.tsx:49 | entries of one year keep their merged order |
| Sorting.SortBy | src/pages/TimelinePage.tsx:49 | the stable sort used for `sort((a, b) => key(a) - key(b))`: sorted, same length, same multiset |
| Sorting.SortByStable | src/pages/TimelinePage.tsx:49 | records with equal keys keep their relative order |
| HeroesGallery.SortedHeroes | src/components/heroes-gallery.tsx:19-21 | the heroes, sorted by birth year, as a permutation |
| HeroesGallery.SortedHeroesStable | src/components/heroes-gallery.tsx:20 | heroes of the same birth year keep their collection order |
| HeroesGallery.FilteredHeroes | src/components/heroes-gallery.tsx:23-25 | the filtered list is still sorted by birth year |
| HeroesGallery.FilteredMembership | src/components/heroes-gallery.tsx:24 | "all" gives the sorted list; a period gives exactly the heroes of that period |
| HeroesGallery.FilteredCount | src/components/heroes-gallery.tsx:24 | a period shows each of its heroes as often as the collection holds it, and no other hero |
| WarHeroesGallery.SortedWarHeroes | src/components/war-heroes-gallery.tsx:17-19 | the war heroes, sorted by birth year, as a permutation |
| WarHeroesGallery.SortedWarHeroesStable | src/components/war-heroes-gallery.tsx:18 | war heroes of the same birth year keep their order |
| Header.SearchResults | src/components/header.tsx:20-24 | nothing for a query of at most two characters; otherwise the first `min(5, n)` of the matches, in order |
| Header.HeroHitIff | src/components/header.tsx:21 | a hero is a match exactly when it is in the collection and its lowercased name contains the lowercased query |
| Header.WarHeroHitIff | src/components/header.tsx:22 | the same for war heroes |
| Header.PlaceHitIff | src/components/header.tsx:23 | the same for places |
| Header.MatchesOrdered | src/components/header.tsx:20-23 | heroes come before war heroes, which come before places |
| Header.IsActiveCases | src/components/header.tsx:49-52 | `/` is active only on `/`; an anchor link also when its hash is current; any other link only on its own page |
| Header.AnchorTarget | src/components/header.tsx:26-30 | an anchor click scrolls only for `/#…` links on the home page, to the id after `/#` |
| Text.ContainsIff | src/components/header.tsx:21 | `includes` holds exactly when the needle occurs at some position |
| Text.IntToDecimal | src/pages/TimelinePage.tsx:45 | `toString` of an integer: the decimal digits of its value without a leading zero, after a `-` when negative |
| ContentEditor.WarHeroesPathWins | src/pages/admin/ContentEditor.tsx:45-46 | a war-heroes path also contains "heroes", and still selects war heroes |
| ContentEditor.CategoryCases | src/pages/admin/ContentEditor.tsx:44-48 | a heroes path selects heroes, a places path places, and any other path keeps the category |
| ContentEditor.Rows | src/pages/admin/ContentEditor.tsx:50-56 | `getData` is exactly the current category's collection: the same records, in the same order, each of that category |
| ContentEditor.EditsStayInCategory | src/pages/admin/ContentEditor.tsx:68-123 | saving and deleting change the current category's collection only |
| ContentEditor.EditKeepsIds | src/pages/admin/ContentEditor.tsx:90-122 | for heroes, war heroes and places alike an edit keeps the ids of the collection in order, replaces the record with the edited id by the built record and leaves every other record as it was |
| ContentEditor.Built | src/pages/admin/ContentEditor.tsx:90-116 | the record built for a category belongs to it and carries the given id; only a hero record gets the form's period, and a place record stores the form's image as `imageUrl` with every other place field from the form |
| ContentEditor.BuildPlace | src/pages/admin/ContentEditor.tsx:91-101 | every place field comes from the form, the image field going to `imageUrl` |
| ContentEditor.BuildHero | src/pages/admin/ContentEditor.tsx:106-116 | every hero field comes from the form, the period included |
| ContentEditor.BuildWarHero | src/pages/admin/ContentEditor.tsx:106-113 | a war hero takes the common fields, years and title from the form |
| ContentEditor.AddThenDelete | src/pages/admin/ContentEditor.tsx:92-121 | an add appends one record with the clock as id, and deleting that id undoes it |
| ContentEditor.ContentEditor.constructor | src/pages/admin/ContentEditor.tsx:39-41 | starts on heroes with the dialog closed |
| ContentEditor.ContentEditor.OnPathChange | src/pages/admin/ContentEditor.tsx:44-48 | the category becomes the one the path selects |
| ContentEditor.ContentEditor.HandleEdit | src/pages/admin/ContentEditor.tsx:58-61 | opens the dialog on the item |
| ContentEditor.ContentEditor.HandleAdd | src/pages/admin/ContentEditor.tsx:63-66 | opens an empty dialog |
| ContentEditor.ContentEditor.HandleDelete | src/pages/admin/ContentEditor.tsx:68-76 | deletes from the current category only when confirmed |
| ContentEditor.ContentEditor.HandleSave | src/pages/admin/ContentEditor.tsx:78-125 | builds the record (period only for heroes, image as `imageUrl` for places), updates or adds it in the current category, closes the dialog |
| QuizEditor.BuildQuestion | src/pages/admin/QuizEditor.tsx:58-72 | the question keeps its id, text and explanation, its four options in form order and the chosen answer; no image exactly when the field is empty |
| QuizEditor.DefaultCorrectAnswer | src/pages/admin/QuizEditor.tsx:187 | the select starts on the edited question's answer, or on option 0 when adding |
| QuizEditor.SaveKeepsId | src/pages/admin/QuizEditor.tsx:66-78 | editing keeps every id; adding appends one question with the clock as id |
| QuizEditor.SaveKeepsWellFormed | src/pages/admin/QuizEditor.tsx:53-80 | a save keeps every question at four options with a valid answer |
| QuizEditor.DeleteKeepsWellFormed | src/pages/admin/QuizEditor.tsx:47-51 | a delete keeps the quiz well formed |
| QuizEditor.SeedWellFormed | src/data/initialData.ts:10-31 | the built-in quiz is well formed, so a quiz edited only in the editor stays so |
| QuizEditor.QuizEditor.constructor | src/pages/admin/QuizEditor.tsx:34-35 | the dialog starts closed |
| QuizEditor.QuizEditor.HandleEdit | src/pages/admin/QuizEditor.tsx:37-40 | opens the dialog on the question |
| QuizEditor.QuizEditor.HandleAdd | src/pages/admin/QuizEditor.tsx:42-45 | opens an empty dialog |
| QuizEditor.QuizEditor.HandleDelete | src/pages/admin/QuizEditor.tsx:47-51 | deletes the question only when confirmed |
| QuizEditor.QuizEditor.HandleSave | src/pages/admin/QuizEditor.tsx:53-80 | updates the edited question or adds a new one, then closes the dialog |
| TimelineEditor.SortedEvents | src/pages/admin/TimelineEditor.tsx:30 | the display list is the events sorted by year, as a permutation |
| TimelineEditor.SortedEventsStable | src/pages/admin/TimelineEditor.tsx:30 | events of the same year keep their order |
| TimelineEditor.BuildEvent | src/pages/admin/TimelineEditor.tsx:53-59 | the event gets the chosen id, the year, title and description from the form, and the image field's text, with no image exactly when the field is empty |
| TimelineEditor.SaveEventIds | src/pages/admin/TimelineEditor.tsx:54-65 | editing keeps every id; adding appends one event with the clock as id, and deleting that id undoes it |
| TimelineEditor.TimelineEditor.constructor | src/pages/admin/TimelineEditor.tsx:26-27 | the dialog starts closed |
| TimelineEditor.TimelineEditor.HandleEdit | src/pages/admin/TimelineEditor.tsx:32-35 | opens the dialog on the event |
| TimelineEditor.TimelineEditor.HandleAdd | src/pages/admin/TimelineEditor.tsx:37-40 | opens an empty dialog |
| TimelineEditor.TimelineEditor.HandleDelete | src/pages/admin/TimelineEditor.tsx:42-46 | deletes the event only when confirmed |
| TimelineEditor.TimelineEditor.HandleSave | src/pages/admin/TimelineEditor.tsx:48-67 | updates the edited event or adds a new one, then closes the dialog |

## Left out

- **Rendering.** JSX, styling, animation, the progress bars and the confetti particles are
  left out. Only the confetti trigger `2 * score > n` is kept.
- **Floating point.** Coordinates, years and answer indices are integers. The JSON model has
  integer numbers only. Text holding a fraction or an exponent (`[1.5]`, `1e3`) counts as
  unparsable, although `JSON.parse` accepts it. A stored collection with such a number makes
  the load fall back to the built-in content for all five collections, and a file with such
  a number is served as `[]`. Integers are unbounded, while JavaScript numbers lose integer
  precision above 2^53 and print in exponent form from 10^21; `Date.now()` ids and years
  stay far below both.
- **Lone surrogates.** `JSON.parse` accepts a `\uXXXX` surrogate escape without its partner.
  A Dafny character cannot hold one, so such text counts as unparsable here. A correctly
  paired high and low surrogate decodes to its one character.
- **Key order of stored text.** The printer writes an object's fields in the order of the record
  type. The editors build records in their own order: heroes as id, name, description,
  image, years, title, period, and places as id, name, description, imageUrl, location, url,
  x, y, type. After an admin save, the text the program stores can differ from `Serialize`
  in key order. It never differs in the value it decodes to: `Codec.EditorHeroDecodes`,
  `Codec.EditorWarHeroDecodes` and `Codec.EditorPlaceDecodes` prove that an object in the
  editor's order decodes to the same record.
- **Clock, dialogs and forms.** `Date.now()`, `confirm()` and reading the form are
  parameters. `Number(...)` on a form field is an integer already read. The `type` and
  `period` fields are already parsed values.
- **Case folding.** `toLowerCase` is the parameter `lower`. Nothing is required of it
  beyond being a function.
- **JavaScript string length.** Lengths count Unicode UTF-16 code units in JavaScript and
  characters here; the query-length test uses Dafny lengths.
- **Decoding checks shapes.** The source casts `JSON.parse`'s result, so a stored value of
  the wrong shape would be installed as it is. Here, a value that does not decode to the
  record type is treated like a parse failure, and all five collections fall back.
- **Duplicate JSON keys.** The last occurrence wins, as in `JSON.parse`.
- **Store operations take an id.** `update`/`delete` take the old record's id rather than
  the record. The source reads only `.id` from it.
- **Context hooks.** The `useData` / `useAuth` hooks and their errors outside a provider.
- **Server plumbing.** express, cors, body parsing and `fs` are left out, and so are the
  storage directory path and path traversal through the name. The file system is a map
  from file name to text, keyed by the bare `name + ".json"`. The server joins the name
  with `path.join`, which normalises it, so `a/../heroes` and `heroes` name the same file.
  `FileServer.FileNameInjective` and `FileServer.PostLeavesOthers` therefore hold for the
  program only for names that normalisation leaves unchanged.
- **React scheduling.** The save watchers are modelled as running in order after each
  change, once per change. React's batching and effect scheduling are not modelled. In
  `QuizPage` the confetti hook after the early return is not modelled either.
- Auth.AuthSession.Login: a `setItem` that throws during login is not modelled, so a
  successful login always stores `true`.
- **`events || []` in the timeline editor.** `events` is always a sequence here, so the
  guard has nothing to do.
- QuizEditor.DefaultCorrectAnswer: for an out-of-range stored answer the browser shows
  option 0. The model says so but states nothing more about it.
- **Anchor click.** The DOM lookup, the smooth scroll and closing the menu are left out.
  Only the target id and the home-page condition are modelled.
- **Header toggles.** The menu and search toggles are UI state.
- **Quiz question list.** It is fixed for one `QuizRunner`. A change to the quiz while the
  page is open is not modelled.
- **Copies and mutation.** Sorting a spread copy, and mutating `heroData` before dispatch,
  are modelled as pure functions on values. No collection is ever changed in place, so no
  aliasing arises.
- **Admin area.** The dashboard export, routing, the protected-route redirect and the map
  drawing are left out.
