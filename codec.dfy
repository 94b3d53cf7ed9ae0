/**
 * Records as JSON objects and collections as JSON arrays: what `JSON.stringify(collection)`
 * writes and what `JSON.parse(text)` gives back. The object members follow the field order
 * of the records; an absent `image` is left out of the object, as `JSON.stringify` drops
 * `undefined` members. Decoding reads each field by key (the last duplicate wins, as in
 * `JSON.parse`) and fails when the text is not an array of records of the expected shape.
 */
module Codec {
  import opened Wrappers
  import opened Seqs
  import opened Json
  import opened Types

  // ---------------------------------------------------------------- enumerations

  function PeriodName(p: Period): string {
    match p
    case Early => "early"
    case Modern => "modern"
  }

  function PeriodFromName(s: string): (r: Option<Period>)
    ensures r.Some? <==> s == "early" || s == "modern"
    ensures r.Some? ==> PeriodName(r.value) == s
  {
    if s == "early" then Some(Early) else if s == "modern" then Some(Modern) else None
  }

  function PlaceTypeName(t: PlaceType): string {
    match t
    case Castle => "castle"
    case Memorial => "memorial"
    case Religious => "religious"
    case Historical => "historical"
  }

  function PlaceTypeFromName(s: string): (r: Option<PlaceType>)
    ensures r.Some? <==> s == "castle" || s == "memorial" || s == "religious" || s == "historical"
    ensures r.Some? ==> PlaceTypeName(r.value) == s
  {
    if s == "castle" then Some(Castle)
    else if s == "memorial" then Some(Memorial)
    else if s == "religious" then Some(Religious)
    else if s == "historical" then Some(Historical)
    else None
  }

  /** Every period and every place type is written under a name that reads back as itself. */
  lemma NamesRoundTrip(p: Period, t: PlaceType)
    ensures PeriodFromName(PeriodName(p)) == Some(p)
    ensures PlaceTypeFromName(PlaceTypeName(t)) == Some(t)
  {
  }

  // ---------------------------------------------------------------- fields by key

  /** The value of the last member named `k`, as `JSON.parse` keeps the last duplicate key. */
  function Lookup(ms: seq<Member>, k: string): (r: Option<Json>) {
    if |ms| == 0 then None
    else if ms[|ms| - 1].key == k then Some(ms[|ms| - 1].value)
    else Lookup(ms[..|ms| - 1], k)
  }

  /** The member at `i` is the one found when no later member has its key. */
  lemma {:induction false} LookupAt(ms: seq<Member>, k: string, i: int)
    requires 0 <= i < |ms| && ms[i].key == k
    requires forall j :: i < j < |ms| ==> ms[j].key != k
    ensures Lookup(ms, k) == Some(ms[i].value)
  {
    if i < |ms| - 1 {
      LookupAt(ms[..|ms| - 1], k, i);
    }
  }

  /** No member named `k`: nothing is found. */
  lemma {:induction false} LookupAbsent(ms: seq<Member>, k: string)
    requires forall j :: 0 <= j < |ms| ==> ms[j].key != k
    ensures Lookup(ms, k) == None
  {
    if |ms| > 0 {
      LookupAbsent(ms[..|ms| - 1], k);
    }
  }

  /** The objects this codec writes never repeat a key. */
  ghost predicate DistinctKeys(ms: seq<Member>) {
    forall a, b :: 0 <= a < b < |ms| ==> ms[a].key != ms[b].key
  }

  /** With distinct keys, each member is found by its own key. */
  lemma FieldAt(ms: seq<Member>, i: int, k: string, v: Json)
    requires 0 <= i < |ms| && DistinctKeys(ms) && ms[i] == Member(k, v)
    ensures Lookup(ms, k) == Some(v)
  {
    LookupAt(ms, k, i);
  }

  function GetString(ms: seq<Member>, k: string): Option<string> {
    match Lookup(ms, k)
    case Some(JString(s)) => Some(s)
    case _ => None
  }

  function GetInt(ms: seq<Member>, k: string): Option<int> {
    match Lookup(ms, k)
    case Some(JInt(n)) => Some(n)
    case _ => None
  }

  /** An optional string field: absent gives `Some(None)`, a non-string value fails. */
  function GetOptString(ms: seq<Member>, k: string): Option<Option<string>> {
    match Lookup(ms, k)
    case None => Some(None)
    case Some(JString(s)) => Some(Some(s))
    case Some(_) => None
  }

  function StringJson(s: string): Json {
    JString(s)
  }

  /** The strings of an array whose items are all strings. */
  function Strings(items: seq<Json>): (r: Option<seq<string>>)
    ensures r.Some? ==> |r.value| == |items|
  {
    if |items| == 0 then Some([])
    else match items[0]
      case JString(s) =>
        (match Strings(items[1..])
         case Some(rest) => Some([s] + rest)
         case None => None)
      case _ => None
  }

  lemma {:induction false} StringsRoundTrip(ss: seq<string>)
    ensures Strings(Map(ss, StringJson)) == Some(ss)
  {
    if |ss| > 0 {
      assert Map(ss, StringJson)[1..] == Map(ss[1..], StringJson);
      StringsRoundTrip(ss[1..]);
      ConsSplit(ss);
    }
  }

  function GetStrings(ms: seq<Member>, k: string): Option<seq<string>> {
    match Lookup(ms, k)
    case Some(JArray(items)) => Strings(items)
    case _ => None
  }

  /** An absent image leaves the member out. */
  function ImageMember(image: Option<string>): seq<Member> {
    match image
    case None => []
    case Some(s) => [Member("image", JString(s))]
  }

  // ---------------------------------------------------------------- records

  function HeroToJson(h: Hero): Json {
    JObject([
      Member("id", JString(h.id)),
      Member("name", JString(h.name)),
      Member("years", JString(h.years)),
      Member("title", JString(h.title)),
      Member("description", JString(h.description)),
      Member("image", JString(h.image)),
      Member("period", JString(PeriodName(h.period)))])
  }

  function HeroFromJson(v: Json): Option<Hero> {
    if !v.JObject? then None
    else
      var ms := v.members;
      var id :- GetString(ms, "id");
      var name :- GetString(ms, "name");
      var years :- GetString(ms, "years");
      var title :- GetString(ms, "title");
      var description :- GetString(ms, "description");
      var image :- GetString(ms, "image");
      var periodName :- GetString(ms, "period");
      var period :- PeriodFromName(periodName);
      Some(Hero(id, name, years, title, description, image, period))
  }

  lemma HeroKeys(h: Hero)
    ensures DistinctKeys(HeroToJson(h).members)
  {
  }

  lemma HeroFields(h: Hero)
    ensures GetString(HeroToJson(h).members, "id") == Some(h.id)
    ensures GetString(HeroToJson(h).members, "name") == Some(h.name)
    ensures GetString(HeroToJson(h).members, "years") == Some(h.years)
    ensures GetString(HeroToJson(h).members, "title") == Some(h.title)
    ensures GetString(HeroToJson(h).members, "description") == Some(h.description)
    ensures GetString(HeroToJson(h).members, "image") == Some(h.image)
    ensures GetString(HeroToJson(h).members, "period") == Some(PeriodName(h.period))
  {
    var ms := HeroToJson(h).members;
    assert GetString(ms, "id") == Some(h.id) by { HeroKeys(h); FieldAt(ms, 0, "id", JString(h.id)); }
    assert GetString(ms, "name") == Some(h.name) by { HeroKeys(h); FieldAt(ms, 1, "name", JString(h.name)); }
    assert GetString(ms, "years") == Some(h.years) by { HeroKeys(h); FieldAt(ms, 2, "years", JString(h.years)); }
    assert GetString(ms, "title") == Some(h.title) by { HeroKeys(h); FieldAt(ms, 3, "title", JString(h.title)); }
    assert GetString(ms, "description") == Some(h.description) by { HeroKeys(h); FieldAt(ms, 4, "description", JString(h.description)); }
    assert GetString(ms, "image") == Some(h.image) by { HeroKeys(h); FieldAt(ms, 5, "image", JString(h.image)); }
    assert GetString(ms, "period") == Some(PeriodName(h.period)) by { HeroKeys(h); FieldAt(ms, 6, "period", JString(PeriodName(h.period))); }
  }

  lemma HeroRoundTrip(h: Hero)
    ensures HeroFromJson(HeroToJson(h)) == Some(h)
  {
    HeroFields(h);
    NamesRoundTrip(h.period, Castle);
  }



  function WarHeroToJson(w: WarHero): Json {
    JObject([
      Member("id", JString(w.id)),
      Member("name", JString(w.name)),
      Member("years", JString(w.years)),
      Member("title", JString(w.title)),
      Member("description", JString(w.description)),
      Member("image", JString(w.image))])
  }

  function WarHeroFromJson(v: Json): Option<WarHero> {
    if !v.JObject? then None
    else
      var ms := v.members;
      var id :- GetString(ms, "id");
      var name :- GetString(ms, "name");
      var years :- GetString(ms, "years");
      var title :- GetString(ms, "title");
      var description :- GetString(ms, "description");
      var image :- GetString(ms, "image");
      Some(WarHero(id, name, years, title, description, image))
  }

  lemma WarHeroKeys(w: WarHero)
    ensures DistinctKeys(WarHeroToJson(w).members)
  {
  }

  lemma WarHeroFields(w: WarHero)
    ensures GetString(WarHeroToJson(w).members, "id") == Some(w.id)
    ensures GetString(WarHeroToJson(w).members, "name") == Some(w.name)
    ensures GetString(WarHeroToJson(w).members, "years") == Some(w.years)
    ensures GetString(WarHeroToJson(w).members, "title") == Some(w.title)
    ensures GetString(WarHeroToJson(w).members, "description") == Some(w.description)
    ensures GetString(WarHeroToJson(w).members, "image") == Some(w.image)
  {
    var ms := WarHeroToJson(w).members;
    assert GetString(ms, "id") == Some(w.id) by { WarHeroKeys(w); FieldAt(ms, 0, "id", JString(w.id)); }
    assert GetString(ms, "name") == Some(w.name) by { WarHeroKeys(w); FieldAt(ms, 1, "name", JString(w.name)); }
    assert GetString(ms, "years") == Some(w.years) by { WarHeroKeys(w); FieldAt(ms, 2, "years", JString(w.years)); }
    assert GetString(ms, "title") == Some(w.title) by { WarHeroKeys(w); FieldAt(ms, 3, "title", JString(w.title)); }
    assert GetString(ms, "description") == Some(w.description) by { WarHeroKeys(w); FieldAt(ms, 4, "description", JString(w.description)); }
    assert GetString(ms, "image") == Some(w.image) by { WarHeroKeys(w); FieldAt(ms, 5, "image", JString(w.image)); }
  }

  lemma WarHeroRoundTrip(w: WarHero)
    ensures WarHeroFromJson(WarHeroToJson(w)) == Some(w)
  {
    WarHeroFields(w);
  }



  function PlaceToJson(p: Place): Json {
    JObject([
      Member("id", JString(p.id)),
      Member("name", JString(p.name)),
      Member("description", JString(p.description)),
      Member("location", JString(p.location)),
      Member("url", JString(p.url)),
      Member("imageUrl", JString(p.imageUrl)),
      Member("x", JInt(p.x)),
      Member("y", JInt(p.y)),
      Member("type", JString(PlaceTypeName(p.placeType)))])
  }

  function PlaceFromJson(v: Json): Option<Place> {
    if !v.JObject? then None
    else
      var ms := v.members;
      var id :- GetString(ms, "id");
      var name :- GetString(ms, "name");
      var description :- GetString(ms, "description");
      var location :- GetString(ms, "location");
      var url :- GetString(ms, "url");
      var imageUrl :- GetString(ms, "imageUrl");
      var x :- GetInt(ms, "x");
      var y :- GetInt(ms, "y");
      var typeName :- GetString(ms, "type");
      var placeType :- PlaceTypeFromName(typeName);
      Some(Place(id, name, description, location, url, imageUrl, x, y, placeType))
  }

  lemma PlaceKeys(p: Place)
    ensures DistinctKeys(PlaceToJson(p).members)
  {
  }

  lemma PlaceTextFields(p: Place)
    ensures GetString(PlaceToJson(p).members, "id") == Some(p.id)
    ensures GetString(PlaceToJson(p).members, "name") == Some(p.name)
    ensures GetString(PlaceToJson(p).members, "description") == Some(p.description)
    ensures GetString(PlaceToJson(p).members, "location") == Some(p.location)
    ensures GetString(PlaceToJson(p).members, "url") == Some(p.url)
  {
    var ms := PlaceToJson(p).members;
    PlaceKeys(p);
    FieldAt(ms, 0, "id", JString(p.id));
    FieldAt(ms, 1, "name", JString(p.name));
    FieldAt(ms, 2, "description", JString(p.description));
    FieldAt(ms, 3, "location", JString(p.location));
    FieldAt(ms, 4, "url", JString(p.url));
  }

  lemma PlaceMapFields(p: Place)
    ensures GetString(PlaceToJson(p).members, "imageUrl") == Some(p.imageUrl)
    ensures GetInt(PlaceToJson(p).members, "x") == Some(p.x)
    ensures GetInt(PlaceToJson(p).members, "y") == Some(p.y)
    ensures GetString(PlaceToJson(p).members, "type") == Some(PlaceTypeName(p.placeType))
  {
    var ms := PlaceToJson(p).members;
    PlaceKeys(p);
    FieldAt(ms, 5, "imageUrl", JString(p.imageUrl));
    FieldAt(ms, 6, "x", JInt(p.x));
    FieldAt(ms, 7, "y", JInt(p.y));
    FieldAt(ms, 8, "type", JString(PlaceTypeName(p.placeType)));
  }


  lemma PlaceRoundTrip(p: Place)
    ensures PlaceFromJson(PlaceToJson(p)) == Some(p)
  {
    PlaceTextFields(p);
    PlaceMapFields(p);
    NamesRoundTrip(Early, p.placeType);
  }



  // ------------------------------------------------------- editor key order

  /** The object the hero editor builds, in its own key order: `period` is added last. */
  function EditorHeroJson(h: Hero): Json {
    JObject([
      Member("id", JString(h.id)),
      Member("name", JString(h.name)),
      Member("description", JString(h.description)),
      Member("image", JString(h.image)),
      Member("years", JString(h.years)),
      Member("title", JString(h.title)),
      Member("period", JString(PeriodName(h.period)))])
  }

  /** The object the war-hero editor builds, in its own key order. */
  function EditorWarHeroJson(w: WarHero): Json {
    JObject([
      Member("id", JString(w.id)),
      Member("name", JString(w.name)),
      Member("description", JString(w.description)),
      Member("image", JString(w.image)),
      Member("years", JString(w.years)),
      Member("title", JString(w.title))])
  }

  /** The object the place editor builds, in its own key order. */
  function EditorPlaceJson(p: Place): Json {
    JObject([
      Member("id", JString(p.id)),
      Member("name", JString(p.name)),
      Member("description", JString(p.description)),
      Member("imageUrl", JString(p.imageUrl)),
      Member("location", JString(p.location)),
      Member("url", JString(p.url)),
      Member("x", JInt(p.x)),
      Member("y", JInt(p.y)),
      Member("type", JString(PlaceTypeName(p.placeType)))])
  }

  lemma EditorHeroFields(h: Hero)
    ensures var ms := EditorHeroJson(h).members;
      && GetString(ms, "id") == Some(h.id) && GetString(ms, "name") == Some(h.name)
      && GetString(ms, "description") == Some(h.description) && GetString(ms, "image") == Some(h.image)
      && GetString(ms, "years") == Some(h.years) && GetString(ms, "title") == Some(h.title)
      && GetString(ms, "period") == Some(PeriodName(h.period))
  {
    var ms := EditorHeroJson(h).members;
    assert DistinctKeys(ms);
    FieldAt(ms, 0, "id", JString(h.id));
    FieldAt(ms, 1, "name", JString(h.name));
    FieldAt(ms, 2, "description", JString(h.description));
    FieldAt(ms, 3, "image", JString(h.image));
    FieldAt(ms, 4, "years", JString(h.years));
    FieldAt(ms, 5, "title", JString(h.title));
    FieldAt(ms, 6, "period", JString(PeriodName(h.period)));
  }

  /** A hero written in the editor's key order decodes to the same hero. */
  lemma EditorHeroDecodes(h: Hero)
    ensures HeroFromJson(EditorHeroJson(h)) == Some(h)
  {
    EditorHeroFields(h);
    NamesRoundTrip(h.period, Castle);
  }

  lemma EditorWarHeroFields(w: WarHero)
    ensures var ms := EditorWarHeroJson(w).members;
      && GetString(ms, "id") == Some(w.id) && GetString(ms, "name") == Some(w.name)
      && GetString(ms, "description") == Some(w.description) && GetString(ms, "image") == Some(w.image)
      && GetString(ms, "years") == Some(w.years) && GetString(ms, "title") == Some(w.title)
  {
    var ms := EditorWarHeroJson(w).members;
    assert DistinctKeys(ms);
    FieldAt(ms, 0, "id", JString(w.id));
    FieldAt(ms, 1, "name", JString(w.name));
    FieldAt(ms, 2, "description", JString(w.description));
    FieldAt(ms, 3, "image", JString(w.image));
    FieldAt(ms, 4, "years", JString(w.years));
    FieldAt(ms, 5, "title", JString(w.title));
  }

  /** A war hero written in the editor's key order decodes to the same war hero. */
  lemma EditorWarHeroDecodes(w: WarHero)
    ensures WarHeroFromJson(EditorWarHeroJson(w)) == Some(w)
  {
    EditorWarHeroFields(w);
  }

  lemma EditorPlaceTextFields(p: Place)
    ensures var ms := EditorPlaceJson(p).members;
      && GetString(ms, "id") == Some(p.id) && GetString(ms, "name") == Some(p.name)
      && GetString(ms, "description") == Some(p.description) && GetString(ms, "imageUrl") == Some(p.imageUrl)
      && GetString(ms, "location") == Some(p.location)
  {
    var ms := EditorPlaceJson(p).members;
    assert DistinctKeys(ms);
    FieldAt(ms, 0, "id", JString(p.id));
    FieldAt(ms, 1, "name", JString(p.name));
    FieldAt(ms, 2, "description", JString(p.description));
    FieldAt(ms, 3, "imageUrl", JString(p.imageUrl));
    FieldAt(ms, 4, "location", JString(p.location));
  }

  lemma EditorPlaceMapFields(p: Place)
    ensures var ms := EditorPlaceJson(p).members;
      && GetString(ms, "url") == Some(p.url) && GetInt(ms, "x") == Some(p.x) && GetInt(ms, "y") == Some(p.y)
      && GetString(ms, "type") == Some(PlaceTypeName(p.placeType))
  {
    var ms := EditorPlaceJson(p).members;
    assert DistinctKeys(ms);
    FieldAt(ms, 5, "url", JString(p.url));
    FieldAt(ms, 6, "x", JInt(p.x));
    FieldAt(ms, 7, "y", JInt(p.y));
    FieldAt(ms, 8, "type", JString(PlaceTypeName(p.placeType)));
  }

  /** A place written in the editor's key order decodes to the same place. */
  lemma EditorPlaceDecodes(p: Place)
    ensures PlaceFromJson(EditorPlaceJson(p)) == Some(p)
  {
    EditorPlaceTextFields(p);
    EditorPlaceMapFields(p);
    NamesRoundTrip(Early, p.placeType);
  }

  function QuestionToJson(q: QuizQuestion): Json {
    JObject([
      Member("id", JInt(q.id)),
      Member("question", JString(q.question)),
      Member("options", JArray(Map(q.options, StringJson))),
      Member("correctAnswer", JInt(q.correctAnswer)),
      Member("explanation", JString(q.explanation))]
      + ImageMember(q.image))
  }

  function QuestionFromJson(v: Json): Option<QuizQuestion> {
    if !v.JObject? then None
    else
      var ms := v.members;
      var id :- GetInt(ms, "id");
      var question :- GetString(ms, "question");
      var options :- GetStrings(ms, "options");
      var correctAnswer :- GetInt(ms, "correctAnswer");
      var explanation :- GetString(ms, "explanation");
      var image :- GetOptString(ms, "image");
      Some(QuizQuestion(id, question, options, correctAnswer, explanation, image))
  }

  lemma QuestionKeys(q: QuizQuestion)
    ensures DistinctKeys(QuestionToJson(q).members)
  {
  }

  lemma QuestionFields(q: QuizQuestion)
    ensures GetInt(QuestionToJson(q).members, "id") == Some(q.id)
    ensures GetString(QuestionToJson(q).members, "question") == Some(q.question)
    ensures GetStrings(QuestionToJson(q).members, "options") == Some(q.options)
    ensures GetInt(QuestionToJson(q).members, "correctAnswer") == Some(q.correctAnswer)
    ensures GetString(QuestionToJson(q).members, "explanation") == Some(q.explanation)
    ensures GetOptString(QuestionToJson(q).members, "image") == Some(q.image)
  {
    var ms := QuestionToJson(q).members;
    assert GetInt(ms, "id") == Some(q.id) by { QuestionKeys(q); FieldAt(ms, 0, "id", JInt(q.id)); }
    assert GetString(ms, "question") == Some(q.question) by { QuestionKeys(q); FieldAt(ms, 1, "question", JString(q.question)); }
    assert GetStrings(ms, "options") == Some(q.options) by {
      QuestionKeys(q);
      FieldAt(ms, 2, "options", JArray(Map(q.options, StringJson)));
      StringsRoundTrip(q.options);
    }
    assert GetInt(ms, "correctAnswer") == Some(q.correctAnswer) by { QuestionKeys(q); FieldAt(ms, 3, "correctAnswer", JInt(q.correctAnswer)); }
    assert GetString(ms, "explanation") == Some(q.explanation) by { QuestionKeys(q); FieldAt(ms, 4, "explanation", JString(q.explanation)); }
    assert GetOptString(ms, "image") == Some(q.image) by {
      QuestionKeys(q);
      if q.image.Some? {
        FieldAt(ms, 5, "image", JString(q.image.value));
      } else {
        LookupAbsent(ms, "image");
      }
    }
  }

  lemma QuestionRoundTrip(q: QuizQuestion)
    ensures QuestionFromJson(QuestionToJson(q)) == Some(q)
  {
    QuestionFields(q);
  }



  function EventToJson(e: HistoricalEvent): Json {
    JObject([
      Member("id", JInt(e.id)),
      Member("title", JString(e.title)),
      Member("year", JInt(e.year)),
      Member("description", JString(e.description))]
      + ImageMember(e.image))
  }

  function EventFromJson(v: Json): Option<HistoricalEvent> {
    if !v.JObject? then None
    else
      var ms := v.members;
      var id :- GetInt(ms, "id");
      var title :- GetString(ms, "title");
      var year :- GetInt(ms, "year");
      var description :- GetString(ms, "description");
      var image :- GetOptString(ms, "image");
      Some(HistoricalEvent(id, title, year, description, image))
  }

  lemma EventKeys(e: HistoricalEvent)
    ensures DistinctKeys(EventToJson(e).members)
  {
  }

  lemma EventFields(e: HistoricalEvent)
    ensures GetInt(EventToJson(e).members, "id") == Some(e.id)
    ensures GetString(EventToJson(e).members, "title") == Some(e.title)
    ensures GetInt(EventToJson(e).members, "year") == Some(e.year)
    ensures GetString(EventToJson(e).members, "description") == Some(e.description)
    ensures GetOptString(EventToJson(e).members, "image") == Some(e.image)
  {
    var ms := EventToJson(e).members;
    assert GetInt(ms, "id") == Some(e.id) by { EventKeys(e); FieldAt(ms, 0, "id", JInt(e.id)); }
    assert GetString(ms, "title") == Some(e.title) by { EventKeys(e); FieldAt(ms, 1, "title", JString(e.title)); }
    assert GetInt(ms, "year") == Some(e.year) by { EventKeys(e); FieldAt(ms, 2, "year", JInt(e.year)); }
    assert GetString(ms, "description") == Some(e.description) by { EventKeys(e); FieldAt(ms, 3, "description", JString(e.description)); }
    assert GetOptString(ms, "image") == Some(e.image) by {
      EventKeys(e);
      if e.image.Some? {
        FieldAt(ms, 4, "image", JString(e.image.value));
      } else {
        LookupAbsent(ms, "image");
      }
    }
  }

  lemma EventRoundTrip(e: HistoricalEvent)
    ensures EventFromJson(EventToJson(e)) == Some(e)
  {
    EventFields(e);
  }



  // ---------------------------------------------------------------- collections

  /** Decodes every item, failing as soon as one item fails. */
  function DecodeItems<T>(items: seq<Json>, decode: Json -> Option<T>): (r: Option<seq<T>>)
    ensures r.Some? ==> |r.value| == |items|
  {
    if |items| == 0 then Some([])
    else match decode(items[0])
      case None => None
      case Some(x) =>
        (match DecodeItems(items[1..], decode)
         case Some(rest) => Some([x] + rest)
         case None => None)
  }

  lemma {:induction false} ItemsRoundTrip<T>(xs: seq<T>, encode: T -> Json, decode: Json -> Option<T>)
    requires forall x :: decode(encode(x)) == Some(x)
    ensures DecodeItems(Map(xs, encode), decode) == Some(xs)
  {
    if |xs| > 0 {
      assert Map(xs, encode)[1..] == Map(xs[1..], encode);
      ItemsRoundTrip(xs[1..], encode, decode);
      ConsSplit(xs);
    }
  }

  /** `JSON.stringify` of a collection, in the given layout. */
  function Encode<T>(xs: seq<T>, encode: T -> Json, layout: Layout): (t: string)
    ensures |t| >= 2 && t[0] == '['
    ensures |xs| == 0 ==> t == "[]"
  {
    Stringify(JArray(Map(xs, encode)), layout)
  }

  /** `JSON.parse` of a collection: fails unless the text is an array of well-shaped records. */
  function Decode<T>(t: string, decode: Json -> Option<T>): Option<seq<T>> {
    match Parse(t)
    case Some(JArray(items)) => DecodeItems(items, decode)
    case _ => None
  }

  lemma CollectionRoundTrip<T>(xs: seq<T>, encode: T -> Json, decode: Json -> Option<T>, layout: Layout)
    requires forall x :: decode(encode(x)) == Some(x)
    ensures Decode(Encode(xs, encode, layout), decode) == Some(xs)
  {
    RoundTrip(JArray(Map(xs, encode)), layout);
    ItemsRoundTrip(xs, encode, decode);
  }

  // ---------------------------------------------------------------- the five collections

  function EncodeHeroes(hs: seq<Hero>): (t: string) { Encode(hs, HeroToJson, Compact) }
  function DecodeHeroes(t: string): Option<seq<Hero>> { Decode(t, HeroFromJson) }
  function EncodeWarHeroes(ws: seq<WarHero>): (t: string) { Encode(ws, WarHeroToJson, Compact) }
  function DecodeWarHeroes(t: string): Option<seq<WarHero>> { Decode(t, WarHeroFromJson) }
  function EncodePlaces(ps: seq<Place>): (t: string) { Encode(ps, PlaceToJson, Compact) }
  function DecodePlaces(t: string): Option<seq<Place>> { Decode(t, PlaceFromJson) }
  function EncodeQuiz(qs: seq<QuizQuestion>): (t: string) { Encode(qs, QuestionToJson, Compact) }
  function DecodeQuiz(t: string): Option<seq<QuizQuestion>> { Decode(t, QuestionFromJson) }
  function EncodeEvents(es: seq<HistoricalEvent>): (t: string) { Encode(es, EventToJson, Compact) }
  function DecodeEvents(t: string): Option<seq<HistoricalEvent>> { Decode(t, EventFromJson) }

  /** What is written for each collection reads back as that collection. */
  lemma HeroesRoundTrip(hs: seq<Hero>)
    ensures DecodeHeroes(EncodeHeroes(hs)) == Some(hs)
  {
    forall h ensures HeroFromJson(HeroToJson(h)) == Some(h) {
      HeroRoundTrip(h);
    }
    CollectionRoundTrip(hs, HeroToJson, HeroFromJson, Compact);
  }

  lemma WarHeroesRoundTrip(ws: seq<WarHero>)
    ensures DecodeWarHeroes(EncodeWarHeroes(ws)) == Some(ws)
  {
    forall w ensures WarHeroFromJson(WarHeroToJson(w)) == Some(w) {
      WarHeroRoundTrip(w);
    }
    CollectionRoundTrip(ws, WarHeroToJson, WarHeroFromJson, Compact);
  }

  lemma PlacesRoundTrip(ps: seq<Place>)
    ensures DecodePlaces(EncodePlaces(ps)) == Some(ps)
  {
    forall p ensures PlaceFromJson(PlaceToJson(p)) == Some(p) {
      PlaceRoundTrip(p);
    }
    CollectionRoundTrip(ps, PlaceToJson, PlaceFromJson, Compact);
  }

  lemma QuizRoundTrip(qs: seq<QuizQuestion>)
    ensures DecodeQuiz(EncodeQuiz(qs)) == Some(qs)
  {
    forall q ensures QuestionFromJson(QuestionToJson(q)) == Some(q) {
      QuestionRoundTrip(q);
    }
    CollectionRoundTrip(qs, QuestionToJson, QuestionFromJson, Compact);
  }

  lemma EventsRoundTrip(es: seq<HistoricalEvent>)
    ensures DecodeEvents(EncodeEvents(es)) == Some(es)
  {
    forall e ensures EventFromJson(EventToJson(e)) == Some(e) {
      EventRoundTrip(e);
    }
    CollectionRoundTrip(es, EventToJson, EventFromJson, Compact);
  }
}
