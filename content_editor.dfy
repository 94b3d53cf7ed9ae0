/**
 * The admin editor for heroes, war heroes and places: the category follows the page path,
 * the table lists that category's collection, and the dialog saves a record built from the
 * form, either replacing the edited record (keeping its id) or appending a new one with an
 * id made from the clock. Deleting asks for confirmation first.
 */
module ContentEditor {
  import opened Wrappers
  import opened Types
  import opened Text
  import opened Seqs
  import opened Collections
  import opened DataProvider

  datatype Category = HeroesCategory | WarHeroesCategory | PlacesCategory

  /** The store collection behind each category. */
  function CollectionOf(c: Category): Collection {
    match c
    case HeroesCategory => HeroesData
    case WarHeroesCategory => WarHeroesData
    case PlacesCategory => PlacesData
  }

  /** The path effect: checked in the order war-heroes, heroes, places; no match keeps the current category. */
  function CategoryForPath(path: string, current: Category): Category {
    if Contains(path, "war-heroes") then WarHeroesCategory
    else if Contains(path, "heroes") then HeroesCategory
    else if Contains(path, "places") then PlacesCategory
    else current
  }

  /** A war-heroes path also contains "heroes", and still selects war heroes: the order of the tests matters. */
  lemma WarHeroesPathWins(path: string, current: Category)
    requires Contains(path, "war-heroes")
    ensures Contains(path, "heroes")
    ensures CategoryForPath(path, current) == WarHeroesCategory
  {
    ContainsSuffixOfNeedle(path, "war-heroes", 4);
    assert "war-heroes"[4..] == "heroes";
  }

  /** Each page path selects its own category, and a path naming none keeps the current one. */
  lemma CategoryCases(path: string, current: Category)
    ensures !Contains(path, "war-heroes") && Contains(path, "heroes") ==> CategoryForPath(path, current) == HeroesCategory
    ensures !Contains(path, "heroes") && Contains(path, "places") ==> CategoryForPath(path, current) == PlacesCategory
    ensures !Contains(path, "heroes") && !Contains(path, "places") ==> CategoryForPath(path, current) == current
  {
    if Contains(path, "war-heroes") {
      WarHeroesPathWins(path, current);
    }
  }

  /** A row of the table: a record of one of the three kinds. */
  datatype Item = HeroItem(hero: Hero) | WarHeroItem(warHero: WarHero) | PlaceItem(place: Place)

  function CategoryOf(item: Item): Category {
    match item
    case HeroItem(_) => HeroesCategory
    case WarHeroItem(_) => WarHeroesCategory
    case PlaceItem(_) => PlacesCategory
  }

  function ItemId(item: Item): string {
    match item
    case HeroItem(h) => h.id
    case WarHeroItem(w) => w.id
    case PlaceItem(p) => p.id
  }

  function AsHeroItem(h: Hero): Item { HeroItem(h) }
  function AsWarHeroItem(w: WarHero): Item { WarHeroItem(w) }
  function AsPlaceItem(p: Place): Item { PlaceItem(p) }

  /** `getData`: the collection of the current category, and nothing else. */
  function Rows(s: Snapshot, c: Category): (r: seq<Item>)
    ensures c == HeroesCategory ==> |r| == |s.heroes|
    ensures c == WarHeroesCategory ==> |r| == |s.warHeroes|
    ensures c == PlacesCategory ==> |r| == |s.places|
    ensures forall i :: 0 <= i < |r| ==> CategoryOf(r[i]) == c
    ensures c == HeroesCategory ==> forall i :: 0 <= i < |r| ==> r[i] == HeroItem(s.heroes[i])
    ensures c == WarHeroesCategory ==> forall i :: 0 <= i < |r| ==> r[i] == WarHeroItem(s.warHeroes[i])
    ensures c == PlacesCategory ==> forall i :: 0 <= i < |r| ==> r[i] == PlaceItem(s.places[i])
  {
    match c
    case HeroesCategory => Map(s.heroes, AsHeroItem)
    case WarHeroesCategory => Map(s.warHeroes, AsWarHeroItem)
    case PlacesCategory => Map(s.places, AsPlaceItem)
  }

  /** The dialog's fields, already read from the form (coordinates as integers). */
  datatype ContentForm = ContentForm(
    name: string,
    description: string,
    image: string,
    location: string,
    url: string,
    x: int,
    y: int,
    placeType: PlaceType,
    years: string,
    title: string,
    period: Period)

  /** The edited record's id, or `Date.now().toString()` for a new one. */
  function RecordId(editing: Option<Item>, now: nat): string {
    match editing
    case Some(item) => ItemId(item)
    case None => NatToDecimal(now)
  }

  /** A place stores the form's image field as `imageUrl`, and has no period. */
  function BuildPlace(f: ContentForm, id: string): (p: Place)
    ensures p.id == id && p.name == f.name && p.description == f.description
    ensures p.imageUrl == f.image && p.location == f.location && p.url == f.url
    ensures p.x == f.x && p.y == f.y && p.placeType == f.placeType
  {
    Place(id, f.name, f.description, f.location, f.url, f.image, f.x, f.y, f.placeType)
  }

  /** Only a hero gets the form's period. */
  function BuildHero(f: ContentForm, id: string): (h: Hero)
    ensures h.id == id && h.name == f.name && h.description == f.description && h.image == f.image
    ensures h.years == f.years && h.title == f.title && h.period == f.period
  {
    Hero(id, f.name, f.years, f.title, f.description, f.image, f.period)
  }

  /** A war hero takes the common fields, years and title; the period field is ignored. */
  function BuildWarHero(f: ContentForm, id: string): (w: WarHero)
    ensures w.id == id && w.name == f.name && w.description == f.description && w.image == f.image
    ensures w.years == f.years && w.title == f.title
  {
    WarHero(id, f.name, f.years, f.title, f.description, f.image)
  }

  /** `handleSave`: update the edited record's id in the category's collection, or append. */
  function SaveRecord(s: Snapshot, c: Category, editing: Option<Item>, f: ContentForm, now: nat): Snapshot {
    var id := RecordId(editing, now);
    match c
    case HeroesCategory =>
      if editing.Some? then s.(heroes := Update(s.heroes, HeroId, ItemId(editing.value), BuildHero(f, id)))
      else s.(heroes := Add(s.heroes, BuildHero(f, id)))
    case WarHeroesCategory =>
      if editing.Some? then s.(warHeroes := Update(s.warHeroes, WarHeroId, ItemId(editing.value), BuildWarHero(f, id)))
      else s.(warHeroes := Add(s.warHeroes, BuildWarHero(f, id)))
    case PlacesCategory =>
      if editing.Some? then s.(places := Update(s.places, PlaceId, ItemId(editing.value), BuildPlace(f, id)))
      else s.(places := Add(s.places, BuildPlace(f, id)))
  }

  /** `handleDelete` once confirmed: drop the item's id from the category's collection. */
  function RemoveRecord(s: Snapshot, c: Category, item: Item): Snapshot {
    match c
    case HeroesCategory => s.(heroes := Delete(s.heroes, HeroId, ItemId(item)))
    case WarHeroesCategory => s.(warHeroes := Delete(s.warHeroes, WarHeroId, ItemId(item)))
    case PlacesCategory => s.(places := Delete(s.places, PlaceId, ItemId(item)))
  }

  /** Saving and deleting touch the current category's collection only. */
  lemma EditsStayInCategory(s: Snapshot, c: Category, editing: Option<Item>, f: ContentForm, now: nat, item: Item)
    ensures SameExcept(s, SaveRecord(s, c, editing, f, now), CollectionOf(c))
    ensures SameExcept(s, RemoveRecord(s, c, item), CollectionOf(c))
  {
  }

  /** The row of category `c` that `handleSave` builds from the form, under `id`. */
  function Built(c: Category, f: ContentForm, id: string): (item: Item)
    ensures CategoryOf(item) == c && ItemId(item) == id
    ensures item.HeroItem? <==> c == HeroesCategory
    ensures c == HeroesCategory ==> item.hero.period == f.period && item.hero.image == f.image
    ensures c == WarHeroesCategory ==> item.warHero.image == f.image
    ensures c == PlacesCategory ==> item.place == Place(id, f.name, f.description, f.location, f.url, f.image, f.x, f.y, f.placeType)
  {
    match c
    case HeroesCategory => HeroItem(BuildHero(f, id))
    case WarHeroesCategory => WarHeroItem(BuildWarHero(f, id))
    case PlacesCategory => PlaceItem(BuildPlace(f, id))
  }

  /**
   * Editing keeps the edited id, in every category: the rows keep their ids, each row with
   * the edited id becomes the built record, and every other row stays as it was.
   */
  lemma EditKeepsIds(s: Snapshot, c: Category, item: Item, f: ContentForm, now: nat)
    ensures var t := SaveRecord(s, c, Some(item), f, now);
      && Map(Rows(t, c), ItemId) == Map(Rows(s, c), ItemId)
      && forall i :: 0 <= i < |Rows(s, c)| ==>
           Rows(t, c)[i] == if ItemId(Rows(s, c)[i]) == ItemId(item) then Built(c, f, ItemId(item)) else Rows(s, c)[i]
  {
    var t := SaveRecord(s, c, Some(item), f, now);
    var k := ItemId(item);
    forall i | 0 <= i < |Rows(s, c)|
      ensures Rows(t, c)[i] == if ItemId(Rows(s, c)[i]) == k then Built(c, f, k) else Rows(s, c)[i]
    {
      match c
      case HeroesCategory => UpdateAt(s.heroes, HeroId, k, BuildHero(f, k), i);
      case WarHeroesCategory => UpdateAt(s.warHeroes, WarHeroId, k, BuildWarHero(f, k), i);
      case PlacesCategory => UpdateAt(s.places, PlaceId, k, BuildPlace(f, k), i);
    }
    assert |Map(Rows(t, c), ItemId)| == |Map(Rows(s, c), ItemId)|;
    forall i | 0 <= i < |Rows(s, c)| ensures Map(Rows(t, c), ItemId)[i] == Map(Rows(s, c), ItemId)[i] {
    }
  }

  /** Adding appends one record whose id is the clock reading, and removing that id undoes it. */
  lemma AddThenDelete(s: Snapshot, c: Category, f: ContentForm, now: nat)
    ensures var t := SaveRecord(s, c, None, f, now);
      var added := Built(c, f, NatToDecimal(now));
      Rows(t, c) == Rows(s, c) + [added]
      && RemoveRecord(t, c, added) == RemoveRecord(s, c, added)
  {
    var id := NatToDecimal(now);
    match c
    case HeroesCategory =>
      DeleteAdded(s.heroes, HeroId, BuildHero(f, id));
      MapSnoc(s.heroes, AsHeroItem, BuildHero(f, id));
    case WarHeroesCategory =>
      DeleteAdded(s.warHeroes, WarHeroId, BuildWarHero(f, id));
      MapSnoc(s.warHeroes, AsWarHeroItem, BuildWarHero(f, id));
    case PlacesCategory =>
      DeleteAdded(s.places, PlaceId, BuildPlace(f, id));
      MapSnoc(s.places, AsPlaceItem, BuildPlace(f, id));
  }

  class ContentEditor {
    var category: Category
    var isDialogOpen: bool
    var editingItem: Option<Item>
    const store: DataStore

    /** The heroes category, no dialog, nothing being edited. */
    constructor (store: DataStore)
      ensures category == HeroesCategory && !isDialogOpen && editingItem == None
      ensures this.store == store
    {
      category := HeroesCategory;
      isDialogOpen := false;
      editingItem := None;
      this.store := store;
    }

    /** The effect run when the path changes. */
    method OnPathChange(path: string)
      modifies this
      ensures category == CategoryForPath(path, old(category))
      ensures isDialogOpen == old(isDialogOpen) && editingItem == old(editingItem)
    {
      if Contains(path, "war-heroes") {
        category := WarHeroesCategory;
      } else if Contains(path, "heroes") {
        category := HeroesCategory;
      } else if Contains(path, "places") {
        category := PlacesCategory;
      }
    }

    /** `handleEdit`: opens the dialog on `item`. */
    method HandleEdit(item: Item)
      modifies this
      ensures editingItem == Some(item) && isDialogOpen && category == old(category)
    {
      editingItem := Some(item);
      isDialogOpen := true;
    }

    /** `handleAdd`: opens an empty dialog. */
    method HandleAdd()
      modifies this
      ensures editingItem == None && isDialogOpen && category == old(category)
    {
      editingItem := None;
      isDialogOpen := true;
    }

    /** `handleDelete(item)`: deletes from the current category only when `confirmed`. */
    method HandleDelete(item: Item, confirmed: bool, refused: set<string>)
      modifies store, store.storage
      ensures store.Contents() == if confirmed then RemoveRecord(old(store.Contents()), category, item) else old(store.Contents())
      ensures store.initialized == old(store.initialized)
      ensures store.storage.entries ==
        if confirmed then store.Watched(old(store.storage.entries), CollectionOf(category), refused) else old(store.storage.entries)
    {
      if confirmed {
        match category
        case HeroesCategory => store.DeleteHero(ItemId(item), refused);
        case WarHeroesCategory => store.DeleteWarHero(ItemId(item), refused);
        case PlacesCategory => store.DeletePlace(ItemId(item), refused);
      }
    }

    /** `handleSave`: builds the record for the current category, updates or adds it, and closes the dialog. */
    method HandleSave(f: ContentForm, now: nat, refused: set<string>)
      modifies this, store, store.storage
      ensures store.Contents() == SaveRecord(old(store.Contents()), category, editingItem, f, now)
      ensures store.initialized == old(store.initialized)
      ensures store.storage.entries == store.Watched(old(store.storage.entries), CollectionOf(category), refused)
      ensures !isDialogOpen && category == old(category) && editingItem == old(editingItem)
    {
      var id := RecordId(editingItem, now);
      match category {
        case PlacesCategory =>
          var place := BuildPlace(f, id);
          if editingItem.Some? {
            store.UpdatePlace(ItemId(editingItem.value), place, refused);
          } else {
            store.AddPlace(place, refused);
          }
        case HeroesCategory =>
          var hero := BuildHero(f, id);
          if editingItem.Some? {
            store.UpdateHero(ItemId(editingItem.value), hero, refused);
          } else {
            store.AddHero(hero, refused);
          }
        case WarHeroesCategory =>
          var warHero := BuildWarHero(f, id);
          if editingItem.Some? {
            store.UpdateWarHero(ItemId(editingItem.value), warHero, refused);
          } else {
            store.AddWarHero(warHero, refused);
          }
      }
      isDialogOpen := false;
    }
  }
}
