/**
 * The admin editor for timeline events: the list shows a sorted copy of the events, and the
 * dialog saves an event built from the form, replacing the edited one (keeping its id) or
 * appending a new one whose id is the clock reading. Deleting asks for confirmation first.
 */
module TimelineEditor {
  import opened Wrappers
  import opened Types
  import opened Seqs
  import opened Sorting
  import opened Collections
  import opened DataProvider

  function EventYear(e: HistoricalEvent): int {
    e.year
  }

  /** `[...events].sort((a, b) => a.year - b.year)`: the same events, earliest first, equal years in list order. */
  function SortedEvents(events: seq<HistoricalEvent>): (r: seq<HistoricalEvent>)
    ensures |r| == |events|
    ensures multiset(r) == multiset(events)
    ensures SortedBy(r, EventYear)
  {
    SortBy(events, EventYear)
  }

  lemma SortedEventsStable(events: seq<HistoricalEvent>, year: int)
    ensures Filter(SortedEvents(events), HasKey(EventYear, year)) == Filter(events, HasKey(EventYear, year))
  {
    SortByStable(events, EventYear, year);
  }

  /** The dialog's fields, already read from the form (the year as an integer). */
  datatype EventForm = EventForm(title: string, year: int, description: string, image: string)

  /** The event `handleSave` builds: an empty image field means none. */
  function BuildEvent(f: EventForm, id: int): (e: HistoricalEvent)
    ensures e.id == id && e.year == f.year
    ensures e.title == f.title && e.description == f.description
    ensures e.image.None? <==> f.image == ""
    ensures e.image.Some? ==> e.image.value == f.image
  {
    HistoricalEvent(id, f.title, f.year, f.description, NonEmpty(f.image))
  }

  function EventIdFor(editing: Option<HistoricalEvent>, now: nat): int {
    match editing
    case Some(e) => e.id
    case None => now
  }

  /** `handleSave` on the events collection. */
  function SaveEvent(events: seq<HistoricalEvent>, editing: Option<HistoricalEvent>, f: EventForm, now: nat): seq<HistoricalEvent> {
    var e := BuildEvent(f, EventIdFor(editing, now));
    if editing.Some? then Update(events, EventId, editing.value.id, e) else Add(events, e)
  }

  /** Editing keeps every id; adding appends one event with the clock as id, and deleting that id undoes it. */
  lemma SaveEventIds(events: seq<HistoricalEvent>, editing: Option<HistoricalEvent>, f: EventForm, now: nat)
    ensures editing.Some? ==> Map(SaveEvent(events, editing, f, now), EventId) == Map(events, EventId)
    ensures editing.None? ==> (
      && SaveEvent(events, editing, f, now)[..|events|] == events
      && SaveEvent(events, editing, f, now)[|events|].id == now
      && Delete(SaveEvent(events, editing, f, now), EventId, now) == Delete(events, EventId, now))
  {
    var e := BuildEvent(f, EventIdFor(editing, now));
    if editing.Some? {
      UpdateKeepsIds(events, EventId, editing.value.id, e);
    } else {
      DeleteAdded(events, EventId, e);
    }
  }

  class TimelineEditor {
    var isDialogOpen: bool
    var editingItem: Option<HistoricalEvent>
    const store: DataStore

    constructor (store: DataStore)
      ensures !isDialogOpen && editingItem == None && this.store == store
    {
      isDialogOpen := false;
      editingItem := None;
      this.store := store;
    }

    method HandleEdit(item: HistoricalEvent)
      modifies this
      ensures editingItem == Some(item) && isDialogOpen
    {
      editingItem := Some(item);
      isDialogOpen := true;
    }

    method HandleAdd()
      modifies this
      ensures editingItem == None && isDialogOpen
    {
      editingItem := None;
      isDialogOpen := true;
    }

    /** `handleDelete(item)`: deletes only when `confirmed`. */
    method HandleDelete(item: HistoricalEvent, confirmed: bool, refused: set<string>)
      modifies store, store.storage
      ensures store.Contents() ==
        if confirmed then old(store.Contents()).(events := Delete(old(store.events), EventId, item.id)) else old(store.Contents())
      ensures store.initialized == old(store.initialized)
      ensures store.storage.entries ==
        if confirmed then store.Watched(old(store.storage.entries), TimelineData, refused) else old(store.storage.entries)
    {
      if confirmed {
        store.DeleteEvent(item.id, refused);
      }
    }

    /** `handleSave`: builds the event, updates or adds it, and closes the dialog. */
    method HandleSave(f: EventForm, now: nat, refused: set<string>)
      modifies this, store, store.storage
      ensures store.Contents() == old(store.Contents()).(events := SaveEvent(old(store.events), editingItem, f, now))
      ensures store.initialized == old(store.initialized)
      ensures store.storage.entries == store.Watched(old(store.storage.entries), TimelineData, refused)
      ensures !isDialogOpen && editingItem == old(editingItem)
    {
      var e := BuildEvent(f, EventIdFor(editingItem, now));
      if editingItem.Some? {
        store.UpdateEvent(editingItem.value.id, e, refused);
      } else {
        store.AddEvent(e, refused);
      }
      isDialogOpen := false;
    }
  }
}
