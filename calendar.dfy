/** The calendar store (src/lib/stores/calendar.ts): the event and
    time-block inserts with their defaults, the partial event update built from
    the update object's entries, the local removal done by delete, and the
    events of the selected day. Whether a start time falls on the selected day
    (date-fns `isSameDay(parseISO(...))`) is the predicate `onSelectedDay`;
    reading a table back is the `reloaded` parameter. */
module Calendar {
  import opened Common
  import opened Types
  import opened Sql

  // ---------------------------------------------------------------------
  // Inserts
  // ---------------------------------------------------------------------

  const EventInsertSql: string :=
    "INSERT INTO events (id, title, description, start_dt, end_dt, recurrence, all_day, color)\n"
    + "     VALUES ($1, $2, $3, $4, $5, $6, $7, $8)"

  const TimeBlockInsertSql: string :=
    "INSERT INTO time_blocks (id, title, start_dt, end_dt, todo_id, category, color)\n"
    + "     VALUES ($1, $2, $3, $4, $5, $6, $7)"

  const DefaultColor: string := "#58a6ff"

  /** The INSERT of `createEvent` for the fields of `event`. */
  function CreateEventStatement(id: string, event: Record): (st: Statement)
    ensures st.sql == EventInsertSql && |st.params| == 8
    ensures st.params[0] == Str(id) && st.params[1] == Get(event, "title") && st.params[3] == Get(event, "start_dt")
    ensures st.params[4] == Get(event, "end_dt") && st.params[5] == Get(event, "recurrence")
    ensures FallsBack(st.params[2], Get(event, "description"), Str(""))
    ensures st.params[6] == (if Truthy(Get(event, "all_day")) then Num(1) else Num(0))
    ensures FallsBack(st.params[7], Get(event, "color"), Str(DefaultColor))
  {
    Statement(EventInsertSql,
      [Str(id), Get(event, "title"), Or(Get(event, "description"), Str("")), Get(event, "start_dt"),
       Get(event, "end_dt"), Get(event, "recurrence"), TruthToNum(Get(event, "all_day")),
       Or(Get(event, "color"), Str(DefaultColor))])
  }

  /** The INSERT of `createTimeBlock` for the fields of `block`. */
  function CreateTimeBlockStatement(id: string, block: Record): (st: Statement)
    ensures st.sql == TimeBlockInsertSql && |st.params| == 7
    ensures st.params[0] == Str(id) && st.params[1] == Get(block, "title")
    ensures st.params[2] == Get(block, "start_dt") && st.params[3] == Get(block, "end_dt")
    ensures st.params[4] == Get(block, "todo_id")
    ensures FallsBack(st.params[5], Get(block, "category"), Str("deep_work"))
    ensures FallsBack(st.params[6], Get(block, "color"), Str(DefaultColor))
    ensures Truthy(st.params[5]) && Truthy(st.params[6])
  {
    Statement(TimeBlockInsertSql,
      [Str(id), Get(block, "title"), Get(block, "start_dt"), Get(block, "end_dt"), Get(block, "todo_id"),
       Or(Get(block, "category"), Str("deep_work")), Or(Get(block, "color"), Str(DefaultColor))])
  }

  // ---------------------------------------------------------------------
  // Partial update
  // ---------------------------------------------------------------------

  /** `Object.entries(updates)`: the keys present, in insertion order, with their
      values (an explicitly undefined value is still an entry). */
  type Entries = seq<(string, JsValue)>

  function Keys(entries: Entries): (ks: seq<string>)
    ensures |ks| == |entries| && forall k :: 0 <= k < |entries| ==> ks[k] == entries[k].0
  {
    seq(|entries|, k requires 0 <= k < |entries| => entries[k].0)
  }

  /** The parameter `updateEvent` passes for an entry: 1 or 0 for `all_day`, the value otherwise. */
  function EventParam(entry: (string, JsValue)): JsValue {
    if entry.0 == "all_day" then TruthToNum(entry.1) else entry.1
  }

  function EventParams(entries: Entries): (ps: seq<JsValue>)
    ensures |ps| == |entries| && forall k :: 0 <= k < |entries| ==> ps[k] == EventParam(entries[k])
  {
    seq(|entries|, k requires 0 <= k < |entries| => EventParam(entries[k]))
  }

  /** The entries `updateEvent` turns into assignments: every one but `id`. */
  function Settable(entries: Entries): Entries {
    Filter(entries, (e: (string, JsValue)) => e.0 != "id")
  }

  /** What `updateEvent` executes. */
  function UpdateEventStatement(id: string, entries: Entries): Option<Statement> {
    var kept := Settable(entries);
    if kept == [] then None else Some(PartialUpdate("events", Keys(kept), EventParams(kept), id))
  }

  /** updateEvent assigns every entry but `id`, in entry order, numbered 1..n with
      `all_day` as 1 or 0, puts the id at $(n+1), and issues nothing when `id` is
      the only key or there are none. */
  lemma UpdateEventStatementSpec(id: string, entries: Entries, front: Entries, back: Entries)
    ensures var kept := Settable(entries);
            && (forall e :: e in kept <==> e in entries && e.0 != "id")
            && Settable(front + back) == Settable(front) + Settable(back)
            && (UpdateEventStatement(id, entries).None? <==> forall k :: 0 <= k < |entries| ==> entries[k].0 == "id")
            && (UpdateEventStatement(id, entries).Some? ==>
                  var st := UpdateEventStatement(id, entries).value;
                  && |st.params| == |kept| + 1
                  && st.params[|kept|] == Str(id)
                  && (forall k :: 0 <= k < |kept| && kept[k].0 == "all_day" ==> st.params[k] == TruthToNum(kept[k].1))
                  && (forall k :: 0 <= k < |kept| && kept[k].0 != "all_day" ==> st.params[k] == kept[k].1)
                  && st.sql == UpdateSql("events", Numbered(Keys(kept), 1), |kept| + 1))
  {
    var p := (e: (string, JsValue)) => e.0 != "id";
    FilterMembers(entries, p);
    FilterAppend(front, back, p);
    var kept := Settable(entries);
    if forall k :: 0 <= k < |entries| ==> entries[k].0 == "id" {
      FilterDropsAll(entries, p);
    } else {
      var k :| 0 <= k < |entries| && entries[k].0 != "id";
      assert entries[k] in kept;
      EventUpdateSome(id, entries);
    }
  }

  lemma EventUpdateSome(id: string, entries: Entries)
    requires Settable(entries) != []
    ensures var kept := Settable(entries);
            var st := UpdateEventStatement(id, entries).value;
            && |st.params| == |kept| + 1
            && st.params[|kept|] == Str(id)
            && (forall k :: 0 <= k < |kept| && kept[k].0 == "all_day" ==> st.params[k] == TruthToNum(kept[k].1))
            && (forall k :: 0 <= k < |kept| && kept[k].0 != "all_day" ==> st.params[k] == kept[k].1)
            && st.sql == UpdateSql("events", Numbered(Keys(kept), 1), |kept| + 1)
  {
    var kept := Settable(entries);
    assert UpdateEventStatement(id, entries) == Some(PartialUpdate("events", Keys(kept), EventParams(kept), id));
  }

  /** One more entry: it joins the settable ones unless it is `id`. */
  lemma SettableStep(entries: Entries, i: nat)
    requires i < |entries|
    ensures Settable(entries[..i + 1]) == Settable(entries[..i]) + (if entries[i].0 != "id" then [entries[i]] else [])
  {
    assert entries[..i + 1] == entries[..i] + [entries[i]];
    FilterAppend(entries[..i], [entries[i]], (e: (string, JsValue)) => e.0 != "id");
  }

  lemma EntriesSnoc(kept: Entries, e: (string, JsValue))
    ensures Numbered(Keys(kept + [e]), 1) == Numbered(Keys(kept), 1) + [Assignment(e.0, |kept| + 1)]
    ensures EventParams(kept + [e]) == EventParams(kept) + [EventParam(e)]
  {
    assert Keys(kept + [e]) == Keys(kept) + [e.0];
    NumberedSnoc(Keys(kept), e.0, 1);
  }

  /** The loop of `updateEvent` over the entries, skipping `id`, with its `idx++` counter. */
  method BuildUpdateEvent(id: string, entries: Entries) returns (st: Option<Statement>)
    ensures st == UpdateEventStatement(id, entries)
  {
    var sets: seq<string> := [];
    var params: seq<JsValue> := [];
    var idx := 1;
    for i := 0 to |entries|
      invariant idx == |sets| + 1
      invariant sets == Numbered(Keys(Settable(entries[..i])), 1)
      invariant params == EventParams(Settable(entries[..i]))
    {
      var (key, value) := entries[i];
      SettableStep(entries, i);
      if key == "id" {
        continue;
      }
      EntriesSnoc(Settable(entries[..i]), entries[i]);
      sets := sets + [Assignment(key, idx)];
      idx := idx + 1;
      params := params + [if key == "all_day" then TruthToNum(value) else value];
    }
    assert entries[..|entries|] == entries;
    if |sets| == 0 {
      return None;
    }
    params := params + [Str(id)];
    st := Some(Statement(UpdateSql("events", sets, idx), params));
  }

  // ---------------------------------------------------------------------
  // Lists
  // ---------------------------------------------------------------------

  function RemoveEvents(events: seq<CalendarEvent>, id: string): seq<CalendarEvent> {
    Filter(events, (e: CalendarEvent) => e.id != id)
  }

  function RemoveTimeBlocks(blocks: seq<TimeBlock>, id: string): seq<TimeBlock> {
    Filter(blocks, (b: TimeBlock) => b.id != id)
  }

  /** deleteEvent and deleteTimeBlock keep exactly the entries with another id, each as
      often as before, in order. */
  lemma RemoveSpec(events: seq<CalendarEvent>, blocks: seq<TimeBlock>, id: string,
                   ef: seq<CalendarEvent>, eb: seq<CalendarEvent>, bf: seq<TimeBlock>, bb: seq<TimeBlock>)
    ensures forall e :: e in RemoveEvents(events, id) <==> e in events && e.id != id
    ensures forall e :: multiset(RemoveEvents(events, id))[e] == if e.id != id then multiset(events)[e] else 0
    ensures RemoveEvents(ef + eb, id) == RemoveEvents(ef, id) + RemoveEvents(eb, id)
    ensures forall b :: b in RemoveTimeBlocks(blocks, id) <==> b in blocks && b.id != id
    ensures forall b :: multiset(RemoveTimeBlocks(blocks, id))[b] == if b.id != id then multiset(blocks)[b] else 0
    ensures RemoveTimeBlocks(bf + bb, id) == RemoveTimeBlocks(bf, id) + RemoveTimeBlocks(bb, id)
  {
    FilterMembers(events, (e: CalendarEvent) => e.id != id);
    FilterCounts(events, (e: CalendarEvent) => e.id != id);
    FilterAppend(ef, eb, (e: CalendarEvent) => e.id != id);
    FilterMembers(blocks, (b: TimeBlock) => b.id != id);
    FilterCounts(blocks, (b: TimeBlock) => b.id != id);
    FilterAppend(bf, bb, (b: TimeBlock) => b.id != id);
  }

  /** The eventsForSelectedDate view. */
  function EventsOn(events: seq<CalendarEvent>, onSelectedDay: string -> bool): seq<CalendarEvent> {
    Filter(events, (e: CalendarEvent) => onSelectedDay(e.startDt))
  }

  /** The events of the selected day are exactly those starting on it, in list order,
      and no event is dropped that starts on it. */
  lemma EventsOnSpec(events: seq<CalendarEvent>, onSelectedDay: string -> bool,
                     front: seq<CalendarEvent>, back: seq<CalendarEvent>)
    ensures forall e :: e in EventsOn(events, onSelectedDay) <==> e in events && onSelectedDay(e.startDt)
    ensures EventsOn(front + back, onSelectedDay) == EventsOn(front, onSelectedDay) + EventsOn(back, onSelectedDay)
    ensures forall e :: multiset(EventsOn(events, onSelectedDay))[e] == if onSelectedDay(e.startDt) then multiset(events)[e] else 0
  {
    var p := (e: CalendarEvent) => onSelectedDay(e.startDt);
    FilterMembers(events, p);
    FilterAppend(front, back, p);
    FilterCounts(events, p);
  }

  // ---------------------------------------------------------------------
  // The store
  // ---------------------------------------------------------------------

  class CalendarStore {
    var events: seq<CalendarEvent>
    var timeBlocks: seq<TimeBlock>
    /** The statements executed so far, oldest first. */
    var log: seq<Statement>

    constructor ()
      ensures events == [] && timeBlocks == [] && log == []
    {
      events := [];
      timeBlocks := [];
      log := [];
    }

    method CreateEvent(event: Record, id: string, reloaded: seq<CalendarEvent>) returns (newId: string)
      modifies this
      ensures newId == id
      ensures log == old(log) + [CreateEventStatement(id, event)]
      ensures events == reloaded && timeBlocks == old(timeBlocks)
    {
      log := log + [CreateEventStatement(id, event)];
      events := reloaded;
      newId := id;
    }

    method UpdateEvent(id: string, entries: Entries, reloaded: seq<CalendarEvent>)
      modifies this
      ensures var st := UpdateEventStatement(id, entries);
              && (st.None? ==> log == old(log) && events == old(events))
              && (st.Some? ==> log == old(log) + [st.value] && events == reloaded)
      ensures timeBlocks == old(timeBlocks)
    {
      var st := BuildUpdateEvent(id, entries);
      ApplyEventUpdate(st, reloaded);
    }

    /** Execute the update, if there is one, and reload. */
    method ApplyEventUpdate(st: Option<Statement>, reloaded: seq<CalendarEvent>)
      modifies this
      ensures st.None? ==> log == old(log) && events == old(events)
      ensures st.Some? ==> log == old(log) + [st.value] && events == reloaded
      ensures timeBlocks == old(timeBlocks)
    {
      if st.None? {
        return;
      }
      log := log + [st.value];
      events := reloaded;
    }

    method DeleteEvent(id: string)
      modifies this
      ensures log == old(log) + [DeleteStatement("events", id)]
      ensures events == RemoveEvents(old(events), id) && timeBlocks == old(timeBlocks)
    {
      log := log + [DeleteStatement("events", id)];
      events := Filter(events, (e: CalendarEvent) => e.id != id);
    }

    method CreateTimeBlock(block: Record, id: string, reloaded: seq<TimeBlock>) returns (newId: string)
      modifies this
      ensures newId == id
      ensures log == old(log) + [CreateTimeBlockStatement(id, block)]
      ensures timeBlocks == reloaded && events == old(events)
    {
      log := log + [CreateTimeBlockStatement(id, block)];
      timeBlocks := reloaded;
      newId := id;
    }

    method DeleteTimeBlock(id: string)
      modifies this
      ensures log == old(log) + [DeleteStatement("time_blocks", id)]
      ensures timeBlocks == RemoveTimeBlocks(old(timeBlocks), id) && events == old(events)
    {
      log := log + [DeleteStatement("time_blocks", id)];
      timeBlocks := Filter(timeBlocks, (b: TimeBlock) => b.id != id);
    }

    /** The eventsForSelectedDate derived store. */
    function EventsForSelectedDate(onSelectedDay: string -> bool): seq<CalendarEvent>
      reads this
    {
      EventsOn(events, onSelectedDay)
    }
  }
}
