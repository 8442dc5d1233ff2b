/** The notes store (src/lib/stores/notes.ts): the active note, the
    search/ordering view, the partial update builder, and the effect of
    create, add and delete on the list and the active id. `updated_at` is an
    integer timestamp (parsing the database's date text is not modelled);
    reading the table back (`loadNotes`) is the `reloaded` parameter. */
module Notes {
  import opened Common
  import opened Types
  import opened Sql
  import opened Sorting

  // ---------------------------------------------------------------------
  // Derived views
  // ---------------------------------------------------------------------

  /** `notes.find((n) => n.id === id) || null`. */
  function FindNote(notes: seq<Note>, id: Option<string>): Option<Note> {
    if notes == [] then None
    else if Some(notes[0].id) == id then Some(notes[0])
    else FindNote(notes[1..], id)
  }

  /** activeNote is the first note carrying the active id, and none exactly when no note carries it. */
  lemma {:induction false} FindNoteSpec(notes: seq<Note>, id: Option<string>)
    ensures FindNote(notes, id).None? <==> forall i :: 0 <= i < |notes| ==> Some(notes[i].id) != id
    ensures FindNote(notes, id).Some? ==>
              exists i :: 0 <= i < |notes| && notes[i] == FindNote(notes, id).value && Some(notes[i].id) == id
                          && forall j :: 0 <= j < i ==> Some(notes[j].id) != id
  {
    if notes != [] && Some(notes[0].id) != id {
      FindNoteSpec(notes[1..], id);
      if FindNote(notes, id).Some? {
        var i :| 0 <= i < |notes[1..]| && notes[1..][i] == FindNote(notes, id).value && Some(notes[1..][i].id) == id
                 && forall j :: 0 <= j < i ==> Some(notes[1..][j].id) != id;
        assert notes[i + 1] == notes[1..][i];
        assert forall j :: 1 <= j < i + 1 ==> notes[j] == notes[1..][j - 1];
      }
    }
  }

  /** The filteredNotes comparator as an order: `compare(a, b) <= 0`, i.e. pinned
      notes first and, between notes of equal pinned status, later `updated_at` first. */
  function NoteBefore(a: Note, b: Note): bool {
    if a.pinned != b.pinned then a.pinned else b.updatedAt <= a.updatedAt
  }

  lemma NoteBeforeIsTotalPreorder()
    ensures TotalPreorder(NoteBefore)
  {
  }

  predicate NoteMatches(n: Note, lowerQuery: string) {
    Includes(Lower(n.title), lowerQuery) || Includes(Lower(n.contentText), lowerQuery)
  }

  function SearchNotes(notes: seq<Note>, query: string): seq<Note> {
    Filter(notes, (n: Note) => NoteMatches(n, Lower(query)))
  }

  /** The filteredNotes view. */
  function FilteredNotes(notes: seq<Note>, query: string): seq<Note> {
    if query == "" then SortBy(notes, NoteBefore) else SearchNotes(notes, query)
  }

  /** With no query the view is a permutation of the notes with every pinned note
      ahead of every unpinned one and, within equal pinned status, `updated_at`
      descending; with a query it is the order-preserving sub-list of notes whose
      lowercased title or content text contains the lowercased query. */
  lemma FilteredNotesSpec(notes: seq<Note>, query: string, front: seq<Note>, back: seq<Note>)
    ensures var r := FilteredNotes(notes, query);
            query == "" ==>
              && multiset(r) == multiset(notes)
              && (forall i, j :: 0 <= i < j < |r| && r[j].pinned ==> r[i].pinned)
              && (forall i, j :: 0 <= i < j < |r| && r[i].pinned == r[j].pinned ==> r[i].updatedAt >= r[j].updatedAt)
    ensures query != "" ==> forall n :: n in FilteredNotes(notes, query) <==> n in notes && NoteMatches(n, Lower(query))
    ensures query != "" ==> forall n :: multiset(FilteredNotes(notes, query))[n]
                                        == if NoteMatches(n, Lower(query)) then multiset(notes)[n] else 0
    ensures query != "" ==> FilteredNotes(front + back, query) == FilteredNotes(front, query) + FilteredNotes(back, query)
  {
    if query == "" {
      SortedNotesSpec(notes);
    } else {
      SearchNotesSpec(notes, query, front, back);
    }
  }

  /** The no-query branch: the comparator sort orders pinned notes first, then newest first. */
  lemma SortedNotesSpec(notes: seq<Note>)
    ensures var r := SortBy(notes, NoteBefore);
            && multiset(r) == multiset(notes)
            && (forall i, j :: 0 <= i < j < |r| && r[j].pinned ==> r[i].pinned)
            && (forall i, j :: 0 <= i < j < |r| && r[i].pinned == r[j].pinned ==> r[i].updatedAt >= r[j].updatedAt)
  {
    NoteBeforeIsTotalPreorder();
    SortByCorrect(notes, NoteBefore);
    var r := SortBy(notes, NoteBefore);
    assert forall i, j :: 0 <= i < j < |r| ==> NoteBefore(r[i], r[j]);
  }

  /** The query branch: an order-preserving filter that keeps each matching note's multiplicity. */
  lemma SearchNotesSpec(notes: seq<Note>, query: string, front: seq<Note>, back: seq<Note>)
    ensures forall n :: n in SearchNotes(notes, query) <==> n in notes && NoteMatches(n, Lower(query))
    ensures forall n :: multiset(SearchNotes(notes, query))[n]
                        == if NoteMatches(n, Lower(query)) then multiset(notes)[n] else 0
    ensures SearchNotes(front + back, query) == SearchNotes(front, query) + SearchNotes(back, query)
  {
    var m := (n: Note) => NoteMatches(n, Lower(query));
    FilterMembers(notes, m);
    FilterCounts(notes, m);
    FilterAppend(front, back, m);
  }

  // ---------------------------------------------------------------------
  // Statements
  // ---------------------------------------------------------------------

  const CreateNoteSql: string := "INSERT INTO notes (id, title, folder_id) VALUES ($1, $2, $3)"
  const AddNoteSql: string := "INSERT INTO notes (id, title, content_text, folder_id) VALUES ($1, $2, $3, $4)"
  const FolderInsertSql: string := "INSERT INTO folders (id, name, parent_id) VALUES ($1, $2, $3)"

  /** The assignment `updateNote` always appends; it has no placeholder. */
  const UpdatedAtNow: string := "updated_at = datetime('now')"

  /** The columns `updateNote` may set, in the order it tests them. */
  const NoteFields: seq<string> := ["title", "content_json", "content_text", "folder_id", "tags", "pinned"]

  /** The parameter `updateNote` passes for a column: 1 or 0 for `pinned`, the value otherwise. */
  function NoteParam(field: string, v: JsValue): JsValue {
    if field == "pinned" then TruthToNum(v) else v
  }

  function NoteParams(fields: seq<string>, updates: Record): (ps: seq<JsValue>)
    ensures |ps| == |fields|
    ensures forall k :: 0 <= k < |fields| ==> ps[k] == NoteParam(fields[k], Get(updates, fields[k]))
  {
    seq(|fields|, k requires 0 <= k < |fields| => NoteParam(fields[k], Get(updates, fields[k])))
  }

  /** What `updateNote` executes, for a given field list. */
  function NoteUpdate(fields: seq<string>, id: string, updates: Record): Statement {
    var fs := DefinedFields(fields, updates);
    Statement(UpdateSql("notes", Numbered(fs, 1) + [UpdatedAtNow], |fs| + 1), NoteParams(fs, updates) + [Str(id)])
  }

  function UpdateNoteStatement(id: string, updates: Record): Statement {
    NoteUpdate(NoteFields, id, updates)
  }

  /** updateNote always issues a statement: the defined fields of the list in list
      order numbered 1..n, then the placeholder-free `updated_at` assignment, with
      the id as parameter $(n+1); `pinned` travels as 1 when truthy and 0 otherwise. */
  lemma NoteUpdateSpec(fields: seq<string>, id: string, updates: Record)
    ensures var fs := DefinedFields(fields, updates);
            var st := NoteUpdate(fields, id, updates);
            && (forall f :: f in fs <==> f in fields && Get(updates, f) != Undefined)
            && |st.params| == |fs| + 1
            && st.params[|fs|] == Str(id)
            && (forall k :: 0 <= k < |fs| && fs[k] == "pinned" ==> st.params[k] == TruthToNum(Get(updates, "pinned")))
            && (forall k :: 0 <= k < |fs| && fs[k] != "pinned" ==> st.params[k] == Get(updates, fs[k]) != Undefined)
            && st.sql == UpdateSql("notes", Numbered(fs, 1) + [UpdatedAtNow], |fs| + 1)
  {
    DefinedFieldsSpec(fields, updates, [], []);
    var fs := DefinedFields(fields, updates);
    forall k | 0 <= k < |fs| ensures Get(updates, fs[k]) != Undefined {
      assert fs[k] in fs;
    }
  }

  /** One test of `updateNote`: a defined field gets the next placeholder and its parameter. */
  method PushIfDefined(sets: seq<string>, params: seq<JsValue>, idx: int, field: string, updates: Record,
                       ghost fs: seq<string>)
    returns (sets': seq<string>, params': seq<JsValue>, idx': int, ghost fs': seq<string>)
    requires Built(sets, params, idx, fs, updates)
    ensures fs' == fs + Kept(field, updates)
    ensures Built(sets', params', idx', fs', updates)
  {
    sets', params', idx' := sets, params, idx;
    if Get(updates, field) != Undefined {
      sets' := sets' + [Assignment(field, idx')];
      idx' := idx' + 1;
      params' := params' + [NoteParam(field, Get(updates, field))];
    }
    Extend(fs, field, updates);
    fs' := fs + Kept(field, updates);
  }

  /** The six tests of `updateNote`, in its order, then the fixed `updated_at` entry and the id. */
  method BuildUpdateNote(id: string, updates: Record) returns (st: Statement)
    ensures st == UpdateNoteStatement(id, updates)
  {
    ghost var fs;
    st, fs := SixTests(id, updates);
    UpdateNoteOf(fs, id, updates);
  }

  /** The body of `updateNote` up to the statement, with the tested fields that were defined as `fs`. */
  method SixTests(id: string, updates: Record) returns (st: Statement, ghost fs: seq<string>)
    ensures fs == [] + Kept("title", updates) + Kept("content_json", updates) + Kept("content_text", updates)
                  + Kept("folder_id", updates) + Kept("tags", updates) + Kept("pinned", updates)
    ensures st == Statement(UpdateSql("notes", Numbered(fs, 1) + [UpdatedAtNow], |fs| + 1), NoteParams(fs, updates) + [Str(id)])
  {
    var sets: seq<string> := [];
    var params: seq<JsValue> := [];
    var idx := 1;
    fs := [];
    sets, params, idx, fs := PushIfDefined(sets, params, idx, "title", updates, fs);
    sets, params, idx, fs := PushIfDefined(sets, params, idx, "content_json", updates, fs);
    sets, params, idx, fs := PushIfDefined(sets, params, idx, "content_text", updates, fs);
    sets, params, idx, fs := PushIfDefined(sets, params, idx, "folder_id", updates, fs);
    sets, params, idx, fs := PushIfDefined(sets, params, idx, "tags", updates, fs);
    sets, params, idx, fs := PushIfDefined(sets, params, idx, "pinned", updates, fs);
    sets := sets + [UpdatedAtNow];
    params := params + [Str(id)];
    st := Statement(UpdateSql("notes", sets, idx), params);
  }

  /** The statement of `updateNote` for the six tests' outcome `fs`. */
  lemma UpdateNoteOf(fs: seq<string>, id: string, updates: Record)
    requires fs == [] + Kept("title", updates) + Kept("content_json", updates) + Kept("content_text", updates)
                  + Kept("folder_id", updates) + Kept("tags", updates) + Kept("pinned", updates)
    ensures UpdateNoteStatement(id, updates)
            == Statement(UpdateSql("notes", Numbered(fs, 1) + [UpdatedAtNow], |fs| + 1), NoteParams(fs, updates) + [Str(id)])
  {
    assert [] + Kept("title", updates) == Kept("title", updates);
    DefinedSix("title", "content_json", "content_text", "folder_id", "tags", "pinned", updates);
    assert NoteFields == ["title", "content_json", "content_text", "folder_id", "tags", "pinned"];
    NoteUpdateOf(NoteFields, fs, id, updates);
  }

  lemma NoteUpdateOf(fields: seq<string>, fs: seq<string>, id: string, updates: Record)
    requires DefinedFields(fields, updates) == fs
    ensures NoteUpdate(fields, id, updates)
            == Statement(UpdateSql("notes", Numbered(fs, 1) + [UpdatedAtNow], |fs| + 1), NoteParams(fs, updates) + [Str(id)])
  {
  }

  /** `[field]` when the update object defines it, `[]` otherwise. */
  function Kept(field: string, updates: Record): seq<string> {
    if Get(updates, field) != Undefined then [field] else []
  }

  /** The lists `updateNote` has built for the defined fields `fs` so far. */
  ghost predicate Built(sets: seq<string>, params: seq<JsValue>, idx: int, fs: seq<string>, updates: Record) {
    && sets == Numbered(fs, 1)
    && params == NoteParams(fs, updates)
    && idx == |fs| + 1
  }

  /** One test of `updateNote`: numbering and parameters grow at the end. */
  lemma Extend(fs: seq<string>, field: string, updates: Record)
    ensures Numbered(fs + [field], 1) == Numbered(fs, 1) + [Assignment(field, |fs| + 1)]
    ensures NoteParams(fs + [field], updates) == NoteParams(fs, updates) + [NoteParam(field, Get(updates, field))]
    ensures fs + [] == fs
  {
  }

  lemma DefinedSnoc(fields: seq<string>, field: string, updates: Record)
    ensures DefinedFields(fields + [field], updates) == DefinedFields(fields, updates) + Kept(field, updates)
  {
    FilterAppend(fields, [field], (f: string) => Get(updates, f) != Undefined);
  }

  lemma DefinedSix(a: string, b: string, c: string, d: string, e: string, f: string, updates: Record)
    ensures DefinedFields([a, b, c, d, e, f], updates)
            == Kept(a, updates) + Kept(b, updates) + Kept(c, updates) + Kept(d, updates) + Kept(e, updates) + Kept(f, updates)
  {
    DefinedSnoc([], a, updates);
    assert [] + [a] == [a];
    DefinedSnoc([a], b, updates);
    assert [a] + [b] == [a, b];
    DefinedSnoc([a, b], c, updates);
    assert [a, b] + [c] == [a, b, c];
    DefinedSnoc([a, b, c], d, updates);
    assert [a, b, c] + [d] == [a, b, c, d];
    DefinedSnoc([a, b, c, d], e, updates);
    assert [a, b, c, d] + [e] == [a, b, c, d, e];
    DefinedSnoc([a, b, c, d, e], f, updates);
    assert [a, b, c, d, e] + [f] == [a, b, c, d, e, f];
  }

  /** `ns.filter((n) => n.id !== id)`. */
  function RemoveNotes(notes: seq<Note>, id: string): seq<Note> {
    Filter(notes, (n: Note) => n.id != id)
  }

  /** `curr === id ? null : curr`. */
  function ClearIfActive(active: Option<string>, id: string): Option<string> {
    if active == Some(id) then None else active
  }

  /** deleteNote keeps exactly the notes with another id, each as often as before, in
      order; afterwards the active note is gone when it was the deleted one and
      otherwise unchanged. */
  lemma {:induction false} DeleteNoteSpec(notes: seq<Note>, active: Option<string>, id: string,
                                          front: seq<Note>, back: seq<Note>)
    ensures forall n :: n in RemoveNotes(notes, id) <==> n in notes && n.id != id
    ensures forall n :: multiset(RemoveNotes(notes, id))[n] == if n.id != id then multiset(notes)[n] else 0
    ensures RemoveNotes(front + back, id) == RemoveNotes(front, id) + RemoveNotes(back, id)
    ensures FindNote(RemoveNotes(notes, id), ClearIfActive(active, id))
            == if active == Some(id) then None else FindNote(notes, active)
  {
    FilterMembers(notes, (n: Note) => n.id != id);
    FilterCounts(notes, (n: Note) => n.id != id);
    FilterAppend(front, back, (n: Note) => n.id != id);
    if notes != [] {
      DeleteNoteSpec(notes[1..], active, id, front, back);
      var rest := RemoveNotes(notes[1..], id);
      if notes[0].id != id {
        var kept := [notes[0]] + rest;
        assert RemoveNotes(notes, id) == kept;
        assert kept[0] == notes[0] && kept[1..] == rest;
      } else {
        assert RemoveNotes(notes, id) == rest;
      }
    }
  }

  // ---------------------------------------------------------------------
  // The store
  // ---------------------------------------------------------------------

  class NotesStore {
    var notes: seq<Note>
    var folders: seq<Folder>
    var activeNoteId: Option<string>
    var searchQuery: string
    /** The statements executed so far, oldest first. */
    var log: seq<Statement>

    constructor ()
      ensures notes == [] && folders == [] && activeNoteId == None && searchQuery == "" && log == []
    {
      notes := [];
      folders := [];
      activeNoteId := None;
      searchQuery := "";
      log := [];
    }

    /** The activeNote derived store. */
    function ActiveNote(): Option<Note>
      reads this
    {
      FindNote(notes, activeNoteId)
    }

    /** The filteredNotes derived store. With no query it sorts the store's own
        list in place and returns it. */
    method Filtered() returns (r: seq<Note>)
      modifies this
      ensures r == FilteredNotes(old(notes), searchQuery)
      ensures searchQuery == "" ==> notes == r
      ensures searchQuery != "" ==> notes == old(notes)
      ensures activeNoteId == old(activeNoteId) && searchQuery == old(searchQuery) && log == old(log)
      ensures folders == old(folders)
    {
      if searchQuery == "" {
        notes := SortBy(notes, NoteBefore);
        return notes;
      }
      r := SearchNotes(notes, searchQuery);
    }

    method CreateNote(folderId: Option<string>, id: string, reloaded: seq<Note>) returns (newId: string)
      modifies this
      ensures newId == id
      ensures log == old(log) + [Statement(CreateNoteSql, [Str(id), Str("Untitled"), OptionToJs(folderId)])]
      ensures notes == reloaded && activeNoteId == Some(id) && searchQuery == old(searchQuery)
      ensures folders == old(folders)
    {
      log := log + [Statement(CreateNoteSql, [Str(id), Str("Untitled"), OptionToJs(folderId)])];
      notes := reloaded;
      activeNoteId := Some(id);
      newId := id;
    }

    method AddNote(title: string, content: string, folderId: Option<string>, id: string, reloaded: seq<Note>)
      returns (newId: string)
      modifies this
      ensures newId == id
      ensures log == old(log) + [Statement(AddNoteSql, [Str(id), Str(title), Str(content), OptionToJs(folderId)])]
      ensures notes == reloaded && activeNoteId == old(activeNoteId) && searchQuery == old(searchQuery)
      ensures folders == old(folders)
    {
      log := log + [Statement(AddNoteSql, [Str(id), Str(title), Str(content), OptionToJs(folderId)])];
      notes := reloaded;
      newId := id;
    }

    method UpdateNote(id: string, updates: Record, reloaded: seq<Note>)
      modifies this
      ensures log == old(log) + [UpdateNoteStatement(id, updates)]
      ensures notes == reloaded && activeNoteId == old(activeNoteId) && searchQuery == old(searchQuery)
      ensures folders == old(folders)
    {
      var st := BuildUpdateNote(id, updates);
      Apply(st, reloaded);
    }

    /** Execute the update and reload. */
    method Apply(st: Statement, reloaded: seq<Note>)
      modifies this
      ensures log == old(log) + [st]
      ensures notes == reloaded && activeNoteId == old(activeNoteId) && searchQuery == old(searchQuery)
      ensures folders == old(folders)
    {
      log := log + [st];
      notes := reloaded;
    }

    method DeleteNote(id: string)
      modifies this
      ensures log == old(log) + [DeleteStatement("notes", id)]
      ensures notes == RemoveNotes(old(notes), id)
      ensures activeNoteId == ClearIfActive(old(activeNoteId), id) && searchQuery == old(searchQuery)
      ensures folders == old(folders)
    {
      log := log + [DeleteStatement("notes", id)];
      notes := Filter(notes, (n: Note) => n.id != id);
      if activeNoteId == Some(id) {
        activeNoteId := None;
      }
    }

    /** createFolder, with `reloaded` the folder table read back by `loadFolders`. */
    method CreateFolder(name: string, parentId: Option<string>, id: string, reloaded: seq<Folder>) returns (newId: string)
      modifies this
      ensures newId == id
      ensures log == old(log) + [Statement(FolderInsertSql, [Str(id), Str(name), OptionToJs(parentId)])]
      ensures folders == reloaded && notes == old(notes)
      ensures activeNoteId == old(activeNoteId) && searchQuery == old(searchQuery)
    {
      log := log + [Statement(FolderInsertSql, [Str(id), Str(name), OptionToJs(parentId)])];
      folders := reloaded;
      newId := id;
    }
  }
}
