/** The todos store (src/lib/stores/todos.ts): the derived GTD and
    Eisenhower views of the todo list, the insert defaults, the partial
    update builder, and the local removal done by delete. Reading the table
    back after a write (`loadTodos`) is the `reloaded` parameter. */
module Todos {
  import opened Common
  import opened Types
  import opened Sql

  // ---------------------------------------------------------------------
  // Derived views
  // ---------------------------------------------------------------------

  function InboxTodos(todos: seq<Todo>): seq<Todo> {
    Filter(todos, (t: Todo) => t.status == Inbox)
  }

  function ActiveTodos(todos: seq<Todo>): seq<Todo> {
    Filter(todos, (t: Todo) => t.status != Done)
  }

  function CompletedTodos(todos: seq<Todo>): seq<Todo> {
    Filter(todos, (t: Todo) => t.status == Done)
  }

  function InQuadrant(todos: seq<Todo>, q: Quadrant): seq<Todo> {
    Filter(todos, (t: Todo) => t.eisenhower == q)
  }

  datatype Quadrants = Quadrants(doNow: seq<Todo>, schedule: seq<Todo>, delegate: seq<Todo>, eliminate: seq<Todo>)

  function TodosByQuadrant(todos: seq<Todo>): Quadrants {
    var active := ActiveTodos(todos);
    Quadrants(InQuadrant(active, Do), InQuadrant(active, Schedule), InQuadrant(active, Delegate), InQuadrant(active, Eliminate))
  }

  /** activeTodos and completedTodos split the list: every todo is in exactly
      one of them, with its multiplicity; inboxTodos keeps the inbox todos, each
      as often as in the list, in list order. */
  lemma ViewsPartition(todos: seq<Todo>, front: seq<Todo>, back: seq<Todo>)
    ensures multiset(ActiveTodos(todos)) + multiset(CompletedTodos(todos)) == multiset(todos)
    ensures |ActiveTodos(todos)| + |CompletedTodos(todos)| == |todos|
    ensures forall t :: t in ActiveTodos(todos) <==> t in todos && t.status != Done
    ensures forall t :: t in CompletedTodos(todos) <==> t in todos && t.status == Done
    ensures forall t :: t in InboxTodos(todos) <==> t in todos && t.status == Inbox
    ensures forall t :: multiset(InboxTodos(todos))[t] == if t.status == Inbox then multiset(todos)[t] else 0
    ensures InboxTodos(front + back) == InboxTodos(front) + InboxTodos(back)
  {
    var active := (t: Todo) => t.status != Done;
    var done := (t: Todo) => t.status == Done;
    FilterPartition(todos, active, done);
    FilterMembers(todos, active);
    FilterMembers(todos, done);
    FilterMembers(todos, (t: Todo) => t.status == Inbox);
    FilterCounts(todos, (t: Todo) => t.status == Inbox);
    FilterAppend(front, back, (t: Todo) => t.status == Inbox);
  }

  /** The four quadrant lists of a list add up to it. */
  lemma QuadrantsCover(s: seq<Todo>)
    ensures multiset(InQuadrant(s, Do)) + multiset(InQuadrant(s, Schedule))
            + multiset(InQuadrant(s, Delegate)) + multiset(InQuadrant(s, Eliminate)) == multiset(s)
  {
    var sum := multiset(InQuadrant(s, Do)) + multiset(InQuadrant(s, Schedule))
               + multiset(InQuadrant(s, Delegate)) + multiset(InQuadrant(s, Eliminate));
    forall t
      ensures sum[t] == multiset(s)[t]
    {
      QuadrantCount(s, Do, t);
      QuadrantCount(s, Schedule, t);
      QuadrantCount(s, Delegate, t);
      QuadrantCount(s, Eliminate, t);
    }
    assert sum == multiset(s);
  }

  /** A todo occurs in the list of its quadrant as often as in the whole list, and in no other. */
  lemma QuadrantCount(s: seq<Todo>, q: Quadrant, t: Todo)
    ensures multiset(InQuadrant(s, q))[t] == if t.eisenhower == q then multiset(s)[t] else 0
  {
    FilterCounts(s, (x: Todo) => x.eisenhower == q);
  }

  /** Each quadrant holds only active todos of that quadrant, no todo is in two
      quadrants, and together the quadrants hold exactly the active todos. */
  lemma QuadrantsSpec(todos: seq<Todo>)
    ensures var qs := TodosByQuadrant(todos);
            && (forall t :: t in qs.doNow <==> t in todos && t.status != Done && t.eisenhower == Do)
            && (forall t :: t in qs.schedule <==> t in todos && t.status != Done && t.eisenhower == Schedule)
            && (forall t :: t in qs.delegate <==> t in todos && t.status != Done && t.eisenhower == Delegate)
            && (forall t :: t in qs.eliminate <==> t in todos && t.status != Done && t.eisenhower == Eliminate)
            && multiset(qs.doNow) + multiset(qs.schedule) + multiset(qs.delegate) + multiset(qs.eliminate)
               == multiset(ActiveTodos(todos))
  {
    var active := ActiveTodos(todos);
    FilterMembers(todos, (t: Todo) => t.status != Done);
    FilterMembers(active, (t: Todo) => t.eisenhower == Do);
    FilterMembers(active, (t: Todo) => t.eisenhower == Schedule);
    FilterMembers(active, (t: Todo) => t.eisenhower == Delegate);
    FilterMembers(active, (t: Todo) => t.eisenhower == Eliminate);
    QuadrantsCover(active);
  }

  // ---------------------------------------------------------------------
  // Statements
  // ---------------------------------------------------------------------

  const TodoInsertSql: string :=
    "INSERT INTO todos (id, content, priority, eisenhower, status, due_date, project_id, description)\n"
    + "     VALUES ($1, $2, $3, $4, $5, $6, $7, $8)"

  /** The INSERT of `createTodo`: absent or falsy options fall back to the column defaults. */
  function CreateTodoStatement(id: string, content: string, options: Record): (st: Statement)
    ensures st.sql == TodoInsertSql
    ensures |st.params| == 8 && st.params[0] == Str(id) && st.params[1] == Str(content)
    ensures Truthy(st.params[2]) && Truthy(st.params[3]) && Truthy(st.params[4])
    ensures FallsBack(st.params[2], Get(options, "priority"), Str("p3"))
    ensures FallsBack(st.params[3], Get(options, "eisenhower"), Str("schedule"))
    ensures FallsBack(st.params[4], Get(options, "status"), Str("inbox"))
    ensures FallsBack(st.params[5], Get(options, "due_date"), Null)
    ensures FallsBack(st.params[6], Get(options, "project_id"), Null)
    ensures FallsBack(st.params[7], Get(options, "description"), Str(""))
  {
    var priority := Or(Get(options, "priority"), Str("p3"));
    var quadrant := Or(Get(options, "eisenhower"), Str("schedule"));
    var status := Or(Get(options, "status"), Str("inbox"));
    var description := Or(Get(options, "description"), Str(""));
    Statement(TodoInsertSql,
      [Str(id), Str(content), priority, quadrant, status,
       OrNull(Get(options, "due_date")), OrNull(Get(options, "project_id")), description])
  }

  /** The columns `updateTodo` may set, in the order it tries them. */
  const TodoFields: seq<string> :=
    ["content", "description", "priority", "eisenhower", "status", "due_date",
     "project_id", "context_tags", "estimated_minutes", "actual_minutes", "completed_at"]

  /** What `updateTodo` executes. */
  function UpdateTodoStatement(id: string, updates: Record): Option<Statement> {
    WhitelistUpdate("todos", TodoFields, id, updates)
  }

  /** The loop of `updateTodo` over its field list, with its `idx++` counter. */
  method BuildUpdate(table: string, fields: seq<string>, id: string, updates: Record) returns (st: Option<Statement>)
    ensures st == WhitelistUpdate(table, fields, id, updates)
  {
    var sets: seq<string> := [];
    var params: seq<JsValue> := [];
    var idx := 1;
    ghost var fs: seq<string> := [];
    for i := 0 to |fields|
      invariant fs == DefinedFields(fields[..i], updates)
      invariant idx == |fs| + 1
      invariant sets == Numbered(fs, 1)
      invariant params == FieldValues(fs, updates)
    {
      var field := fields[i];
      DefinedStep(fields, i, updates);
      if Get(updates, field) != Undefined {
        NumberedSnoc(fs, field, 1);
        FieldValuesSnoc(fs, field, updates);
        sets := sets + [Assignment(field, idx)];
        idx := idx + 1;
        params := params + [Get(updates, field)];
        fs := fs + [field];
      }
    }
    assert fields[..|fields|] == fields;
    if |sets| == 0 {
      return None;
    }
    params := params + [Str(id)];
    st := Some(Statement(UpdateSql(table, sets, idx), params));
  }

  /** moveTodoQuadrant is an update setting only `eisenhower`. */
  lemma MoveTodoQuadrantStatement(todoId: string, q: Quadrant)
    ensures UpdateTodoStatement(todoId, map["eisenhower" := Str(QuadrantName(q))])
            == Some(PartialUpdate("todos", ["eisenhower"], [Str(QuadrantName(q))], todoId))
  {
    var before := ["content", "description", "priority"];
    var after := ["status", "due_date", "project_id", "context_tags", "estimated_minutes", "actual_minutes", "completed_at"];
    assert TodoFields == before + ["eisenhower"] + after;
    WhitelistSingle("todos", before, "eisenhower", after, Str(QuadrantName(q)), todoId);
  }

  const CompleteTodoSql: string :=
    "UPDATE todos SET status = 'done', completed_at = datetime('now') WHERE id = $1"

  /** `completeTodo`: a fixed statement whose one parameter is the id. */
  function CompleteTodoStatement(id: string): Statement {
    Statement(CompleteTodoSql, [Str(id)])
  }

  const ProjectInsertSql: string :=
    "INSERT INTO projects (id, name, description, color) VALUES ($1, $2, $3, $4)"

  const DefaultProjectColor: string := "#58a6ff"

  /** The INSERT of `createProject`. Its defaults are parameter defaults, so
      they replace only an omitted argument (`None`), never an empty string. */
  function CreateProjectStatement(id: string, name: string, description: Option<string>, color: Option<string>): (st: Statement)
    ensures st.sql == ProjectInsertSql && |st.params| == 4
    ensures st.params[0] == Str(id) && st.params[1] == Str(name)
    ensures description.None? ==> st.params[2] == Str("")
    ensures color.None? ==> st.params[3] == Str(DefaultProjectColor)
    ensures description.Some? ==> st.params[2] == Str(description.value)
    ensures color.Some? ==> st.params[3] == Str(color.value)
  {
    var d := if description.Some? then description.value else "";
    var c := if color.Some? then color.value else DefaultProjectColor;
    Statement(ProjectInsertSql, [Str(id), Str(name), Str(d), Str(c)])
  }

  /** `ts.filter((t) => t.id !== id)`. */
  function RemoveTodos(todos: seq<Todo>, id: string): seq<Todo> {
    Filter(todos, (t: Todo) => t.id != id)
  }

  /** Delete keeps exactly the todos with another id, in order. */
  lemma RemoveTodosSpec(todos: seq<Todo>, id: string, front: seq<Todo>, back: seq<Todo>)
    ensures forall t :: t in RemoveTodos(todos, id) <==> t in todos && t.id != id
    ensures forall t :: multiset(RemoveTodos(todos, id))[t] == if t.id != id then multiset(todos)[t] else 0
    ensures RemoveTodos(front + back, id) == RemoveTodos(front, id) + RemoveTodos(back, id)
    ensures (forall k :: 0 <= k < |todos| ==> todos[k].id != id) ==> RemoveTodos(todos, id) == todos
  {
    FilterMembers(todos, (t: Todo) => t.id != id);
    FilterCounts(todos, (t: Todo) => t.id != id);
    FilterAppend(front, back, (t: Todo) => t.id != id);
    if forall k :: 0 <= k < |todos| ==> todos[k].id != id {
      FilterKeepsAll(todos, (t: Todo) => t.id != id);
    }
  }

  // ---------------------------------------------------------------------
  // The store
  // ---------------------------------------------------------------------

  class TodosStore {
    var todos: seq<Todo>
    var projects: seq<Project>
    /** The statements executed so far, oldest first. */
    var log: seq<Statement>

    constructor ()
      ensures todos == [] && projects == [] && log == []
    {
      todos := [];
      projects := [];
      log := [];
    }

    method CreateTodo(content: string, options: Record, id: string, reloaded: seq<Todo>) returns (newId: string)
      modifies this
      ensures newId == id
      ensures log == old(log) + [CreateTodoStatement(id, content, options)]
      ensures todos == reloaded && projects == old(projects)
    {
      log := log + [CreateTodoStatement(id, content, options)];
      todos := reloaded;
      newId := id;
    }

    method UpdateTodo(id: string, updates: Record, reloaded: seq<Todo>)
      modifies this
      ensures var st := UpdateTodoStatement(id, updates);
              && (st.None? ==> log == old(log) && todos == old(todos))
              && (st.Some? ==> log == old(log) + [st.value] && todos == reloaded)
              && projects == old(projects)
    {
      var st := BuildUpdate("todos", TodoFields, id, updates);
      Apply(st, reloaded);
    }

    /** Execute the update, if there is one, and reload. */
    method Apply(st: Option<Statement>, reloaded: seq<Todo>)
      modifies this
      ensures st.None? ==> log == old(log) && todos == old(todos)
      ensures st.Some? ==> log == old(log) + [st.value] && todos == reloaded
      ensures projects == old(projects)
    {
      if st.None? {
        return;
      }
      log := log + [st.value];
      todos := reloaded;
    }

    method DeleteTodo(id: string)
      modifies this
      ensures log == old(log) + [DeleteStatement("todos", id)]
      ensures todos == RemoveTodos(old(todos), id) && projects == old(projects)
    {
      log := log + [DeleteStatement("todos", id)];
      todos := Filter(todos, (t: Todo) => t.id != id);
    }

    method MoveTodoQuadrant(todoId: string, q: Quadrant, reloaded: seq<Todo>)
      modifies this
      ensures log == old(log) + [PartialUpdate("todos", ["eisenhower"], [Str(QuadrantName(q))], todoId)]
      ensures todos == reloaded && projects == old(projects)
    {
      MoveTodoQuadrantStatement(todoId, q);
      UpdateTodo(todoId, map["eisenhower" := Str(QuadrantName(q))], reloaded);
    }

    method CompleteTodo(id: string, reloaded: seq<Todo>)
      modifies this
      ensures log == old(log) + [CompleteTodoStatement(id)]
      ensures todos == reloaded && projects == old(projects)
    {
      log := log + [CompleteTodoStatement(id)];
      todos := reloaded;
    }

    /** createProject, with `reloaded` the project table read back by `loadProjects`. */
    method CreateProject(name: string, description: Option<string>, color: Option<string>, id: string, reloaded: seq<Project>)
      returns (newId: string)
      modifies this
      ensures newId == id
      ensures log == old(log) + [CreateProjectStatement(id, name, description, color)]
      ensures projects == reloaded && todos == old(todos)
    {
      log := log + [CreateProjectStatement(id, name, description, color)];
      projects := reloaded;
      newId := id;
    }
  }
}
