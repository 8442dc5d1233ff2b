/** The record shapes of src/lib/types/index.ts that the modelled stores
    read and write. Clock readings (`created_at`, `updated_at`) that the
    stores compare or generate are integers (milliseconds); other date
    fields are kept as the strings the database returns. */
module Types {
  import opened Common

  type Timestamp = int

  // ── Vault ──────────────────────────────────────────────────────────

  datatype Category = ApiKey | Password | SshKey | NoteCategory | Custom

  function CategoryName(c: Category): string {
    match c
    case ApiKey => "api_key"
    case Password => "password"
    case SshKey => "ssh_key"
    case NoteCategory => "note"
    case Custom => "custom"
  }

  datatype Secret = Secret(
    id: string,
    name: string,
    category: Category,
    value: string,
    notes: string,
    createdAt: Timestamp,
    updatedAt: Timestamp)

  // ── Productivity ───────────────────────────────────────────────────

  datatype Quadrant = Do | Schedule | Delegate | Eliminate

  function QuadrantName(q: Quadrant): string {
    match q
    case Do => "do"
    case Schedule => "schedule"
    case Delegate => "delegate"
    case Eliminate => "eliminate"
  }

  datatype TodoStatus = Inbox | Next | Waiting | Someday | Done

  datatype Priority = P1 | P2 | P3 | P4

  datatype Todo = Todo(
    id: string,
    content: string,
    description: string,
    priority: Priority,
    eisenhower: Quadrant,
    status: TodoStatus,
    dueDate: Option<string>,
    projectId: Option<string>,
    contextTags: string,
    estimatedMinutes: Option<int>,
    actualMinutes: Option<int>,
    createdAt: string,
    completedAt: Option<string>)

  datatype ProjectStatus = Active | Completed | Archived

  datatype Project = Project(
    id: string,
    name: string,
    description: string,
    status: ProjectStatus,
    color: string,
    sortOrder: int)

  // ── Notes ──────────────────────────────────────────────────────────

  datatype Folder = Folder(id: string, name: string, parentId: Option<string>, icon: string, sortOrder: int)

  datatype Note = Note(
    id: string,
    title: string,
    contentJson: string,
    contentText: string,
    folderId: Option<string>,
    tags: string,
    pinned: bool,
    encrypted: bool,
    createdAt: Timestamp,
    updatedAt: Timestamp)

  // ── Calendar ───────────────────────────────────────────────────────

  datatype CalendarEvent = CalendarEvent(
    id: string,
    title: string,
    description: string,
    startDt: string,
    endDt: Option<string>,
    recurrence: Option<string>,
    allDay: bool,
    color: string,
    externalId: Option<string>)

  datatype TimeBlock = TimeBlock(
    id: string,
    title: string,
    startDt: string,
    endDt: string,
    todoId: Option<string>,
    category: string,
    color: string)

  // ── Ollama ─────────────────────────────────────────────────────────

  datatype OllamaModel = OllamaModel(name: string, modifiedAt: string, size: int, digest: string)

  datatype Role = SystemRole | UserRole | AssistantRole | ToolRole

  datatype OllamaMessage = OllamaMessage(role: Role, content: string)

  datatype ChatMessage = ChatMessage(id: string, role: Role, content: string, timestamp: string)
}
