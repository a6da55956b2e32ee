/**
 * The Things "create project" document the review tool submits: one project whose
 * to-do items link back, through their notes, to the projects under review.
 */
module Payload {
  import opened Wrappers
  import opened Projects

  datatype TodoAttributes = TodoAttributes(title: string, notes: string)

  /** `{'type': kind, 'attributes': {...}}` for one checklist item. */
  datatype Todo = Todo(kind: string, attributes: TodoAttributes)

  datatype ProjectAttributes = ProjectAttributes(title: string, areaId: string, items: seq<Todo>)

  /** `{'type': kind, 'attributes': {'title', 'area-id', 'items'}}`. */
  datatype ProjectDocument = ProjectDocument(kind: string, attributes: ProjectAttributes)

  const LinkPrefix: string := "[Link](things:///show?id="
  const LinkSuffix: string := ")"

  /** The project uuid a note links to, when the note has the link shape. */
  function NoteUuid(note: string): Option<string> {
    if |note| >= |LinkPrefix| + |LinkSuffix|
       && note[..|LinkPrefix|] == LinkPrefix
       && note[|note| - |LinkSuffix|..] == LinkSuffix
    then Some(note[|LinkPrefix|..|note| - |LinkSuffix|])
    else None
  }

  /**
   * The note of a checklist item: a Markdown link to `things:///show?id=<uuid>`. It
   * holds the uuid right after the fixed prefix, and the uuid is read back from it.
   */
  function LinkNote(uuid: string): (note: string)
    ensures |note| == |LinkPrefix| + |uuid| + |LinkSuffix|
    ensures note[|LinkPrefix|..|LinkPrefix| + |uuid|] == uuid
    ensures NoteUuid(note) == Some(uuid)
  {
    var note := LinkPrefix + uuid + LinkSuffix;
    assert note[..|LinkPrefix|] == LinkPrefix;
    assert note[|note| - |LinkSuffix|..] == LinkSuffix;
    assert note[|LinkPrefix|..|note| - |LinkSuffix|] == uuid;
    note
  }

  /** The to-do item for one project under review. */
  function ChecklistItem(title: string, uuid: string): Todo {
    Todo("to-do", TodoAttributes(title, LinkNote(uuid)))
  }

  /** The review project filed into area `areaId`. */
  function ReviewProject(title: string, areaId: string, items: seq<Todo>): ProjectDocument {
    ProjectDocument("project", ProjectAttributes(title, areaId, items))
  }

  /** One to-do item per project, in order, each titled after its project and linking to it. */
  function ChecklistItems(projects: seq<ProjectRef>): (items: seq<Todo>)
    ensures |items| == |projects|
    ensures forall i :: 0 <= i < |projects| ==>
      items[i].kind == "to-do" && items[i].attributes.title == projects[i].title
      && NoteUuid(items[i].attributes.notes) == Some(projects[i].uuid)
  {
    seq(|projects|, i requires 0 <= i < |projects| => ChecklistItem(projects[i].title, projects[i].uuid))
  }

  /**
   * The projects a list of to-do items refers to: each item's title with the uuid
   * its note links to, or `None` when some note is not such a link.
   */
  function LinkedProjects(items: seq<Todo>): Option<seq<ProjectRef>> {
    if |items| == 0 then Some([])
    else match (NoteUuid(items[0].attributes.notes), LinkedProjects(items[1..]))
      case (Some(uuid), Some(rest)) => Some([ProjectRef(items[0].attributes.title, uuid)] + rest)
      case _ => None
  }

  /** The checklist of a review names exactly the projects it was built from, in order. */
  lemma {:induction false} ChecklistRoundTrip(projects: seq<ProjectRef>)
    ensures LinkedProjects(ChecklistItems(projects)) == Some(projects)
  {
    if |projects| > 0 {
      var items := ChecklistItems(projects);
      assert items[1..] == ChecklistItems(projects[1..]);
      ChecklistRoundTrip(projects[1..]);
      assert [projects[0]] + projects[1..] == projects;
    }
  }
}
