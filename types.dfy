/** The CRM's records: contacts, pipeline stages, deals, activities and
    tasks. Dates and timestamps stay strings, as in the records themselves;
    optional properties (`avatar?`, `contactId?`, ...) are `Option`s. */
module Types {
  import opened Wrappers

  /** A contact's lead temperature. */
  datatype ContactStatus = Hot | Warm | Cold

  /** The code the list filter compares against (`'hot'`, `'warm'`, `'cold'`). */
  function ContactStatusCode(s: ContactStatus): string {
    match s
    case Hot => "hot"
    case Warm => "warm"
    case Cold => "cold"
  }

  datatype Contact = Contact(
    id: string,
    name: string,
    email: string,
    phone: string,
    company: string,
    position: string,
    status: ContactStatus,
    lastContact: string,
    avatar: Option<string>,
    tags: seq<string>)

  /** One step of the sales pipeline. */
  datatype PipelineStage = PipelineStage(id: string, name: string, color: string, order: int)

  datatype ActivityType = Call | EmailActivity | Meeting | Note

  datatype Activity = Activity(
    id: string,
    kind: ActivityType,
    title: string,
    description: string,
    date: string,
    completed: bool)

  /** A sales opportunity. `contact` is a snapshot of the contact taken when
      the deal was created; `value` is a monetary amount. */
  datatype Deal = Deal(
    id: string,
    title: string,
    value: real,
    stage: PipelineStage,
    contactId: string,
    contact: Contact,
    probability: int,
    closeDate: string,
    description: string,
    activities: seq<Activity>,
    createdAt: string,
    updatedAt: string)

  datatype TaskPriority = Low | Medium | High | Urgent

  datatype TaskStatus = Todo | InProgress | Completed

  function TaskPriorityCode(p: TaskPriority): string {
    match p
    case Low => "low"
    case Medium => "medium"
    case High => "high"
    case Urgent => "urgent"
  }

  function TaskStatusCode(s: TaskStatus): string {
    match s
    case Todo => "todo"
    case InProgress => "in-progress"
    case Completed => "completed"
  }

  datatype Task = Task(
    id: string,
    title: string,
    description: string,
    priority: TaskPriority,
    status: TaskStatus,
    dueDate: string,
    assignedTo: string,
    contactId: Option<string>,
    dealId: Option<string>,
    tags: seq<string>,
    createdAt: string,
    updatedAt: string,
    googleCalendarEventId: Option<string>)

  /** The ids of a list of pipeline stages are pairwise distinct. */
  predicate DistinctStageIds(stages: seq<PipelineStage>) {
    forall i, j :: 0 <= i < j < |stages| ==> stages[i].id != stages[j].id
  }

  /** `pipelineStages.find(stage => stage.id === id)`: the first stage with
      that id, or nothing. */
  function FindStage(stages: seq<PipelineStage>, id: string): (r: Option<PipelineStage>)
    ensures r.Some? ==> r.value in stages && r.value.id == id
    ensures r.None? <==> forall i :: 0 <= i < |stages| ==> stages[i].id != id
    ensures r.Some? ==> exists i :: 0 <= i < |stages| && stages[i] == r.value
                                    && forall j :: 0 <= j < i ==> stages[j].id != id
  {
    if stages == [] then None
    else if stages[0].id == id then Some(stages[0])
    else
      var r := FindStage(stages[1..], id);
      assert r.Some? ==> exists i :: 0 <= i < |stages| && stages[i] == r.value
                                     && forall j :: 0 <= j < i ==> stages[j].id != id by {
        if r.Some? {
          var i :| 0 <= i < |stages[1..]| && stages[1..][i] == r.value
                   && forall j :: 0 <= j < i ==> stages[1..][j].id != id;
          assert stages[i + 1] == r.value;
        }
      }
      r
  }

  /** `contacts.find(c => c.id === id)`: the first contact with that id,
      or nothing. */
  function FindContact(contacts: seq<Contact>, id: string): (r: Option<Contact>)
    ensures r.Some? ==> r.value in contacts && r.value.id == id
    ensures r.None? <==> forall i :: 0 <= i < |contacts| ==> contacts[i].id != id
    ensures r.Some? ==> exists i :: 0 <= i < |contacts| && contacts[i] == r.value
                                    && forall j :: 0 <= j < i ==> contacts[j].id != id
  {
    if contacts == [] then None
    else if contacts[0].id == id then Some(contacts[0])
    else
      var r := FindContact(contacts[1..], id);
      assert r.Some? ==> exists i :: 0 <= i < |contacts| && contacts[i] == r.value
                                     && forall j :: 0 <= j < i ==> contacts[j].id != id by {
        if r.Some? {
          var i :| 0 <= i < |contacts[1..]| && contacts[1..][i] == r.value
                   && forall j :: 0 <= j < i ==> contacts[1..][j].id != id;
          assert contacts[i + 1] == r.value;
        }
      }
      r
  }
}
