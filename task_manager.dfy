/** The task manager: search, status and priority filters, the chosen
    sort, the overdue mark on a card and the counters above the list. The
    current time is `now` and `time` gives a date's time stamp. */
module TaskManager {
  import opened Types
  import opened Text
  import Seqs

  /** The filters' value that lets every task through. */
  const All := "all"

  /** The search term occurs, ignoring case, in the title, the description
      or the assignee. */
  predicate MatchesSearch(t: Task, term: string) {
    MatchesTerm(t.title, term) || MatchesTerm(t.description, term) || MatchesTerm(t.assignedTo, term)
  }

  predicate MatchesStatus(t: Task, filter: string) {
    filter == All || TaskStatusCode(t.status) == filter
  }

  predicate MatchesPriority(t: Task, filter: string) {
    filter == All || TaskPriorityCode(t.priority) == filter
  }

  predicate Shown(t: Task, term: string, statusFilter: string, priorityFilter: string) {
    MatchesSearch(t, term) && MatchesStatus(t, statusFilter) && MatchesPriority(t, priorityFilter)
  }

  /** The filter step: the tasks shown, in their original order. */
  function FilterTasks(tasks: seq<Task>, term: string, statusFilter: string, priorityFilter: string)
    : (r: seq<Task>)
    ensures forall t :: t in r <==> t in tasks && Shown(t, term, statusFilter, priorityFilter)
  {
    var keep := (t: Task) => Shown(t, term, statusFilter, priorityFilter);
    Seqs.FilterMembers(tasks, keep);
    Seqs.Filter(tasks, keep)
  }

  /** `priorityOrder`: urgent 4, high 3, medium 2, low 1. */
  function PriorityRank(p: TaskPriority): int {
    match p
    case Urgent => 4
    case High => 3
    case Medium => 2
    case Low => 1
  }

  /** `statusOrder`: to do 1, in progress 2, completed 3. */
  function StatusRank(s: TaskStatus): int {
    match s
    case Todo => 1
    case InProgress => 2
    case Completed => 3
  }

  /** The comparator as one number per task (ascending key order). */
  function TaskKey(sortBy: string, time: string -> int, t: Task): real {
    if sortBy == "dueDate" then time(t.dueDate) as real
    else if sortBy == "priority" then -(PriorityRank(t.priority) as real)
    else if sortBy == "status" then StatusRank(t.status) as real
    else if sortBy == "updated" then -(time(t.updatedAt) as real)
    else 0.0
  }

  function SortTasks(tasks: seq<Task>, sortBy: string, time: string -> int): seq<Task> {
    Seqs.SortBy(tasks, (t: Task) => TaskKey(sortBy, time, t))
  }

  /** `filteredAndSortedTasks`. */
  function TasksView(tasks: seq<Task>, term: string, statusFilter: string, priorityFilter: string,
                     sortBy: string, time: string -> int): seq<Task>
  {
    SortTasks(FilterTasks(tasks, term, statusFilter, priorityFilter), sortBy, time)
  }

  /** A task is overdue when its due date has passed and it is not done;
      the card and the counter use this one predicate. */
  predicate IsOverdue(t: Task, now: int, time: string -> int) {
    time(t.dueDate) < now && t.status != Completed
  }

  datatype TaskStats = TaskStats(total: nat, todo: nat, inProgress: nat, completed: nat, overdue: nat)

  function CountStatus(tasks: seq<Task>, s: TaskStatus): nat {
    |Seqs.Filter(tasks, (t: Task) => t.status == s)|
  }

  function CountOverdue(tasks: seq<Task>, now: int, time: string -> int): nat {
    |Seqs.Filter(tasks, (t: Task) => IsOverdue(t, now, time))|
  }

  /** `taskStats`, counted over all tasks (not the filtered view). */
  function Stats(tasks: seq<Task>, now: int, time: string -> int): TaskStats {
    TaskStats(|tasks|, CountStatus(tasks, Todo), CountStatus(tasks, InProgress),
              CountStatus(tasks, Completed), CountOverdue(tasks, now, time))
  }

  // ---------------------------------------------------------------------
  // what the view and the counters promise

  lemma {:induction false} StatusCountsPartition(tasks: seq<Task>)
    ensures CountStatus(tasks, Todo) + CountStatus(tasks, InProgress) + CountStatus(tasks, Completed) == |tasks|
  {
    if tasks != [] {
      StatusCountsPartition(tasks[1..]);
    }
  }

  /** Every task has one of the three statuses, so the three status
      counters add up to the total; an overdue task is never completed, so
      there are at most as many overdue tasks as unfinished ones. */
  lemma StatsConsistent(tasks: seq<Task>, now: int, time: string -> int)
    ensures Stats(tasks, now, time).todo + Stats(tasks, now, time).inProgress
          + Stats(tasks, now, time).completed == Stats(tasks, now, time).total
    ensures Stats(tasks, now, time).overdue
         <= Stats(tasks, now, time).total - Stats(tasks, now, time).completed
  {
    StatusCountsPartition(tasks);
    var done := (t: Task) => t.status == Completed;
    var open := (t: Task) => t.status != Completed;
    Seqs.FilterComplement(tasks, done, open);
    Seqs.FilterMonotone(tasks, (t: Task) => IsOverdue(t, now, time), open);
  }

  /** The view holds exactly the shown tasks, each as often as in the list. */
  lemma TasksViewPermutation(tasks: seq<Task>, term: string, statusFilter: string,
                             priorityFilter: string, sortBy: string, time: string -> int)
    ensures multiset(TasksView(tasks, term, statusFilter, priorityFilter, sortBy, time))
         == multiset(FilterTasks(tasks, term, statusFilter, priorityFilter))
  {
    Seqs.SortByPermutation(FilterTasks(tasks, term, statusFilter, priorityFilter),
                           (t: Task) => TaskKey(sortBy, time, t));
  }

  /** Each menu choice orders the view as its label says. */
  lemma SortTasksOrder(tasks: seq<Task>, sortBy: string, time: string -> int)
    ensures sortBy == "dueDate" ==> forall i, j :: 0 <= i < j < |SortTasks(tasks, sortBy, time)| ==>
              time(SortTasks(tasks, sortBy, time)[i].dueDate) <= time(SortTasks(tasks, sortBy, time)[j].dueDate)
    ensures sortBy == "priority" ==> forall i, j :: 0 <= i < j < |SortTasks(tasks, sortBy, time)| ==>
              PriorityRank(SortTasks(tasks, sortBy, time)[i].priority)
              >= PriorityRank(SortTasks(tasks, sortBy, time)[j].priority)
    ensures sortBy == "status" ==> forall i, j :: 0 <= i < j < |SortTasks(tasks, sortBy, time)| ==>
              StatusRank(SortTasks(tasks, sortBy, time)[i].status)
              <= StatusRank(SortTasks(tasks, sortBy, time)[j].status)
    ensures sortBy == "updated" ==> forall i, j :: 0 <= i < j < |SortTasks(tasks, sortBy, time)| ==>
              time(SortTasks(tasks, sortBy, time)[i].updatedAt) >= time(SortTasks(tasks, sortBy, time)[j].updatedAt)
  {
    var key := (t: Task) => TaskKey(sortBy, time, t);
    Seqs.SortBySorted(tasks, key);
    var r := SortTasks(tasks, sortBy, time);
    assert forall i, j :: 0 <= i < j < |r| ==> key(r[i]) <= key(r[j]);
  }

  /** Tasks the chosen order cannot tell apart keep their order. */
  lemma SortTasksStable(tasks: seq<Task>, sortBy: string, time: string -> int, k: real)
    ensures Seqs.KeyClass(SortTasks(tasks, sortBy, time), (t: Task) => TaskKey(sortBy, time, t), k)
         == Seqs.KeyClass(tasks, (t: Task) => TaskKey(sortBy, time, t), k)
  {
    Seqs.SortByStable(tasks, (t: Task) => TaskKey(sortBy, time, t), k);
  }

  /** Any other sort choice keeps the filtered order. */
  lemma SortTasksUnknownKeepsOrder(tasks: seq<Task>, sortBy: string, time: string -> int)
    requires sortBy != "dueDate" && sortBy != "priority" && sortBy != "status" && sortBy != "updated"
    ensures SortTasks(tasks, sortBy, time) == tasks
  {
    Seqs.SortByConstantKey(tasks, (t: Task) => TaskKey(sortBy, time, t), 0.0);
  }

  /** The filter step only drops tasks; it never reorders them. */
  lemma FilterTasksSubseq(tasks: seq<Task>, term: string, statusFilter: string, priorityFilter: string)
    ensures Seqs.IsSubseq(FilterTasks(tasks, term, statusFilter, priorityFilter), tasks)
  {
    Seqs.FilterIsSubseq(tasks, (t: Task) => Shown(t, term, statusFilter, priorityFilter));
  }

  /** An empty search with both filters at `'all'` shows every task. */
  lemma FilterTasksShowsAll(tasks: seq<Task>)
    ensures FilterTasks(tasks, "", All, All) == tasks
  {
    forall i | 0 <= i < |tasks| ensures Shown(tasks[i], "", All, All) {
      ContainsEmpty(Lower(tasks[i].title));
    }
    Seqs.FilterKeepsAll(tasks, (t: Task) => Shown(t, "", All, All));
  }
}
