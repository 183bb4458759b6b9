/** The onboarding dashboard's task store: the ordered task list seeded with
    six tasks, the active filter tab, the status update applied when a card's
    button is pressed, the filtered view and the completion progress. */
module Dashboard {
  import opened Common
  import opened TaskCard
  import ProgressBar

  /** `initialTasks`: the six seed tasks. */
  const InitialTasks: seq<Task> := [
    Task("task-1", "Complete Personal Information",
      "Fill out your personal details including contact information and emergency contacts.",
      Completed, Some("Sep 15, 2023"), Some("Alex Johnson")),
    Task("task-2", "Sign Employment Contract",
      "Review and digitally sign your employment contract and related documents.",
      InProgress, Some("Sep 18, 2023"), Some("Alex Johnson")),
    Task("task-3", "Set Up Direct Deposit",
      "Provide banking information for payroll direct deposit setup.",
      Pending, Some("Sep 20, 2023"), Some("Alex Johnson")),
    Task("task-4", "Select Benefits Package",
      "Choose your health insurance, retirement plans, and other benefits options.",
      Pending, Some("Sep 25, 2023"), Some("Alex Johnson")),
    Task("task-5", "Complete Tax Forms",
      "Fill out required tax forms including W-4 and state tax withholding forms.",
      Pending, Some("Sep 22, 2023"), Some("Alex Johnson")),
    Task("task-6", "IT Equipment Setup",
      "Configure your workstation, install required software, and set up credentials.",
      Pending, Some("Sep 28, 2023"), Some("Alex Johnson"))
  ]

  /** The initial value of the filter tab. */
  const InitialTab: string := "all"

  // ---------------------------------------------------------------------------
  // Identifiers

  /** The ids of a task list, in order. */
  function Ids(ts: seq<Task>): (r: seq<string>)
    ensures |r| == |ts|
    ensures forall i :: 0 <= i < |ts| ==> r[i] == ts[i].id
  {
    if ts == [] then [] else [ts[0].id] + Ids(ts[1..])
  }

  /** No two positions carry the same id. */
  predicate DistinctIds(ts: seq<Task>)
  {
    forall i, j :: 0 <= i < j < |ts| ==> ts[i].id != ts[j].id
  }

  /** The seed's ids, in order. */
  const SeedIdList: seq<string> := ["task-1", "task-2", "task-3", "task-4", "task-5", "task-6"]

  /** The seed: six tasks with ids task-1 .. task-6, which are distinct; one is
      completed, one in progress and four pending. */
  lemma SeedFacts()
    ensures |InitialTasks| == 6
    ensures Ids(InitialTasks) == SeedIdList
    ensures DistinctIds(InitialTasks)
    ensures |FilterStatus(InitialTasks, Completed)| == 1
    ensures |FilterStatus(InitialTasks, InProgress)| == 1
    ensures |FilterStatus(InitialTasks, Pending)| == 4
  {
    SeedIds();
    SeedCounts();
    SeedIdsNoRepeats();
    DistinctOfIds(InitialTasks);
  }

  /** The seed's ids, task-1 .. task-6, are pairwise different. */
  lemma SeedIdsNoRepeats()
    ensures NoRepeats(SeedIdList)
  {
    assert NoRepeats(["task-6"]);
    assert NoRepeats(["task-5", "task-6"]);
    assert NoRepeats(["task-4", "task-5", "task-6"]);
    assert NoRepeats(["task-3", "task-4", "task-5", "task-6"]);
    assert NoRepeats(["task-2", "task-3", "task-4", "task-5", "task-6"]);
  }

  /** No id occurs twice in the list, checked head by head. */
  predicate NoRepeats(ids: seq<string>)
  {
    ids == [] || (ids[0] !in ids[1..] && NoRepeats(ids[1..]))
  }

  /** A task list whose id list has no repeats has distinct ids. */
  lemma {:induction false} DistinctOfIds(ts: seq<Task>)
    requires NoRepeats(Ids(ts))
    ensures DistinctIds(ts)
  {
    if ts != [] {
      var ids := Ids(ts);
      assert Ids(ts[1..]) == ids[1..];
      DistinctOfIds(ts[1..]);
      forall i, j | 0 <= i < j < |ts| ensures ts[i].id != ts[j].id {
        if i == 0 {
          assert ts[j].id == ids[1..][j - 1];
        } else {
          assert ts[i] == ts[1..][i - 1] && ts[j] == ts[1..][j - 1];
        }
      }
    }
  }

  /** A list that carries the seed's ids, as the store's list always does,
      has distinct ids. */
  lemma KeptIdsDistinct(ts: seq<Task>)
    ensures Ids(ts) == SeedIdList ==> DistinctIds(ts)
  {
    if Ids(ts) == SeedIdList {
      SeedIdsNoRepeats();
      DistinctOfIds(ts);
    }
  }

  /** The seed's length and ids. */
  lemma SeedIds()
    ensures |InitialTasks| == 6
    ensures Ids(InitialTasks) == SeedIdList
  {
    var ts := InitialTasks;
    assert ts[1..][1..][1..][1..][1..][1..] == [];
  }

  /** The seed's status counts. */
  lemma SeedCounts()
    ensures |FilterStatus(InitialTasks, Completed)| == 1
    ensures |FilterStatus(InitialTasks, InProgress)| == 1
    ensures |FilterStatus(InitialTasks, Pending)| == 4
  {
    var ts := InitialTasks;
    assert ts[1..][1..][1..][1..][1..][1..] == [];
  }

  // ---------------------------------------------------------------------------
  // handleStatusChange

  /** `prev.map(task => task.id === id ? { ...task, status } : task)`: every
      task whose id is `id` gets status `s`; nothing else changes. */
  function MapStatus(ts: seq<Task>, id: string, s: Status): (r: seq<Task>)
    ensures |r| == |ts|
    ensures forall i :: 0 <= i < |ts| ==>
      r[i].id == ts[i].id && r[i].title == ts[i].title &&
      r[i].description == ts[i].description &&
      r[i].dueDate == ts[i].dueDate && r[i].assignee == ts[i].assignee
    ensures forall i :: 0 <= i < |ts| ==>
      r[i].status == if ts[i].id == id then s else ts[i].status
  {
    if ts == [] then []
    else
      var rest := MapStatus(ts[1..], id, s);
      var r := [if ts[0].id == id then ts[0].(status := s) else ts[0]] + rest;
      assert forall i :: 1 <= i < |ts| ==> r[i] == rest[i - 1] && ts[i] == ts[1..][i - 1];
      r
  }

  /** Tasks with another id are left exactly as they were. */
  lemma MapStatusOthers(ts: seq<Task>, id: string, s: Status, k: nat)
    requires k < |ts| && ts[k].id != id
    ensures MapStatus(ts, id, s)[k] == ts[k]
  {
    var r := MapStatus(ts, id, s);
    assert r[k] == Task(ts[k].id, ts[k].title, ts[k].description, ts[k].status, ts[k].dueDate, ts[k].assignee);
  }

  /** The matched task is the old one with only its status replaced. */
  lemma MapStatusMatched(ts: seq<Task>, id: string, s: Status, k: nat)
    requires k < |ts| && ts[k].id == id
    ensures MapStatus(ts, id, s)[k] == ts[k].(status := s)
  {
    var r := MapStatus(ts, id, s);
    assert r[k] == Task(ts[k].id, ts[k].title, ts[k].description, s, ts[k].dueDate, ts[k].assignee);
  }

  /** An id that is not in the list changes nothing. */
  lemma {:induction false} MapStatusAbsent(ts: seq<Task>, id: string, s: Status)
    requires id !in Ids(ts)
    ensures MapStatus(ts, id, s) == ts
  {
    if ts != [] {
      assert Ids(ts[1..]) == Ids(ts)[1..];
      MapStatusAbsent(ts[1..], id, s);
    }
  }

  /** Reading back: with distinct ids, the task that carries `id` now has
      status `s`, and every other task equals its old value. */
  lemma {:induction false} MapStatusReadBack(ts: seq<Task>, id: string, s: Status, k: nat)
    requires DistinctIds(ts) && k < |ts| && ts[k].id == id
    ensures MapStatus(ts, id, s)[k].status == s
    ensures forall j :: 0 <= j < |ts| && j != k ==> MapStatus(ts, id, s)[j] == ts[j]
  {
    forall j | 0 <= j < |ts| && j != k
      ensures MapStatus(ts, id, s)[j] == ts[j]
    {
      MapStatusOthers(ts, id, s, j);
    }
  }

  /** Status changes never touch ids, so the id sequence, and with it
      distinctness, is preserved. */
  lemma MapStatusKeepsIds(ts: seq<Task>, id: string, s: Status)
    ensures Ids(MapStatus(ts, id, s)) == Ids(ts)
    ensures DistinctIds(ts) ==> DistinctIds(MapStatus(ts, id, s))
  {
  }

  // ---------------------------------------------------------------------------
  // filteredTasks

  /** `tasks.filter(task => task.status === s)`. */
  function FilterStatus(ts: seq<Task>, s: Status): (r: seq<Task>)
    ensures |r| <= |ts|
    ensures forall i :: 0 <= i < |r| ==> r[i].status == s
    ensures forall t :: t in r ==> t in ts
  {
    if ts == [] then []
    else if ts[0].status == s then [ts[0]] + FilterStatus(ts[1..], s)
    else FilterStatus(ts[1..], s)
  }

  /** `a` is `b` with some elements dropped, order kept. */
  predicate IsSubsequence<T(==)>(a: seq<T>, b: seq<T>)
  {
    if a == [] then true
    else if b == [] then false
    else if a[0] == b[0] then IsSubsequence(a[1..], b[1..])
    else IsSubsequence(a, b[1..])
  }

  /** Filtering keeps the original relative order. */
  lemma {:induction false} FilterIsSubsequence(ts: seq<Task>, s: Status)
    ensures IsSubsequence(FilterStatus(ts, s), ts)
  {
    if ts != [] {
      FilterIsSubsequence(ts[1..], s);
      var r := FilterStatus(ts, s);
      if ts[0].status == s {
        assert r[0] == ts[0] && r[1..] == FilterStatus(ts[1..], s);
      }
    }
  }

  /** Filtering keeps every occurrence of each task with status `s` and no
      occurrence of any other task. */
  lemma {:induction false} FilterCounts(ts: seq<Task>, s: Status)
    ensures forall t ::
      multiset(FilterStatus(ts, s))[t] == if t.status == s then multiset(ts)[t] else 0
  {
    if ts != [] {
      FilterCounts(ts[1..], s);
      assert ts == [ts[0]] + ts[1..];
    }
  }

  /** The three status filters split the list: every task is in exactly one
      of them, so their lengths add up to the total. */
  lemma {:induction false} FilterPartition(ts: seq<Task>)
    ensures |FilterStatus(ts, Pending)| + |FilterStatus(ts, InProgress)| +
            |FilterStatus(ts, Completed)| == |ts|
  {
    if ts != [] {
      FilterPartition(ts[1..]);
    }
  }

  /** Filtering keeps the whole list exactly when every task has status `s`. */
  lemma {:induction false} FilterKeepsAll(ts: seq<Task>, s: Status)
    ensures |FilterStatus(ts, s)| == |ts| <==> forall i :: 0 <= i < |ts| ==> ts[i].status == s
  {
    if ts != [] {
      FilterKeepsAll(ts[1..], s);
      assert forall i :: 1 <= i < |ts| ==> ts[i] == ts[1..][i - 1];
    }
  }

  /** `filteredTasks()`: the tab names "pending", "in-progress" and
      "completed" select by status; "all" and any other tab show every task. */
  function FilteredTasks(ts: seq<Task>, tab: string): (r: seq<Task>)
    ensures |r| <= |ts|
    ensures forall t :: t in r ==> t in ts
    ensures forall s, i :: tab == StatusName(s) && 0 <= i < |r| ==> r[i].status == s
  {
    if tab == StatusName(Pending) then FilterStatus(ts, Pending)
    else if tab == StatusName(InProgress) then FilterStatus(ts, InProgress)
    else if tab == StatusName(Completed) then FilterStatus(ts, Completed)
    else ts
  }

  /** A status tab shows exactly the tasks with that status, in their
      original order. */
  lemma VisibleByStatus(ts: seq<Task>, tab: string, s: Status)
    requires tab == StatusName(s)
    ensures IsSubsequence(FilteredTasks(ts, tab), ts)
    ensures forall i :: 0 <= i < |FilteredTasks(ts, tab)| ==> FilteredTasks(ts, tab)[i].status == s
    ensures forall t ::
      multiset(FilteredTasks(ts, tab))[t] == if t.status == s then multiset(ts)[t] else 0
  {
    StatusTextInjective(s, Pending);
    StatusTextInjective(s, InProgress);
    StatusTextInjective(s, Completed);
    assert FilteredTasks(ts, tab) == FilterStatus(ts, s);
    FilterIsSubsequence(ts, s);
    FilterCounts(ts, s);
  }

  /** Any tab that is not a status name, "all" included, shows the whole
      list unchanged. */
  lemma VisibleOtherTab(ts: seq<Task>, tab: string)
    requires forall s :: tab != StatusName(s)
    ensures FilteredTasks(ts, tab) == ts
  {
    assert tab != StatusName(Pending) && tab != StatusName(InProgress) && tab != StatusName(Completed);
  }

  // ---------------------------------------------------------------------------
  // completedTasks and progress

  /** `tasks.filter(task => task.status === "completed").length`. */
  function CompletedCount(ts: seq<Task>): (r: nat)
    ensures r <= |ts|
    ensures r == |ts| <==> forall i :: 0 <= i < |ts| ==> ts[i].status == Completed
  {
    FilterKeepsAll(ts, Completed);
    |FilterStatus(ts, Completed)|
  }

  /** `(completedTasks / tasks.length) * 100`. An empty list gives `0 / 0`,
      which is NaN; any other list gives a percentage in [0, 100] that is
      100 exactly when every task is completed. */
  function ProgressOf(ts: seq<Task>): (r: Number)
    ensures r == NaN <==> |ts| == 0
    ensures r.Finite? ==> 0.0 <= r.value <= 100.0
    ensures r.Finite? ==> (r.value == 100.0 <==> forall i :: 0 <= i < |ts| ==> ts[i].status == Completed)
  {
    if |ts| == 0 then NaN
    else
      Percentage(CompletedCount(ts) as real, |ts| as real);
      Finite(CompletedCount(ts) as real / |ts| as real * 100.0)
  }

  /** `c / n * 100` for a share `c` of a positive total `n`. */
  lemma Percentage(c: real, n: real)
    requires 0.0 <= c <= n && n > 0.0
    ensures 0.0 <= c / n * 100.0 <= 100.0
    ensures c / n * 100.0 == 100.0 <==> c == n
  {
    var q, r := c / n, (n - c) / n;
    assert q * n == c && r * n == n - c;
    assert q + r == (c + (n - c)) / n == n / n == 1.0;
    assert 0.0 <= q && 0.0 <= r;
  }

  /** The dashboard draws its progress with a large bar; the bar's clamp
      never alters the value it is given. */
  lemma BarShowsProgress(ts: seq<Task>)
    ensures ProgressBar.Clamp(ProgressOf(ts)) == ProgressOf(ts)
    ensures ProgressBar.HeightClass("lg") == "h-3"
  {
    if |ts| > 0 {
      ProgressBar.ClampCases(ProgressOf(ts).value);
    }
  }

  /** The caption beside the bar, `progress === 100 ? "Complete!" : "In
      Progress"`: "Complete!" exactly when the list is non-empty and every
      task is completed. */
  function ProgressCaption(ts: seq<Task>): (r: string)
    ensures r == "Complete!" || r == "In Progress"
    ensures r == "Complete!" <==> |ts| > 0 && forall i :: 0 <= i < |ts| ==> ts[i].status == Completed
  {
    if ProgressOf(ts) == Finite(100.0) then "Complete!" else "In Progress"
  }

  // ---------------------------------------------------------------------------
  // Pressing a card's button

  /** The store after the user presses the one button on the card of `t`. */
  function Press(ts: seq<Task>, t: Task): seq<Task>
  {
    var c := Handle(t, Offered(t.status));
    MapStatus(ts, c.id, c.status)
  }

  /** One press: a task not pending stays not pending; with distinct ids, a
      pending task of the list does not become completed. */
  lemma PressOnce(ts: seq<Task>, t: Task, k: nat)
    requires k < |ts|
    ensures ts[k].status != Pending ==> Press(ts, t)[k].status != Pending
    ensures DistinctIds(ts) && t in ts && ts[k].status == Pending ==>
      Press(ts, t)[k].status != Completed
  {
    if DistinctIds(ts) && t in ts && ts[k].status == Pending && ts[k].id == t.id {
      var j :| 0 <= j < |ts| && ts[j] == t;
      assert j == k;
    }
  }

  /** The store after a sequence of presses; each press names the position
      of the card pressed (a press on no card does nothing). */
  function PressAll(ts: seq<Task>, cards: seq<nat>): seq<Task>
    decreases |cards|
  {
    if cards == [] then ts
    else PressAll(if cards[0] < |ts| then Press(ts, ts[cards[0]]) else ts, cards[1..])
  }

  /** However the user presses the buttons, the list keeps its length and
      ids, and a task that has left "pending" never returns to it. */
  lemma {:induction false} PressAllNeverPending(ts: seq<Task>, cards: seq<nat>, k: nat)
    requires k < |ts| && ts[k].status != Pending
    ensures Ids(PressAll(ts, cards)) == Ids(ts)
    ensures PressAll(ts, cards)[k].status != Pending
    decreases |cards|
  {
    if cards != [] {
      var next := if cards[0] < |ts| then Press(ts, ts[cards[0]]) else ts;
      if cards[0] < |ts| {
        var t := ts[cards[0]];
        MapStatusKeepsIds(ts, Handle(t, Offered(t.status)).id, Handle(t, Offered(t.status)).status);
        PressOnce(ts, t, k);
      }
      PressAllNeverPending(next, cards[1..], k);
    }
  }

  // ---------------------------------------------------------------------------
  // The stateful store

  /** The `tasks` and `activeTab` state of the dashboard. */
  class TaskStore {
    var tasks: seq<Task>
    var activeTab: string

    /** No task is ever added or removed and status changes keep ids, so the
        ids are those of the seed (so distinct, by `KeptIdsDistinct`). */
    ghost predicate Valid()
      reads this
    {
      Ids(tasks) == SeedIdList
    }

    constructor ()
      ensures Valid()
      ensures tasks == InitialTasks && activeTab == InitialTab
    {
      SeedIds();
      tasks := InitialTasks;
      activeTab := InitialTab;
    }

    /** `handleStatusChange(id, status)`. */
    method SetStatus(id: string, status: Status)
      requires Valid()
      modifies this
      ensures Valid()
      ensures tasks == MapStatus(old(tasks), id, status)
      ensures activeTab == old(activeTab)
    {
      assert Ids(MapStatus(tasks, id, status)) == Ids(tasks) by {
        MapStatusKeepsIds(tasks, id, status);
      }
      tasks := MapStatus(tasks, id, status);
    }

    /** `setActiveTab`, called by the tab strip with the chosen tab's value. */
    method SetActiveTab(tab: string)
      modifies this
      ensures activeTab == tab && tasks == old(tasks)
    {
      activeTab := tab;
    }

    /** The cards currently shown. */
    function Visible(): (r: seq<Task>)
      reads this
      ensures |r| <= |tasks|
      ensures forall t :: t in r ==> t in tasks
    {
      FilteredTasks(tasks, activeTab)
    }

    /** The bar's value: for a valid store a percentage in [0, 100] that is
        100 exactly when every task is completed. */
    function Progress(): (p: Number)
      reads this
      ensures Valid() ==> p.Finite? && 0.0 <= p.value <= 100.0
      ensures Valid() ==>
        (p.value == 100.0 <==> forall i :: 0 <= i < |tasks| ==> tasks[i].status == Completed)
    {
      ProgressOf(tasks)
    }
  }

  /** The walk-through on the seed: starting task-3 shows task-2 and task-3,
      in that order, under "in-progress". */
  lemma SeedScenarioStart()
    ensures Ids(FilteredTasks(MapStatus(InitialTasks, "task-3", InProgress), "in-progress")) == ["task-2", "task-3"]
  {
    var ts := MapStatus(InitialTasks, "task-3", InProgress);
    assert |ts| == 6;
    assert ts[0].status == Completed && ts[1].status == InProgress && ts[2].status == InProgress;
    assert ts[3].status == Pending && ts[4].status == Pending && ts[5].status == Pending;
    assert ts[1].id == "task-2" && ts[2].id == "task-3";
    InProgressView(ts);
  }

  /** The "in-progress" view of a six-task list whose second and third
      tasks are the only ones in progress. */
  lemma InProgressView(ts: seq<Task>)
    requires |ts| == 6
    requires ts[0].status == Completed && ts[1].status == InProgress && ts[2].status == InProgress
    requires ts[3].status == Pending && ts[4].status == Pending && ts[5].status == Pending
    ensures Ids(FilteredTasks(ts, "in-progress")) == [ts[1].id, ts[2].id]
  {
    FilterSix(ts, InProgress);
  }

  /** Filtering distributes over concatenation. */
  lemma {:induction false} FilterConcat(a: seq<Task>, b: seq<Task>, s: Status)
    ensures FilterStatus(a + b, s) == FilterStatus(a, s) + FilterStatus(b, s)
  {
    if a == [] {
      assert a + b == b;
    } else {
      assert (a + b)[0] == a[0] && (a + b)[1..] == a[1..] + b;
      FilterConcat(a[1..], b, s);
    }
  }

  /** Filtering a six-task list, position by position. */
  lemma FilterSix(ts: seq<Task>, s: Status)
    requires |ts| == 6
    ensures FilterStatus(ts, s) ==
      FilterStatus([ts[0]], s) + FilterStatus([ts[1]], s) + FilterStatus([ts[2]], s) +
      FilterStatus([ts[3]], s) + FilterStatus([ts[4]], s) + FilterStatus([ts[5]], s)
  {
    assert ts == [ts[0]] + [ts[1]] + [ts[2]] + [ts[3]] + [ts[4]] + [ts[5]];
    FilterConcat([ts[0]] + [ts[1]] + [ts[2]] + [ts[3]] + [ts[4]], [ts[5]], s);
    FilterConcat([ts[0]] + [ts[1]] + [ts[2]] + [ts[3]], [ts[4]], s);
    FilterConcat([ts[0]] + [ts[1]] + [ts[2]], [ts[3]], s);
    FilterConcat([ts[0]] + [ts[1]], [ts[2]], s);
    FilterConcat([ts[0]], [ts[1]], s);
  }

  /** The seed's progress is 100/6. */
  lemma SeedProgress()
    ensures ProgressOf(InitialTasks) == Finite(100.0 / 6.0)
  {
    SeedFacts();
  }

  /** Completing task-2 on the seed raises the progress to 200/6. */
  lemma SeedProgressAfterComplete()
    ensures ProgressOf(MapStatus(InitialTasks, "task-2", Completed)) == Finite(200.0 / 6.0)
  {
    var us := MapStatus(InitialTasks, "task-2", Completed);
    assert |us| == 6;
    assert us[0].status == Completed && us[1].status == Completed && us[2].status == Pending;
    assert us[3].status == Pending && us[4].status == Pending && us[5].status == Pending;
    CountSix(us);
  }

  /** Two completed tasks out of six. */
  lemma CountSix(ts: seq<Task>)
    requires |ts| == 6
    requires ts[0].status == Completed && ts[1].status == Completed && ts[2].status == Pending
    requires ts[3].status == Pending && ts[4].status == Pending && ts[5].status == Pending
    ensures ProgressOf(ts) == Finite(200.0 / 6.0)
  {
    FilterSix(ts, Completed);
    assert CompletedCount(ts) == 2;
  }
}
