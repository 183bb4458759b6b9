/** One onboarding task and the card that shows it: the status type, the
    status caption, the action button offered for each status and the status
    change that button requests. */
module TaskCard {
  import opened Common

  /** `TaskStatus`: exactly one of "pending", "in-progress", "completed". */
  datatype Status = Pending | InProgress | Completed

  datatype Task = Task(
    id: string,
    title: string,
    description: string,
    status: Status,
    dueDate: Option<string>,
    assignee: Option<string>)

  /** The string literal the source uses for each status. */
  function StatusName(s: Status): (r: string)
  {
    match s
    case Pending => "pending"
    case InProgress => "in-progress"
    case Completed => "completed"
  }

  /** `getStatusText`: the caption shown on the card. */
  function StatusText(s: Status): (r: string)
    ensures r == "Not Started" <==> s == Pending
    ensures r == "In Progress" <==> s == InProgress
    ensures r == "Completed" <==> s == Completed
  {
    match s
    case Pending => "Not Started"
    case InProgress => "In Progress"
    case Completed => "Completed"
  }

  /** Distinct statuses have distinct captions and distinct literals. */
  lemma StatusTextInjective(a: Status, b: Status)
    ensures StatusText(a) == StatusText(b) ==> a == b
    ensures StatusName(a) == StatusName(b) ==> a == b
  {
  }

  /** The three buttons a card can render. */
  datatype Action = Start | Complete | Reopen

  /** Whether the card renders the button for `a` when its task has status `s`:
      each button has its own guard on the status. A shown button always
      moves its task to another status, never back to "pending", and from
      "pending" only to "in-progress". */
  predicate Shows(s: Status, a: Action): (r: bool)
    ensures r ==> Target(a) != s && Target(a) != Pending
    ensures r && s == Pending ==> Target(a) == InProgress
  {
    match a
    case Start => s == Pending
    case Complete => s == InProgress
    case Reopen => s == Completed
  }

  /** The status each handler passes to `onStatusChange`. */
  function Target(a: Action): (r: Status)
    ensures r != Pending
  {
    match a
    case Start => InProgress
    case Complete => Completed
    case Reopen => InProgress
  }

  /** The one button shown for each status. */
  function Offered(s: Status): (a: Action)
    ensures Shows(s, a)
    ensures forall b :: Shows(s, b) ==> b == a
  {
    match s
    case Pending => Start
    case InProgress => Complete
    case Completed => Reopen
  }

  /** The request a handler sends up: the card's task id and a status. */
  datatype StatusChange = StatusChange(id: string, status: Status)

  /** `handleStart`, `handleComplete`, `handleReopen`. */
  function Handle(task: Task, a: Action): (r: StatusChange)
    ensures r.id == task.id
    ensures r.status != Pending
    ensures a == Start ==> r.status == InProgress
    ensures a == Complete ==> r.status == Completed
    ensures a == Reopen ==> r.status == InProgress
  {
    StatusChange(task.id, Target(a))
  }

  /** The status a task moves to when the user presses the button its card
      offers. */
  function Next(s: Status): Status
  {
    Target(Offered(s))
  }

  /** Pressing the offered button never yields "pending", never jumps from
      "pending" straight to "completed", and always changes the status. */
  lemma NextTransitions(s: Status)
    ensures Next(s) != Pending
    ensures s == Pending ==> Next(s) == InProgress
    ensures Next(s) != s
    ensures Next(s) == Completed <==> s == InProgress
  {
  }

  /** Status after pressing the offered button `n` times in a row. */
  function PressTimes(s: Status, n: nat): Status
    decreases n
  {
    if n == 0 then s else PressTimes(Next(s), n - 1)
  }

  /** Once a task has left "pending", no sequence of presses brings it back;
      from "pending" any positive number of presses leaves it. */
  lemma {:induction false} PressTimesNeverPending(s: Status, n: nat)
    ensures s != Pending ==> PressTimes(s, n) != Pending
    ensures n > 0 ==> PressTimes(s, n) != Pending
    decreases n
  {
    if n > 0 {
      NextTransitions(s);
      PressTimesNeverPending(Next(s), n - 1);
    }
  }
}
