/** The week-6 task app: a list state and a detail state fed by three REST calls, the
    due-date formatter, the card's status colour and check box, and which view each
    screen shows. Each call's outcome is an input value. */
module TaskApp {
  import opened KotlinText

  // ---------------------------------------------------------------- entities

  datatype Attachment = Attachment(id: int, fileName: string, fileUrl: string)

  datatype SubTask = SubTask(id: int, title: string, isCompleted: bool)

  datatype Task = Task(
    id: int,
    title: string,
    description: Option<string>,
    status: Option<string>,
    priority: Option<string>,
    category: Option<string>,
    dueDate: Option<string>,
    attachments: Option<seq<Attachment>>,
    subtasks: Option<seq<SubTask>>)

  datatype TaskResponse = TaskResponse(isSuccess: bool, message: string, data: seq<Task>)

  datatype SingleTaskResponse = SingleTaskResponse(isSuccess: bool, message: string, data: Task)

  /** How one HTTP call ended: a 2xx response with an optional decoded body, a response
      with another status code, or an exception with an optional message. */
  datatype Outcome<B> = Success(body: Option<B>) | HttpError(code: int) | Thrown(message: Option<string>)

  const ConnectionError: string := "Lỗi kết nối"
  const DeleteFailed: string := "Xóa thất bại"

  /** "Lỗi: <code>" */
  function HttpErrorText(code: int): (r: string)
    ensures |r| > 5 && r[..5] == "Lỗi: "
  {
    "Lỗi: " + IntToString(code)
  }

  /** The status code can be read back from the message. */
  lemma HttpErrorTextCode(code: int)
    requires IsInt(code)
    ensures ToIntOrNull(HttpErrorText(code)[5..]) == Some(code)
  {
    assert HttpErrorText(code)[5..] == IntToString(code);
    IntToStringRoundTrip(code);
  }

  // ---------------------------------------------------------------- list state

  /** What the list screen shows, first match wins: spinner, error, empty view, cards. */
  datatype ListView = ListSpinner | ListError(message: string) | EmptyListView | TaskCards(tasks: seq<Task>)

  function ListScreenContent(isLoading: bool, error: Option<string>, tasks: seq<Task>): (v: ListView)
    ensures v.ListSpinner? <==> isLoading
    ensures v.ListError? <==> !isLoading && error.Some?
    ensures v.EmptyListView? <==> !isLoading && error.None? && tasks == []
    ensures v.TaskCards? <==> !isLoading && error.None? && tasks != []
    ensures v.ListError? ==> v.message == error.value
    ensures v.TaskCards? ==> v.tasks == tasks
  {
    if isLoading then ListSpinner
    else if error.Some? then ListError(error.value)
    else if tasks == [] then EmptyListView
    else TaskCards(tasks)
  }

  class TaskListState {
    var tasks: seq<Task>
    var isLoading: bool
    var error: Option<string>

    constructor ()
      ensures tasks == [] && !isLoading && error == None
    {
      tasks := [];
      isLoading := false;
      error := None;
    }

    function View(): ListView
      reads this
    {
      ListScreenContent(isLoading, error, tasks)
    }

    /** TaskListState.fetch as one sequential step: the error is cleared first; a success
        replaces the tasks (empty when there is no body), a failure keeps them and sets
        the error; loading is always off at the end. */
    method Fetch(outcome: Outcome<TaskResponse>)
      modifies this
      ensures !isLoading
      ensures outcome.Success? ==>
                error == None && tasks == (if outcome.body.Some? then outcome.body.value.data else [])
      ensures outcome.HttpError? ==> tasks == old(tasks) && error == Some(HttpErrorText(outcome.code))
      ensures outcome.Thrown? ==> tasks == old(tasks) && error == Some(outcome.message.GetOr(ConnectionError))
      ensures !outcome.Success? ==> View().ListError?
      ensures outcome.Success? ==> View() == (if tasks == [] then EmptyListView else TaskCards(tasks))
    {
      isLoading := true;
      error := None;
      match outcome {
        case Success(body) =>
          tasks := if body.Some? then body.value.data else [];
        case HttpError(code) =>
          error := Some(HttpErrorText(code));
        case Thrown(message) =>
          error := Some(message.GetOr(ConnectionError));
      }
      isLoading := false;
    }
  }

  // ---------------------------------------------------------------- detail state

  /** What the detail screen shows: the deleted view ahead of everything, then spinner,
      error, the task, and nothing when there is no task. */
  datatype DetailView = DeletedView | DetailSpinner | DetailError(message: string) | TaskDetail(task: Task) | Blank

  function DetailScreenContent(isDeleted: bool, isLoading: bool, error: Option<string>, task: Option<Task>): (v: DetailView)
    ensures v.DeletedView? <==> isDeleted
    ensures v.DetailSpinner? <==> !isDeleted && isLoading
    ensures v.DetailError? <==> !isDeleted && !isLoading && error.Some?
    ensures v.TaskDetail? <==> !isDeleted && !isLoading && error.None? && task.Some?
    ensures v.Blank? <==> !isDeleted && !isLoading && error.None? && task.None?
    ensures v.DetailError? ==> v.message == error.value
    ensures v.TaskDetail? ==> v.task == task.value
  {
    if isDeleted then DeletedView
    else if isLoading then DetailSpinner
    else if error.Some? then DetailError(error.value)
    else if task.Some? then TaskDetail(task.value)
    else Blank
  }

  class TaskDetailState {
    const taskId: int
    var task: Option<Task>
    var isLoading: bool
    var error: Option<string>
    var isDeleted: bool

    constructor (taskId: int)
      ensures this.taskId == taskId && task == None && !isLoading && error == None && !isDeleted
    {
      this.taskId := taskId;
      task := None;
      isLoading := false;
      error := None;
      isDeleted := false;
    }

    function View(): DetailView
      reads this
    {
      DetailScreenContent(isDeleted, isLoading, error, task)
    }

    /** TaskDetailState.fetch: unlike the list, a previous error is not cleared; a success
        without a body leaves no task. Loading is off at the end. */
    method Fetch(outcome: Outcome<SingleTaskResponse>)
      modifies this
      ensures !isLoading && isDeleted == old(isDeleted)
      ensures outcome.Success? ==>
                error == old(error) && task == (if outcome.body.Some? then Some(outcome.body.value.data) else None)
      ensures outcome.HttpError? ==> task == old(task) && error == Some(HttpErrorText(outcome.code))
      ensures outcome.Thrown? ==> task == old(task) && error == Some(outcome.message.GetOr(ConnectionError))
    {
      isLoading := true;
      match outcome {
        case Success(body) =>
          task := if body.Some? then Some(body.value.data) else None;
        case HttpError(code) =>
          error := Some(HttpErrorText(code));
        case Thrown(message) =>
          error := Some(message.GetOr(ConnectionError));
      }
      isLoading := false;
    }

    /** TaskDetailState.delete: returns how many times the onSuccess callback ran. A success
        marks the task deleted; nothing ever clears that flag. A failed response sets a
        fixed error; an exception sets its message, which may be absent. */
    method Delete(outcome: Outcome<()>) returns (onSuccessCalls: nat)
      modifies this
      ensures task == old(task) && isLoading == old(isLoading)
      ensures old(isDeleted) ==> isDeleted
      ensures onSuccessCalls == (if outcome.Success? then 1 else 0)
      ensures outcome.Success? ==> isDeleted && error == old(error) && View() == DeletedView
      ensures outcome.HttpError? ==> isDeleted == old(isDeleted) && error == Some(DeleteFailed)
      ensures outcome.Thrown? ==> isDeleted == old(isDeleted) && error == outcome.message
    {
      onSuccessCalls := 0;
      match outcome {
        case Success(_) =>
          isDeleted := true;
          onSuccessCalls := onSuccessCalls + 1;
        case HttpError(_) =>
          error := Some(DeleteFailed);
        case Thrown(message) =>
          error := message;
      }
    }
  }

  // ---------------------------------------------------------------- task card

  const White: int := 0xFFFF_FFFF
  const InProgressColor: int := 0xFFFF_F3E0
  const PendingColor: int := 0xFFE8_F5E8
  const CompletedColor: int := 0xFFE3_F2FD

  /** The card background, chosen from the lower-cased status. */
  function CardColor(status: Option<string>): (c: int)
    ensures c in {White, InProgressColor, PendingColor, CompletedColor}
    ensures c == White <==> status.None? || Lowercase(status.value) !in {"in progress", "pending", "completed"}
  {
    if status.None? then White
    else
      var s := Lowercase(status.value);
      if s == "in progress" then InProgressColor
      else if s == "pending" then PendingColor
      else if s == "completed" then CompletedColor
      else White
  }

  /** The card's check box: `status?.equals("completed", ignoreCase = true) == true`. */
  predicate IsChecked(status: Option<string>) {
    status.Some? && EqualsIgnoreCase(status.value, "completed")
  }

  /** The check box is ticked exactly on the cards coloured as completed. */
  lemma CheckedIffCompletedColor(status: Option<string>)
    ensures IsChecked(status) <==> CardColor(status) == CompletedColor
  {
    if status.Some? {
      var s := status.value;
      var c := "completed";
      assert forall i :: 0 <= i < |c| ==> LowerChar(c[i]) == c[i];
      if EqualsIgnoreCase(s, c) {
        assert Lowercase(s) == c;
      }
      if Lowercase(s) == c {
        assert forall i :: 0 <= i < |s| ==> LowerChar(s[i]) == Lowercase(s)[i];
      }
    }
  }

  // ---------------------------------------------------------------- due date

  /** formatDueDate: "Y-M-DThh:mm..." becomes "hh:mm D/M-YY"; any input the steps cannot
      handle (no 'T', a time part under five characters, fewer than three date fields)
      comes back unchanged, as the catch does. */
  function FormatDueDate(dueDate: string): string {
    var parts := Split(dueDate, 'T');
    if |parts| < 2 then dueDate
    else
      var date := Split(parts[0], '-');
      if |parts[1]| < 5 || |date| < 3 then dueDate
      else parts[1][..5] + " " + date[2] + "/" + date[1] + "-" + TakeLast(date[0], 2)
  }

  /** The card's time text: the formatted due date, or nothing when there is none. */
  function DueText(task: Task): (r: string)
    ensures task.dueDate.None? ==> r == ""
    ensures task.dueDate.Some? && 'T' !in task.dueDate.value ==> r == task.dueDate.value
    ensures task.dueDate.Some? ==> r == FormatDueDate(task.dueDate.value)
  {
    if task.dueDate.None? then ""
    else if 'T' !in task.dueDate.value then
      FormatNoT(task.dueDate.value);
      FormatDueDate(task.dueDate.value)
    else FormatDueDate(task.dueDate.value)
  }

  /** Without a 'T' the input is returned as it is. */
  lemma FormatNoT(s: string)
    requires 'T' !in s
    ensures FormatDueDate(s) == s
  {
    SplitNone(s, 'T');
  }

  /** The input read as a date part, 'T', a time part and an optional remainder that
      starts with another 'T': the result is the first five characters of the time, a
      space, then day/month-year from the first three '-' fields of the date, with the
      last two characters of the year; the input itself when the time part is shorter
      than five characters or the date has fewer than three fields. */
  lemma FormatDueDateShape(d: string, t: string, rest: string)
    requires 'T' !in d && 'T' !in t && (rest == [] || rest[0] == 'T')
    ensures var fields := Split(d, '-');
      FormatDueDate(d + "T" + t + rest) ==
        if |t| < 5 || |fields| < 3 then d + "T" + t + rest
        else t[..5] + " " + fields[2] + "/" + fields[1] + "-" + TakeLast(fields[0], 2)
  {
    SplitDateTime(d, t, rest);
  }

  /** The first two 'T' pieces of such an input are the date and the time parts. */
  lemma SplitDateTime(d: string, t: string, rest: string)
    requires 'T' !in d && 'T' !in t && (rest == [] || rest[0] == 'T')
    ensures var parts := Split(d + "T" + t + rest, 'T');
      |parts| >= 2 && parts[0] == d && parts[1] == t
  {
    assert d + "T" + t + rest == d + ['T'] + (t + rest);
    SplitAt(d, 'T', t + rest);
    if rest == [] {
      assert t + rest == t;
      SplitNone(t, 'T');
    } else {
      assert t + rest == t + ['T'] + rest[1..];
      SplitAt(t, 'T', rest[1..]);
    }
  }

  predicate DigitsAt(s: string, from: nat, to: nat)
    requires from <= to <= |s|
  {
    forall i :: from <= i < to ==> IsDigit(s[i])
  }

  /** An ISO 8601 extended date-time "YYYY-MM-DDThh:mm" (seconds, fraction and offset may
      follow) is shown as "hh:mm DD/MM-YY". */
  lemma FormatIso(s: string)
    requires |s| >= 16
    requires DigitsAt(s, 0, 4) && s[4] == '-' && DigitsAt(s, 5, 7) && s[7] == '-' && DigitsAt(s, 8, 10)
    requires s[10] == 'T' && DigitsAt(s, 11, 13) && s[13] == ':' && DigitsAt(s, 14, 16)
    ensures FormatDueDate(s) == s[11..16] + " " + s[8..10] + "/" + s[5..7] + "-" + s[2..4]
  {
    var date, tail := s[..10], s[11..];
    assert s == date + ['T'] + tail;
    assert 'T' !in date by {
      forall i | 0 <= i < |date| ensures date[i] != 'T' { }
    }
    SplitAt(date, 'T', tail);
    SplitFirst(tail, 'T');
    var p := Split(tail, 'T')[0];
    assert |p| >= 5;
    assert p[..5] == s[11..16];
    assert date == s[..4] + ['-'] + (s[5..7] + ['-'] + s[8..10]);
    assert s[5..7] + ['-'] + s[8..10] == s[5..10];
    assert '-' !in s[..4] by { forall i | 0 <= i < 4 ensures s[..4][i] != '-' { } }
    assert '-' !in s[5..7] by { forall i | 0 <= i < 2 ensures s[5..7][i] != '-' { } }
    assert '-' !in s[8..10] by { forall i | 0 <= i < 2 ensures s[8..10][i] != '-' { } }
    SplitAt(s[..4], '-', s[5..10]);
    SplitAt(s[5..7], '-', s[8..10]);
    SplitNone(s[8..10], '-');
    assert Split(date, '-') == [s[..4], s[5..7], s[8..10]];
  }

  /** The example from the source comment has the ISO shape FormatIso reads. */
  lemma ExampleIsIso(s: string)
    requires s == "2024-03-25T14:00:00"
    ensures |s| >= 16
    ensures DigitsAt(s, 0, 4) && s[4] == '-' && DigitsAt(s, 5, 7) && s[7] == '-' && DigitsAt(s, 8, 10)
    ensures s[10] == 'T' && DigitsAt(s, 11, 13) && s[13] == ':' && DigitsAt(s, 14, 16)
    ensures s[11..16] == "14:00" && s[8..10] == "25" && s[5..7] == "03" && s[2..4] == "24"
  {
  }

  /** The example from the source comment. */
  lemma FormatExample(s: string)
    requires s == "2024-03-25T14:00:00"
    ensures FormatDueDate(s) == "14:00 25/03-24"
  {
    ExampleIsIso(s);
    FormatIso(s);
  }
}
