/**
 The task store: the in-memory list, the storage file it is loaded from and saved to, and
 the command bodies that change or print it. Reading and writing the file are abstracted:
 the file is a Disk value, the JSON encoding is not modelled, and whether a write succeeds
 is a parameter. Each command returns its printed lines and whether it saved.
 */
module TaskStore {
  import opened Wrappers
  import opened Decimal
  import opened Dates
  import opened Tasks
  import opened Render

  /** The storage file: absent, present but unreadable or not a list, or holding a list. */
  datatype Disk = Missing | Unreadable | Holds(tasks: seq<Task>)

  datatype Store = Store(memory: seq<Task>, disk: Disk)

  /** The two fatal conditions; both propagate to the top level of the program. */
  datatype Error = LoadError | SaveError

  /** A command either completes, printing `out` and having saved or not, or stops with an
      error; in both cases `store` is the state it leaves behind. */
  datatype Outcome =
    | Completed(store: Store, saved: bool, out: seq<string>)
    | Failed(store: Store, error: Error)

  const InvalidIndex: string := "Invalid task index"
  const InvalidArgument: string := "Provide a valid task index 🖕🏻"
  const Cleared: string := "All tasks cleared 🧹"

  function AddedMessage(date: string, description: string): string {
    date + ": Task added: " + description
  }

  function MarkedMessage(index: int): string {
    "Task " + IntToString(index + 1) + " marked as done"
  }

  /** The storage file holds exactly the in-memory list. */
  predicate InSync(s: Store) {
    s.disk == Holds(s.memory)
  }

  /** Writes the whole in-memory list to storage, replacing what was there. */
  function Save(s: Store, writeOk: bool): (r: Result<Store, Error>)
    ensures r.Success? <==> writeOk
    ensures r.Success? ==> r.value.memory == s.memory && InSync(r.value)
    ensures r.Failure? ==> r.error == SaveError
  {
    if writeOk then Success(s.(disk := Holds(s.memory))) else Failure(SaveError)
  }

  /** Brings the list into memory: a non-empty in-memory list is used as it is; otherwise the
      file is read, an absent file meaning an empty list and any other failure an error. */
  function Load(s: Store): (r: Result<Store, Error>)
    ensures r.Success? ==> r.value.disk == s.disk
    ensures |s.memory| > 0 ==> r == Success(s)
    ensures s.memory == [] ==> (r.Failure? <==> s.disk.Unreadable?)
    ensures s.memory == [] && s.disk.Missing? ==> r.Success? && r.value.memory == []
    ensures s.memory == [] && s.disk.Holds? ==> r.Success? && InSync(r.value)
    ensures r.Failure? ==> r.error == LoadError
  {
    if |s.memory| > 0 then Success(s)
    else
      match s.disk
      case Missing => Success(s)
      case Unreadable => Failure(LoadError)
      case Holds(tasks) => Success(s.(memory := tasks))
  }

  /** Saves the already changed store; on success prints `out`, on failure stops with the
      error, the change staying in memory only. */
  function Commit(changed: Store, writeOk: bool, out: seq<string>): (r: Outcome)
    ensures r.store.memory == changed.memory
    ensures r.Completed? <==> writeOk
    ensures r.Completed? ==> r.saved && InSync(r.store) && r.out == out
    ensures r.Failed? ==> r.store == changed && r.error == SaveError
  {
    match Save(changed, writeOk)
    case Success(saved) => Completed(saved, true, out)
    case Failure(e) => Failed(changed, e)
  }

  /** `add`: appends a not-done task stamped with today's date, then saves. */
  function AddTask(s: Store, description: string, now: CalendarDate, writeOk: bool): (r: Outcome)
    ensures |r.store.memory| == |s.memory| + 1
    ensures forall i :: 0 <= i < |s.memory| ==> r.store.memory[i] == s.memory[i]
    ensures r.store.memory[|s.memory|] == Task(description, false, FormatDate(now))
    ensures r.Completed? <==> writeOk
    ensures r.Completed? ==> r.saved && InSync(r.store) && r.out == [AddedMessage(FormatDate(now), description)]
    ensures r.Failed? ==> r.store.disk == s.disk
  {
    var date := FormatDate(now);
    Commit(s.(memory := Append(s.memory, description, date)), writeOk, [AddedMessage(date, description)])
  }

  /** `view`: prints the plain listing; nothing changes and nothing is saved. */
  function ViewTasks(s: Store): (r: Outcome)
    ensures r.Completed? && r.store == s && !r.saved
    ensures r.out == View(Plain, s.memory)
  {
    Completed(s, false, View(Plain, s.memory))
  }

  /** markDone on a 0-based index: in range, the task is marked done, the list saved and the
      done listing printed; out of range, only "Invalid task index" is printed. */
  function MarkDoneAt(s: Store, index: int, writeOk: bool): (r: Outcome)
    ensures 0 <= index < |s.memory| ==>
              |r.store.memory| == |s.memory| &&
              r.store.memory[index] == s.memory[index].(done := true) &&
              (forall i :: 0 <= i < |s.memory| && i != index ==> r.store.memory[i] == s.memory[i]) &&
              (r.Completed? <==> writeOk) &&
              (r.Completed? ==> r.saved && InSync(r.store) &&
                                r.out == [MarkedMessage(index)] + View(WithCompletion, r.store.memory)) &&
              (r.Failed? ==> r.store.disk == s.disk)
    ensures !(0 <= index < |s.memory|) ==> r == Completed(s, false, [InvalidIndex])
  {
    if 0 <= index < |s.memory| then
      var changed := s.(memory := MarkDone(s.memory, index));
      Commit(changed, writeOk, [MarkedMessage(index)] + View(WithCompletion, changed.memory))
    else
      Completed(s, false, [InvalidIndex])
  }

  /** `done <n>`: the argument, already parsed as an integer (None when it is not a number),
      names a 1-based position and is passed on as the 0-based index n - 1. */
  function DoneCommand(s: Store, arg: Option<int>, writeOk: bool): (r: Outcome)
    ensures arg.None? ==> r == Completed(s, false, [InvalidArgument])
    ensures arg.Some? && !(1 <= arg.value <= |s.memory|) ==> r == Completed(s, false, [InvalidIndex])
    ensures arg.Some? ==> r == MarkDoneAt(s, arg.value - 1, writeOk)
    ensures arg.Some? && 1 <= arg.value <= |s.memory| ==>
              |r.store.memory| == |s.memory| && r.store.memory[arg.value - 1].done &&
              r.store.memory[arg.value - 1].task == s.memory[arg.value - 1].task &&
              r.store.memory[arg.value - 1].date == s.memory[arg.value - 1].date &&
              (forall i :: 0 <= i < |s.memory| && i != arg.value - 1 ==> r.store.memory[i] == s.memory[i]) &&
              (r.Completed? <==> writeOk) &&
              (r.Completed? ==> r.saved && InSync(r.store) &&
                                r.out == [MarkedMessage(arg.value - 1)] + View(WithCompletion, r.store.memory))
  {
    match arg
    case None => Completed(s, false, [InvalidArgument])
    case Some(n) => MarkDoneAt(s, n - 1, writeOk)
  }

  /** `clear`: empties the list and saves, also when it was already empty. */
  function ClearAll(s: Store, writeOk: bool): (r: Outcome)
    ensures r.store.memory == []
    ensures r.Completed? <==> writeOk
    ensures r.Completed? ==> r.saved && r.store.disk == Holds([]) && r.out == [Cleared]
    ensures r.Failed? ==> r.store.disk == s.disk
  {
    Commit(s.(memory := []), writeOk, [Cleared])
  }

  /** The four commands of the command line. */
  datatype Command = Add(description: string) | List | Done(arg: Option<int>) | Clear

  /** What the program takes from outside: the clock, and whether the file can be written. */
  datatype Environment = Environment(now: CalendarDate, writeOk: bool)

  function Execute(s: Store, cmd: Command, env: Environment): Outcome {
    match cmd
    case Add(description) => AddTask(s, description, env.now, env.writeOk)
    case List => ViewTasks(s)
    case Done(arg) => DoneCommand(s, arg, env.writeOk)
    case Clear => ClearAll(s, env.writeOk)
  }

  /** One invocation of the program: load the file into an empty memory, then run the command. */
  function Run(disk: Disk, cmd: Command, env: Environment): (r: Outcome)
    ensures disk.Unreadable? ==> r == Failed(Store([], disk), LoadError)
  {
    match Load(Store([], disk))
    case Failure(e) => Failed(Store([], disk), e)
    case Success(s) => Execute(s, cmd, env)
  }

  /** The store state machine: a command that saved leaves the file equal to memory, one that
      did not save changed nothing, a failed save left the file as it was, and no command takes
      a task from done back to not done. */
  lemma CommandInvariants(s: Store, cmd: Command, env: Environment)
    ensures var r := Execute(s, cmd, env);
            (r.Completed? && r.saved ==> InSync(r.store)) &&
            (r.Completed? && !r.saved ==> r.store == s) &&
            (r.Failed? ==> r.error == SaveError && r.store.disk == s.disk) &&
            NeverUndone(s.memory, r.store.memory)
  {
  }

  /** Only the mutating commands save: `view`, a non-numeric `done` argument and an
      out-of-range index never write the file. */
  lemma SavedOnlyByMutation(s: Store, cmd: Command, env: Environment)
    ensures var r := Execute(s, cmd, env);
            r.Completed? && r.saved ==>
              cmd.Add? || cmd.Clear? || (cmd.Done? && cmd.arg.Some? && 1 <= cmd.arg.value <= |s.memory|)
  {
  }

  /** What one invocation saves, the next invocation loads. */
  lemma SaveLoadRoundTrip(s: Store)
    ensures Save(s, true).Success?
    ensures Load(Store([], Save(s, true).value.disk)) == Success(Store(s.memory, Holds(s.memory)))
  {
  }

  /** Clearing twice leaves the same state, prints the same and saves just as clearing once,
      whether or not the writes succeed. */
  lemma ClearIdempotent(s: Store, writeOk: bool)
    ensures ClearAll(ClearAll(s, writeOk).store, writeOk) == ClearAll(s, writeOk)
  {
  }

  /** An invocation whose file is absent works on the empty list; one whose file is readable
      works on the list it holds. */
  lemma RunStartsFromFile(disk: Disk, cmd: Command, env: Environment)
    requires !disk.Unreadable?
    ensures Run(disk, cmd, env) == Execute(Store(if disk.Holds? then disk.tasks else [], disk), cmd, env)
  {
  }
}
