/** End-to-end runs of the program over consecutive invocations, each starting from the file
    the previous one left behind. */
module Scenarios {
  import opened Wrappers
  import Decimal
  import opened Dates
  import opened Tasks
  import opened Render
  import opened TaskStore

  /** The plain listing of a one-task list. */
  lemma SingleLine(t: Task)
    ensures View(Plain, [t]) == ["1. " + t.task + " " + [Glyph(t.done)] + " " + t.date]
  {
    var g := [Glyph(t.done)];
    assert Decimal.NatToString(1) == "1";
    assert View(Plain, [t])[0] == Line(Plain, 0, t);
    assert Line(Plain, 0, t) == "1" + ((". " + t.task + " " + g) + (" " + t.date));
    assert "1" + ((". " + t.task + " " + g) + (" " + t.date)) == "1. " + t.task + " " + g + " " + t.date;
  }

  lemma AddToMissing(description: string, env: Environment)
    requires env.writeOk
    ensures Run(Missing, Add(description), env).store.disk == Holds([Task(description, false, FormatDate(env.now))])
  {
  }

  lemma ListOne(t: Task, env: Environment)
    ensures Run(Holds([t]), List, env).store.disk == Holds([t])
    ensures Run(Holds([t]), List, env).out == ["1. " + t.task + " " + [Glyph(t.done)] + " " + t.date]
  {
    SingleLine(t);
  }

  lemma DoneFirst(t: Task, env: Environment)
    requires env.writeOk
    ensures Run(Holds([t]), Done(Some(1)), env).store.disk == Holds([t.(done := true)])
  {
  }

  lemma ClearAny(tasks: seq<Task>, env: Environment)
    requires env.writeOk
    ensures Run(Holds(tasks), Clear, env).store.disk == Holds([])
  {
  }

  /** add, view, done 1, view, clear, starting without a storage file. */
  lemma BuyMilkScenario(now: CalendarDate)
    ensures var env := Environment(now, true);
            var date := FormatDate(now);
            var r1 := Run(Missing, Add("buy milk"), env);
            var r2 := Run(r1.store.disk, List, env);
            var r3 := Run(r2.store.disk, Done(Some(1)), env);
            var r4 := Run(r3.store.disk, List, env);
            var r5 := Run(r4.store.disk, Clear, env);
            r1.store.disk == Holds([Task("buy milk", false, date)]) &&
            r2.out == ["1. buy milk ❌ " + date] &&
            r3.store.disk == Holds([Task("buy milk", true, date)]) &&
            r4.out == ["1. buy milk ✅ " + date] &&
            r5.store.disk == Holds([])
  {
    var env := Environment(now, true);
    var date := FormatDate(now);
    var open, closed := Task("buy milk", false, date), Task("buy milk", true, date);
    var r1 := Run(Missing, Add("buy milk"), env);
    AddToMissing("buy milk", env);
    assert r1.store.disk == Holds([open]);
    var r2 := Run(r1.store.disk, List, env);
    ListOne(open, env);
    OpenLineText(date);
    assert r2.store.disk == Holds([open]) && r2.out == ["1. buy milk ❌ " + date];
    var r3 := Run(r2.store.disk, Done(Some(1)), env);
    DoneFirst(open, env);
    assert r3.store.disk == Holds([closed]);
    var r4 := Run(r3.store.disk, List, env);
    ListOne(closed, env);
    ClosedLineText(date);
    assert r4.store.disk == Holds([closed]) && r4.out == ["1. buy milk ✅ " + date];
    ClearAny([closed], env);
  }

  lemma OpenLineText(date: string)
    ensures "1. " + "buy milk" + " " + [Glyph(false)] + " " + date == "1. buy milk ❌ " + date
  {
  }

  lemma ClosedLineText(date: string)
    ensures "1. " + "buy milk" + " " + [Glyph(true)] + " " + date == "1. buy milk ✅ " + date
  {
  }

  /** `done 5` on a two-task list reports an invalid index and writes nothing. */
  lemma DoneOutOfRangeScenario(a: Task, b: Task, env: Environment)
    ensures Run(Holds([a, b]), Done(Some(5)), env) == Completed(Store([a, b], Holds([a, b])), false, [InvalidIndex])
  {
  }

  /** `done abc` is refused before any task is touched, and nothing is written. */
  lemma DoneNonNumericScenario(tasks: seq<Task>, env: Environment)
    ensures Run(Holds(tasks), Done(None), env) == Completed(Store(tasks, Holds(tasks)), false, [InvalidArgument])
  {
  }
}
