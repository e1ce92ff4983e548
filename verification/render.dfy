/**
 The two listings of the task list: the plain view (number, description, status glyph, date)
 and the done view (number, description, status glyph, and a completion annotation on done
 tasks that carry a date). Console output is modelled as the sequence of printed lines.
 */
module Render {
  import opened Decimal
  import opened Tasks

  const NoTasks: string := "No tasks to show 🥳"
  const DoneGlyph: char := '✅'
  const OpenGlyph: char := '❌'
  const CompletedOn: string := " (Completed on: "

  /** Which of the two listings is being printed. */
  datatype Style = Plain | WithCompletion

  function Glyph(done: bool): (c: char)
    ensures c == DoneGlyph <==> done
    ensures c == OpenGlyph <==> !done
  {
    if done then DoneGlyph else OpenGlyph
  }

  /** What both listings print after the number: ". ", the description, " " and the glyph. */
  function Label(t: Task): string {
    ". " + t.task + " " + [Glyph(t.done)]
  }

  /** The part of a line both listings share, for the task at 0-based position k. */
  function Header(k: nat, t: Task): string {
    NatToString(k + 1) + Label(t)
  }

  /** The done view's annotation: present only for a done task whose date is non-empty. */
  function DateInfo(t: Task): string {
    if t.done && t.date != "" then CompletedOn + t.date + ")" else ""
  }

  /** What a listing prints after the shared header. */
  function Trailer(style: Style, t: Task): string {
    match style
    case Plain => " " + t.date
    case WithCompletion => DateInfo(t)
  }

  /** The line printed for the task at 0-based position k. */
  function Line(style: Style, k: nat, t: Task): string {
    NatToString(k + 1) + (Label(t) + Trailer(style, t))
  }

  /** The forEach over the list: one line per task, in list order, numbered from start + 1. */
  function Lines(style: Style, todos: seq<Task>, start: nat): (r: seq<string>)
    ensures |r| == |todos|
    ensures forall i :: 0 <= i < |todos| ==> r[i] == Line(style, start + i, todos[i])
  {
    if todos == [] then [] else [Line(style, start, todos[0])] + Lines(style, todos[1..], start + 1)
  }

  /** The lines a listing prints: a single notice for an empty list, else one line per task. */
  function View(style: Style, todos: seq<Task>): (r: seq<string>)
    ensures todos == [] ==> r == [NoTasks]
    ensures todos != [] ==> |r| == |todos| && forall i :: 0 <= i < |todos| ==> r[i] == Line(style, i, todos[i])
  {
    if |todos| == 0 then [NoTasks] else Lines(style, todos, 0)
  }

  /** The leading run of digits of a line, read as a number (0 when there is none). */
  function LeadingNumber(line: string): nat {
    ParseNat(LeadingDigits(line))
  }

  function LeadingDigits(s: string): (r: string)
    ensures AllDigits(r)
  {
    if s == [] || !IsDigit(s[0]) then [] else [s[0]] + LeadingDigits(s[1..])
  }

  lemma {:induction false} LeadingDigitsOf(a: string, b: string)
    requires AllDigits(a) && |b| > 0 && !IsDigit(b[0])
    ensures LeadingDigits(a + b) == a
  {
    if a != [] {
      assert (a + b)[1..] == a[1..] + b;
      LeadingDigitsOf(a[1..], b);
    }
  }

  /** In either listing of a non-empty list, line k starts with the number k + 1. */
  lemma ViewNumbering(style: Style, todos: seq<Task>, k: nat)
    requires k < |todos|
    ensures LeadingNumber(View(style, todos)[k]) == k + 1
  {
    var t := todos[k];
    var rest := Label(t) + Trailer(style, t);
    assert rest[0] == '.';
    LeadingDigitsOf(NatToString(k + 1), rest);
  }

  /** The "No tasks to show" notice is printed exactly when the list is empty. */
  lemma NoticeOnlyWhenEmpty(style: Style, todos: seq<Task>)
    ensures View(style, todos) == [NoTasks] <==> todos == []
    ensures todos != [] ==> NoTasks !in View(style, todos)
  {
    if todos != [] {
      forall k | 0 <= k < |todos|
        ensures View(style, todos)[k] != NoTasks
      {
        var line := View(style, todos)[k];
        assert line[0] == NatToString(k + 1)[0];
        assert IsDigit(line[0]) && !IsDigit(NoTasks[0]);
      }
      var line := View(style, todos)[0];
      assert line[0] == NatToString(1)[0];
      assert IsDigit(line[0]) && !IsDigit(NoTasks[0]);
    }
  }

  /** The format of a printed line: k + 1, ". ", the description, " " and the glyph, then
      " " and the date in the plain view or the completion annotation in the done view. */
  lemma LineShape(style: Style, k: nat, t: Task)
    ensures Line(style, k, t) == Header(k, t) + Trailer(style, t)
    ensures Header(k, t) == NatToString(k + 1) + ". " + t.task + " " + [Glyph(t.done)]
    ensures Trailer(style, t) == if style.Plain? then " " + t.date else DateInfo(t)
    ensures |Header(k, t)| > 0 && Header(k, t)[|Header(k, t)| - 1] == Glyph(t.done)
  {
  }

  /** In the plain view, the character just before " " and the date is the glyph, and it is a
      check mark exactly when the task is done. */
  lemma PlainStatus(todos: seq<Task>, k: nat)
    requires k < |todos|
    ensures var line := View(Plain, todos)[k]; var p := |line| - |todos[k].date| - 2;
            0 <= p && line[p + 1..] == " " + todos[k].date &&
            (line[p] == DoneGlyph <==> todos[k].done) && (line[p] == OpenGlyph <==> !todos[k].done)
  {
    var t := todos[k];
    var h := Header(k, t);
    LineShape(Plain, k, t);
    var line := View(Plain, todos)[k];
    assert line == h + (" " + t.date);
    assert line[|h| - 1] == h[|h| - 1];
  }

  /** In the done view, the last character of the shared header is the glyph, and it is a check
      mark exactly when the task is done. */
  lemma DoneViewStatus(todos: seq<Task>, k: nat)
    requires k < |todos|
    ensures var line := View(WithCompletion, todos)[k]; var p := |Header(k, todos[k])| - 1;
            0 <= p < |line| && (line[p] == DoneGlyph <==> todos[k].done) && (line[p] == OpenGlyph <==> !todos[k].done)
  {
    var t := todos[k];
    var h := Header(k, t);
    LineShape(WithCompletion, k, t);
    var line := View(WithCompletion, todos)[k];
    assert line == h + DateInfo(t);
    assert line[|h| - 1] == h[|h| - 1];
  }

  /** A done-view line ends with ')' exactly when it carries the completion annotation, which is
      exactly when the task is done and has a non-empty date; the annotation then quotes the date. */
  lemma CompletionAnnotation(todos: seq<Task>, k: nat)
    requires k < |todos|
    ensures var line := View(WithCompletion, todos)[k]; var t := todos[k];
            (line[|line| - 1] == ')' <==> t.done && t.date != "") &&
            (t.done && t.date != "" ==> line == Header(k, t) + CompletedOn + t.date + ")") &&
            (!(t.done && t.date != "") ==> line == Header(k, t))
  {
    var t := todos[k];
    var h := Header(k, t);
    LineShape(WithCompletion, k, t);
    var line := View(WithCompletion, todos)[k];
    assert line == h + DateInfo(t);
    if t.done && t.date != "" {
      assert line == h + CompletedOn + t.date + ")";
    } else {
      assert line == h;
    }
  }

  /** The two listings agree line by line on number, description and glyph; they differ only
      in what follows: " " and the date in the plain view, the annotation in the done view. */
  lemma ViewsShareHeaders(todos: seq<Task>, k: nat)
    requires k < |todos|
    ensures var h := Header(k, todos[k]);
            View(Plain, todos)[k] == h + " " + todos[k].date &&
            View(WithCompletion, todos)[k] == h + DateInfo(todos[k])
  {
    LineShape(Plain, k, todos[k]);
    LineShape(WithCompletion, k, todos[k]);
  }
}
