/** The progress display: one live/paused render shared by the step bar, the
    query spinners and the pause brackets around prompts. */
module Progress {
  import opened Std

  /** The value of a `RichProgress`: whether the render is started, the bar's
      row, every row with its completed steps, and the next row id. */
  datatype Display = Display(live: bool, bar: Option<nat>, rows: map<nat, nat>, next: nat) {
    /** Row ids are never reused and the bar's row is never removed. */
    ghost predicate Sound() {
      && (forall r <- rows :: r < next)
      && (bar.Some? ==> bar.value in rows)
    }

    predicate Showing() { bar.Some? && live }

    function Started(): Display { Display(true, Some(next), rows[next := 0], next + 1) }

    function Resumed(): Display { this.(live := true) }

    function Halted(): Display { this.(live := false) }

    function Stopped(): Display { this.(live := false, bar := None) }

    function Advanced(): Display
      requires Sound()
    {
      if bar.Some? then this.(rows := rows[bar.value := rows[bar.value] + 1]) else this
    }

    function SpinnerOpened(): Display { this.(live := true, rows := rows[next := 0], next := next + 1) }

    function SpinnerClosed(row: nat, wasShowing: bool): Display {
      this.(live := live && wasShowing, rows := rows - {row})
    }
  }

  class RichProgress {
    var live: bool
    var taskId: Option<nat>
    var rows: map<nat, nat>
    var next: nat

    ghost function Value(): Display
      reads this
    {
      Display(live, taskId, rows, next)
    }

    ghost predicate Valid()
      reads this
    {
      Value().Sound()
    }

    constructor ()
      ensures Valid() && Value() == Display(false, None, map[], 0)
    {
      live, taskId, rows, next := false, None, map[], 0;
    }

    method AddTask() returns (row: nat)
      requires Valid()
      modifies this
      ensures Valid() && row == old(next)
      ensures Value() == old(Value()).(rows := old(rows)[row := 0], next := row + 1)
    {
      row := next;
      rows, next := rows[row := 0], next + 1;
    }

    method Start()
      requires Valid()
      modifies this
      ensures Valid() && Value() == old(Value()).Started()
      ensures live && taskId == Some(old(next)) && rows == old(rows)[old(next) := 0]
    {
      live := true;
      var row := AddTask();
      taskId := Some(row);
    }

    method PauseEnter()
      requires Valid()
      modifies this
      ensures Valid() && Value() == old(Value()).Halted()
      ensures !live && taskId == old(taskId) && rows == old(rows)
    {
      live := false;
    }

    method PauseExit()
      requires Valid()
      modifies this
      ensures Valid() && Value() == old(Value()).Resumed()
      ensures live && taskId == old(taskId) && rows == old(rows)
    {
      live := true;
    }

    method Advance()
      requires Valid()
      modifies this
      ensures Valid() && Value() == old(Value()).Advanced()
      ensures live == old(live) && taskId == old(taskId)
      ensures rows == if taskId.Some? then old(rows)[taskId.value := old(rows)[taskId.value] + 1] else old(rows)
    {
      if taskId.Some? {
        rows := rows[taskId.value := rows[taskId.value] + 1];
      }
    }

    method SpinnerEnter() returns (row: nat, wasShowing: bool)
      requires Valid()
      modifies this
      ensures Valid() && Value() == old(Value()).SpinnerOpened()
      ensures row == old(next) && wasShowing == (old(taskId).Some? && old(live))
      ensures live && taskId == old(taskId) && rows == old(rows)[row := 0]
    {
      wasShowing := taskId.Some? && live;
      live := true;
      row := AddTask();
    }

    method SpinnerExit(row: nat, wasShowing: bool)
      requires Valid() && taskId != Some(row)
      modifies this
      ensures Valid() && Value() == old(Value()).SpinnerClosed(row, wasShowing)
      ensures live == (old(live) && wasShowing) && taskId == old(taskId) && rows == old(rows) - {row}
    {
      rows := rows - {row};
      if !wasShowing {
        live := false;
      }
    }

    method Stop()
      requires Valid()
      modifies this
      ensures Valid() && Value() == old(Value()).Stopped()
      ensures !live && taskId == None && rows == old(rows)
    {
      live := false;
      taskId := None;
    }
  }

  /** The render a run finds, and whether a spinner that is opened in it leaves it
      live: only what was showing stays. */
  datatype Shown = Shown(before: bool, keeps: bool) {
    predicate After() { before && keeps }
  }

  const STOPPED := Shown(false, false)

  // ----- every well-nested program of brackets, prompts and exceptions -----

  datatype Code =
    | Idle
    | Prompt
    | Step
    | Throw
    | Then(first: Code, second: Code)
    | Pause(body: Code)
    | Spinner(body: Code)

  /** How a piece of code ends: the display it leaves, whether the render was
      live at each prompt it reached, and whether an exception escaped it. */
  datatype Ending = Ending(display: Display, seen: seq<bool>, thrown: bool)

  function Exec(c: Code, d: Display): (e: Ending)
    requires d.Sound()
    ensures e.display.Sound() && e.display.bar == d.bar && e.display.next >= d.next
    ensures forall r <- d.rows :: r in e.display.rows
  {
    match c
    case Idle => Ending(d, [], false)
    case Prompt => Ending(d, [d.live], false)
    case Step => Ending(d.Advanced(), [], false)
    case Throw => Ending(d, [], true)
    case Then(p, q) =>
      var e := Exec(p, d);
      if e.thrown then e
      else
        var f := Exec(q, e.display);
        f.(seen := e.seen + f.seen)
    case Pause(p) =>
      var e := Exec(p, d.Halted());
      e.(display := e.display.Resumed())
    case Spinner(p) =>
      var e := Exec(p, d.SpinnerOpened());
      e.(display := e.display.SpinnerClosed(d.next, d.Showing()))
  }

  /** Whatever runs under a showing bar, exceptions included, leaves the bar
      showing, and leaves exactly the rows it found: spinners remove their own
      row and only the bar's count moves. */
  lemma {:induction false} BarSurvives(c: Code, d: Display)
    requires d.Sound() && d.Showing()
    ensures Exec(c, d).display.Showing()
    ensures SameRows(d, Exec(c, d).display)
  {
    RowsKept(c, d);
    LiveKept(c, d);
  }

  predicate SameRows(d: Display, e: Display) {
    e.rows.Keys == d.rows.Keys && forall r <- d.rows :: Some(r) != d.bar ==> e.rows[r] == d.rows[r]
  }

  lemma {:induction false} RowsKept(c: Code, d: Display)
    requires d.Sound()
    ensures SameRows(d, Exec(c, d).display)
  {
    match c
    case Idle =>
    case Prompt =>
    case Step =>
    case Throw =>
    case Then(p, q) =>
      RowsKept(p, d);
      RowsKept(q, Exec(p, d).display);
    case Pause(p) =>
      RowsKept(p, d.Halted());
    case Spinner(p) =>
      RowsKept(p, d.SpinnerOpened());
  }

  lemma {:induction false} LiveKept(c: Code, d: Display)
    requires d.Sound() && d.bar.Some? && d.live
    ensures Exec(c, d).display.live
  {
    match c
    case Idle =>
    case Prompt =>
    case Step =>
    case Throw =>
    case Then(p, q) =>
      LiveKept(p, d);
      LiveKept(q, Exec(p, d).display);
    case Pause(_) =>
    case Spinner(p) =>
      LiveKept(p, d.SpinnerOpened());
  }

  /** A spinner that did not find the bar showing stops the render on exit,
      whatever ran in its body. With no bar this holds inside another spinner
      too, so a nested cold spinner stops its parent's render. */
  lemma ColdSpinnerStops(p: Code, d: Display)
    requires d.Sound() && !d.Showing()
    ensures !Exec(Spinner(p), d).display.live
    ensures d.bar.None? ==> !Exec(Spinner(p), d.SpinnerOpened()).display.live
  {
  }

  /** Code whose prompts all sit directly inside a pause bracket. */
  predicate Guarded(c: Code) {
    match c
    case Prompt => false
    case Then(p, q) => Guarded(p) && Guarded(q)
    case Pause(p) => Quiet(p)
    case Spinner(p) => Guarded(p)
    case _ => true
  }

  /** A pause body: it may prompt, but opens no further pause bracket of its own
      (whose exit would restart the render under a later prompt). */
  predicate Quiet(c: Code) {
    match c
    case Then(p, q) => Quiet(p) && Quiet(q)
    case Pause(_) => false
    case Spinner(p) => Guarded(p)
    case _ => true
  }

  /** The bracket discipline is enough: guarded code never prompts under a live
      render, from any display, and a pause body keeps the render stopped. */
  lemma {:induction false} GuardedPromptsAreClean(c: Code, d: Display)
    requires d.Sound() && (Guarded(c) || (Quiet(c) && !d.live))
    ensures forall live <- Exec(c, d).seen :: !live
    ensures Quiet(c) && !d.live ==> !Exec(c, d).display.live
  {
    match c
    case Idle =>
    case Prompt =>
    case Step =>
    case Throw =>
    case Then(p, q) =>
      GuardedPromptsAreClean(p, d);
      GuardedPromptsAreClean(q, Exec(p, d).display);
    case Pause(p) =>
      if Guarded(c) { GuardedPromptsAreClean(p, d.Halted()); }
    case Spinner(p) =>
      GuardedPromptsAreClean(p, d.SpinnerOpened());
  }
}
