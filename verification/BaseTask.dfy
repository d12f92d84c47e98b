/** The task template: gates, work, follow-up, rollback and the final stop of
    the progress display, for every behaviour of the hooks. */
module BaseTask {
  import opened Std
  import opened Models
  import opened Progress

  datatype TaskResult<+D> = TaskResult(
    status: TaskStatus,
    skipReason: Option<SkipReason>,
    error: Option<string>,
    details: Option<D>,
    duration: int)

  function Success<D>(details: D): TaskResult<D> {
    TaskResult(SUCCESS, None, None, Some(details), 0)
  }

  function Partial<D>(details: D): TaskResult<D> {
    TaskResult(PARTIAL, None, None, Some(details), 0)
  }

  function Failed<D>(error: string, details: Option<D> := None): TaskResult<D> {
    TaskResult(FAILURE, None, Some(error), details, 0)
  }

  function Skipped<D>(reason: Option<SkipReason>): TaskResult<D> {
    TaskResult(SKIPPED, reason, None, None, 0)
  }

  /** A result with the run's duration stamped on it. */
  function Timed<D>(r: TaskResult<D>, startTime: int, now: int): TaskResult<D> {
    r.(duration := now - startTime)
  }

  datatype HookName = PreCheck | ShouldRun | Execute | PostExecute | Rollback

  /** What a run leaves in its log: a hook was entered, a call left the process
      (with the render live or not at that moment), the display was closed. */
  datatype LogEntry<+C> = Hook(name: HookName) | Call(call: C, live: bool) | Closed

  /** The answer of `should_run`. */
  datatype Gate = Proceed | Skip(reason: Option<SkipReason>)

  /** One hook's behaviour: the calls it makes and how it ends. */
  datatype HookRun<+C, +R> = HookRun(calls: seq<LogEntry<C>>, reply: Reply<R>)

  /** The behaviour of all five hooks. `post` returns the result as the hook
      left it, since it may replace the result's details. */
  datatype Hooks<+C, +D> = Hooks(
    pre: HookRun<C, bool>,
    gate: HookRun<C, Gate>,
    exec: HookRun<C, TaskResult<D>>,
    post: HookRun<C, TaskResult<D>>,
    rollback: HookRun<C, ()>)

  // ----- the reference: which hooks a run reaches, in a flat list -----

  /** Both gates passed. */
  predicate Cleared<C, D>(h: Hooks<C, D>) {
    h.pre.reply == Returns(true) && h.gate.reply == Returns(Proceed)
  }

  predicate Reached<C, D>(h: Hooks<C, D>, n: HookName) {
    match n
    case PreCheck => true
    case ShouldRun => h.pre.reply == Returns(true)
    case Execute => Cleared(h)
    case PostExecute => Cleared(h) && h.exec.reply.Returns?
    case Rollback => Escaped(h).Some?
  }

  /** The exception that escaped the reached hooks, if any. */
  function Escaped<C, D>(h: Hooks<C, D>): Option<string> {
    if h.pre.reply.Raises? then Some(h.pre.reply.error)
    else if !h.pre.reply.value then None
    else if h.gate.reply.Raises? then Some(h.gate.reply.error)
    else if h.gate.reply.value.Skip? then None
    else if h.exec.reply.Raises? then Some(h.exec.reply.error)
    else if h.post.reply.Raises? then Some(h.post.reply.error)
    else None
  }

  function CallsOf<C, D>(h: Hooks<C, D>, n: HookName): seq<LogEntry<C>> {
    match n
    case PreCheck => h.pre.calls
    case ShouldRun => h.gate.calls
    case Execute => h.exec.calls
    case PostExecute => h.post.calls
    case Rollback => h.rollback.calls
  }

  function Segment<C, D>(h: Hooks<C, D>, n: HookName): seq<LogEntry<C>> {
    if Reached(h, n) then [Hook(n)] + CallsOf(h, n) else []
  }

  /** Everything the hooks do before any rescue. */
  function Tried<C, D>(h: Hooks<C, D>): seq<LogEntry<C>> {
    Segment(h, PreCheck) + Segment(h, ShouldRun) + Segment(h, Execute) + Segment(h, PostExecute)
  }

  function Body<C, D>(h: Hooks<C, D>): seq<LogEntry<C>> {
    Tried(h) + Segment(h, Rollback)
  }

  function Trace<C, D>(h: Hooks<C, D>): seq<LogEntry<C>> {
    Body(h) + [Closed]
  }

  function Result<C, D>(h: Hooks<C, D>): TaskResult<D> {
    if Escaped(h).Some? then Failed(Escaped(h).value)
    else if Reached(h, PostExecute) then h.post.reply.value
    else if Reached(h, ShouldRun) then Skipped(h.gate.reply.value.reason)
    else Skipped(Some(DEPENDENCY_FAILED))
  }

  /** Hooks call out; they do not enter hooks or close the display themselves. */
  ghost predicate Plain<C, D>(h: Hooks<C, D>) {
    forall n: HookName :: OnlyCalls(CallsOf(h, n))
  }

  predicate OnlyCalls<C>(s: seq<LogEntry<C>>) {
    forall i | 0 <= i < |s| :: s[i].Call?
  }

  /** Each hook is entered once when reached and never otherwise, and the display
      is closed exactly once, as the last thing. */
  lemma EachHookAtMostOnce<C(!new), D(!new)>(h: Hooks<C, D>, n: HookName)
    requires Plain(h)
    ensures Count(Trace(h), Hook(n)) == if Reached(h, n) then 1 else 0
    ensures Count(Trace(h), Closed) == 1 && Trace(h)[|Trace(h)| - 1] == Closed
  {
    hide Segment, Count, Plain;
    CountOverSegments(h, Hook(n));
    CountOverSegments(h, Closed);
    SegmentCount(h, PreCheck, n);
    SegmentCount(h, ShouldRun, n);
    SegmentCount(h, Execute, n);
    SegmentCount(h, PostExecute, n);
    SegmentCount(h, Rollback, n);
    CountOne<C>(Closed, Hook(n));
    CountOne<C>(Closed, Closed);
  }

  lemma CountOne<C>(x: LogEntry<C>, y: LogEntry<C>)
    ensures Count([x], y) == if x == y then 1 else 0
  {
  }

  lemma CountOverSegments<C, D>(h: Hooks<C, D>, x: LogEntry<C>)
    ensures Count(Trace(h), x)
            == Count(Segment(h, PreCheck), x) + Count(Segment(h, ShouldRun), x)
               + Count(Segment(h, Execute), x) + Count(Segment(h, PostExecute), x)
               + Count(Segment(h, Rollback), x) + Count([Closed], x)
  {
  }

  ghost function Count<C>(s: seq<LogEntry<C>>, x: LogEntry<C>): nat {
    multiset(s)[x]
  }

  lemma SegmentCount<C(!new), D(!new)>(h: Hooks<C, D>, m: HookName, n: HookName)
    requires Plain(h)
    ensures Count(Segment(h, m), Hook(n)) == if m == n && Reached(h, n) then 1 else 0
    ensures Count(Segment(h, m), Closed) == 0
  {
  }

  /** The work starts only behind both gates, the follow-up only behind a
      returned result, and the rollback runs iff a reached hook raised; the run
      is then a FAILURE carrying that hook's own error, whatever the rollback
      does. */
  lemma HookDiscipline<C, D>(h: Hooks<C, D>, rollback: HookRun<C, ()>)
    requires Plain(h)
    ensures Hook(Execute) in Body(h) <==> h.pre.reply == Returns(true) && h.gate.reply == Returns(Proceed)
    ensures Hook(PostExecute) in Body(h) <==> Hook(Execute) in Body(h) && h.exec.reply.Returns?
    ensures Hook(Rollback) in Body(h) <==>
              || h.pre.reply.Raises?
              || (Hook(ShouldRun) in Body(h) && h.gate.reply.Raises?)
              || (Hook(Execute) in Body(h) && h.exec.reply.Raises?)
              || (Hook(PostExecute) in Body(h) && h.post.reply.Raises?)
    ensures Hook(Rollback) in Body(h) ==> Result(h).status == FAILURE && Result(h).error == Escaped(h)
    ensures Hook(Rollback) in Body(h) ==> Result(h).skipReason == None && Result(h).details == None
    ensures h.pre.reply == Returns(false) ==> Result(h) == TaskResult(SKIPPED, Some(DEPENDENCY_FAILED), None, None, 0)
    ensures Hook(ShouldRun) in Body(h) && h.gate.reply.Returns? && h.gate.reply.value.Skip? ==>
              Result(h) == TaskResult(SKIPPED, h.gate.reply.value.reason, None, None, 0)
    ensures Hook(PostExecute) in Body(h) && h.post.reply.Returns? ==> Result(h) == h.post.reply.value
    ensures Result(h.(rollback := rollback)) == Result(h)
  {
    forall n: HookName
      ensures Hook(n) in Body(h) <==> Reached(h, n)
    {
      InBody(h, n);
    }
    assert Escaped(h.(rollback := rollback)) == Escaped(h);
  }

  lemma InBody<C, D>(h: Hooks<C, D>, n: HookName)
    requires Plain(h)
    ensures Hook(n) in Body(h) <==> Reached(h, n)
  {
    forall m: HookName
      ensures Hook(n) in Segment(h, m) <==> m == n && Reached(h, n)
    {
      assert OnlyCalls(CallsOf(h, m));
      assert Hook(n) !in CallsOf(h, m);
      if m == n && Reached(h, n) { assert Segment(h, n)[0] == Hook(n); }
    }
  }

  const ORDER := [PreCheck, ShouldRun, Execute, PostExecute, Rollback]

  /** The hooks come in the order of the template, each with its own calls right
      behind it. */
  lemma HooksInOrder<C, D>(h: Hooks<C, D>, i: nat, j: nat)
    returns (a: seq<LogEntry<C>>, b: seq<LogEntry<C>>, c: seq<LogEntry<C>>)
    requires i < j < 5 && Reached(h, ORDER[i]) && Reached(h, ORDER[j])
    ensures Trace(h) == a + [Hook(ORDER[i])] + CallsOf(h, ORDER[i]) + b + [Hook(ORDER[j])] + CallsOf(h, ORDER[j]) + c
  {
    AllSegments(h);
    hide Trace, Reached, CallsOf, Segments;
    SplitSegments(h, 0, i, 5);
    SplitSegments(h, i + 1, j, 5);
    a, b, c := Segments(h, 0, i), Segments(h, i + 1, j), Segments(h, j + 1, 5) + [Closed];
    Flattened(a, [Hook(ORDER[i])], CallsOf(h, ORDER[i]), b, [Hook(ORDER[j])], CallsOf(h, ORDER[j]),
              Segments(h, j + 1, 5), [Closed]);
  }

  lemma Flattened<T>(a: seq<T>, m: seq<T>, p: seq<T>, b: seq<T>, n: seq<T>, q: seq<T>, c: seq<T>, z: seq<T>)
    ensures a + (m + p + (b + (n + q + c))) + z == a + m + p + b + n + q + (c + z)
  {
  }

  /** The segments of the hooks from place `i` up to, not including, place `j`. */
  function Segments<C, D>(h: Hooks<C, D>, i: nat, j: nat): seq<LogEntry<C>>
    requires i <= j <= 5
    decreases j - i
  {
    if i == j then [] else Segment(h, ORDER[i]) + Segments(h, i + 1, j)
  }

  lemma {:induction false} SplitSegments<C, D>(h: Hooks<C, D>, i: nat, k: nat, j: nat)
    requires i <= k < j <= 5
    ensures Segments(h, i, j) == Segments(h, i, k) + (Segment(h, ORDER[k]) + Segments(h, k + 1, j))
    decreases k - i
  {
    hide Segment;
    if i < k { SplitSegments(h, i + 1, k, j); }
  }

  lemma AllSegments<C, D>(h: Hooks<C, D>)
    ensures Trace(h) == Segments(h, 0, 5) + [Closed]
  {
    hide Segment;
    assert Segments(h, 4, 5) == Segment(h, Rollback) + [];
    assert Segments(h, 3, 5) == Segment(h, PostExecute) + Segments(h, 4, 5);
    assert Segments(h, 2, 5) == Segment(h, Execute) + Segments(h, 3, 5);
  }

  // ----- the template itself -----

  /** What the hooks do behind both gates. */
  function BehindGates<C, D>(h: Hooks<C, D>): seq<LogEntry<C>> {
    [Hook(Execute)] + h.exec.calls + (if h.exec.reply.Returns? then [Hook(PostExecute)] + h.post.calls else [])
  }

  /** What the tried hooks log, by how far the run gets. */
  lemma HookByHook<C, D>(h: Hooks<C, D>)
    ensures h.pre.reply != Returns(true) ==> Tried(h) == [Hook(PreCheck)] + h.pre.calls
    ensures h.pre.reply == Returns(true) && !Cleared(h) ==>
              Tried(h) == [Hook(PreCheck)] + h.pre.calls + [Hook(ShouldRun)] + h.gate.calls
    ensures Cleared(h) ==>
              Tried(h) == [Hook(PreCheck)] + h.pre.calls + [Hook(ShouldRun)] + h.gate.calls + BehindGates(h)
  {
  }

  class BaseTask<C, D> {
    const progress: RichProgress
    var log: seq<LogEntry<C>>
    var startTime: int

    constructor (progress: RichProgress)
      ensures this.progress == progress && log == []
    {
      this.progress, log, startTime := progress, [], 0;
    }

    /** Runs one hook: it makes its calls, and leaves this display. */
    method Enter(n: HookName, calls: seq<LogEntry<C>>, left: Display)
      requires left.Sound()
      modifies this`log, progress
      ensures progress.Valid() && log == old(log) + [Hook(n)] + calls
    {
      log := log + [Hook(n)] + calls;
      progress.live, progress.taskId, progress.rows, progress.next := left.live, left.bar, left.rows, left.next;
    }

    method CreateResult(result: TaskResult<D>, now: int) returns (r: TaskResult<D>)
      ensures r == result.(duration := now - startTime)
    {
      r := Timed(result, startTime, now);
    }

    /** `leaves` is the display each hook leaves: any bar, rows and render. */
    method Run(h: Hooks<C, D>, leaves: HookName -> Display, logging: Reply<()>, startedAt: int, endedAt: int)
      returns (r: Reply<TaskResult<D>>)
      requires progress.Valid() && forall n: HookName :: leaves(n).Sound()
      modifies this, progress
      ensures progress.Valid()
      ensures logging.Raises? ==>
                r == Raises(logging.error) && log == old(log) && progress.Value() == old(progress.Value())
      ensures logging.Returns? ==>
                && r == Returns(Result(h).(duration := endedAt - startedAt))
                && log == old(log) + Trace(h)
                && !progress.live && progress.taskId == None
    {
      hide Tried, RichProgress.Valid;
      startTime := startedAt;
      if logging.Raises? { return Raises(logging.error); }
      var outcome := Attempt(h, leaves, endedAt);
      var result;
      match outcome {
        case Returns(done) =>
          result := done;
        case Raises(error) =>
          Enter(Rollback, h.rollback.calls, leaves(Rollback));
          result := CreateResult(Failed(error), endedAt);
      }
      progress.Stop();
      log := log + [Closed];
      r := Returns(result);
    }

    /** The body of the template's `try` block. */
    method Attempt(h: Hooks<C, D>, leaves: HookName -> Display, endedAt: int) returns (r: Reply<TaskResult<D>>)
      requires progress.Valid() && forall n: HookName :: leaves(n).Sound()
      modifies this`log, progress
      ensures progress.Valid()
      ensures r.Raises? <==> Escaped(h).Some?
      ensures r.Raises? ==> Escaped(h) == Some(r.error)
      ensures r.Returns? ==> r.value == Result(h).(duration := endedAt - startTime)
      ensures log == old(log) + Tried(h)
    {
      HookByHook(h);
      hide Tried, BehindGates, RichProgress.Valid;
      Enter(PreCheck, h.pre.calls, leaves(PreCheck));
      if h.pre.reply.Raises? { return Raises(h.pre.reply.error); }
      if !h.pre.reply.value {
        var s := CreateResult(Skipped(Some(DEPENDENCY_FAILED)), endedAt);
        return Returns(s);
      }
      Enter(ShouldRun, h.gate.calls, leaves(ShouldRun));
      if h.gate.reply.Raises? { return Raises(h.gate.reply.error); }
      if h.gate.reply.value.Skip? {
        var s := CreateResult(Skipped(h.gate.reply.value.reason), endedAt);
        return Returns(s);
      }
      r := Work(h, leaves, endedAt);
    }

    /** The work and its follow-up, behind both gates. */
    method Work(h: Hooks<C, D>, leaves: HookName -> Display, endedAt: int) returns (r: Reply<TaskResult<D>>)
      requires progress.Valid() && forall n: HookName :: leaves(n).Sound()
      requires Cleared(h)
      modifies this`log, progress
      ensures progress.Valid()
      ensures r.Raises? <==> Escaped(h).Some?
      ensures r.Raises? ==> Escaped(h) == Some(r.error)
      ensures r.Returns? ==> r.value == Result(h).(duration := endedAt - startTime)
      ensures log == old(log) + BehindGates(h)
    {
      hide RichProgress.Valid;
      Enter(Execute, h.exec.calls, leaves(Execute));
      if h.exec.reply.Raises? { return Raises(h.exec.reply.error); }
      Enter(PostExecute, h.post.calls, leaves(PostExecute));
      if h.post.reply.Raises? { return Raises(h.post.reply.error); }
      var done := CreateResult(h.post.reply.value, endedAt);
      return Returns(done);
    }
  }
}
