/** The news question over whole histories, in which every system update that is
    triggered really runs, on the state the history has built up. */
module NewsHistory {
  import opened Std
  import opened Models
  import opened Executor
  import opened History
  import opened UpdateTrigger
  import Script = UpdateScript
  import Props = UpdateProperties

  /** A trigger of another task, with any outcome; or one of the system update,
      with the scenario and the logging setup of its run. */
  datatype Event =
    | Other(g: Trigger)
    | Update(g: Trigger, x: Script.Scenario, logging: Reply<()>)

  predicate Proper(e: Event) {
    e.Update? <==> e.g.task == Script.NAME
  }

  /** The trigger an event amounts to on a book. `UpdateTrigger.Execute` carries
      out just this one for an update. */
  function TriggerOn(b: Book, e: Event): Trigger {
    match e
    case Other(g) => g
    case Update(g, x, logging) => Filled(g, Scene(b, x), logging)
  }

  /** The triggers of a whole history of events, each on the book it meets. */
  function Triggers(b: Book, es: seq<Event>): (h: History)
    ensures |h| == |es|
  {
    if es == [] then []
    else
      var h := Triggers(b, es[..|es| - 1]);
      h + [TriggerOn(Replay(b, h), es[|es| - 1])]
  }

  /** The book that event `i` meets. */
  function BookBefore(b: Book, es: seq<Event>, i: nat): Book
    requires i <= |es|
  {
    BookAt(b, Triggers(b, es), i)
  }

  lemma {:induction false} TriggersAgree(b: Book, es: seq<Event>, i: nat)
    requires i < |es|
    ensures Triggers(b, es)[..i] == Triggers(b, es[..i])
    ensures Triggers(b, es)[i] == TriggerOn(BookBefore(b, es, i), es[i])
  {
    hide TriggerOn, Replay;
    var init := es[..|es| - 1];
    assert Triggers(b, es)[..|es| - 1] == Triggers(b, init);
    if i < |es| - 1 {
      TriggersAgree(b, init, i);
      assert init[..i] == es[..i];
      assert Triggers(b, es)[..i] == Triggers(b, init)[..i];
    }
  }

  /** Event `i` is an update whose run puts the news question. */
  predicate Asks(b: Book, es: seq<Event>, i: nat)
    requires i < |es|
  {
    && es[i].Update? && es[i].logging.Returns?
    && Decide(BookBefore(b, es, i), es[i].g).Ran?
    && Props.Asked(Scene(BookBefore(b, es, i), es[i].x))
  }

  /** The run inside each update reads the clock within its trigger. */
  predicate InTime(es: seq<Event>) {
    forall i | 0 <= i < |es| && es[i].Update? ::
      es[i].g.checkedAt <= es[i].x.f.newsCheckedAt <= es[i].x.f.answeredAt <= es[i].g.dueFrom
  }

  ghost predicate Sound(b: Book, es: seq<Event>) {
    Clocked(Triggers(b, es)) && InTime(es) && forall e <- es :: Proper(e)
  }

  /** A question that was answered, either way, keeps every later update from
      asking for its cooldown: whatever the outcomes of the runs in between, and
      whether their own questions were answered or not. */
  lemma PromptsAreSpaced(b: Book, es: seq<Event>, i: nat, j: nat)
    requires Sound(b, es) && i < j < |es|
    requires Asks(b, es, i) && es[i].x.f.answer.Returns? && Asks(b, es, j)
    ensures es[j].x.f.newsCheckedAt - es[i].x.f.answeredAt >= es[j].x.settings.cooldownMinutes * MINUTE
  {
    PromptRemembered(b, es, i, j);
  }

  /** What an event does to the recorded prompt time. */
  lemma PromptStep(b: Book, es: seq<Event>, i: nat)
    requires i < |es| && Proper(es[i])
    ensures Entry(BookBefore(b, es, i + 1), Script.NAME).lastNewsPrompt ==
            if Asks(b, es, i) && es[i].x.f.answer.Returns? then Some(es[i].x.f.answeredAt)
            else Entry(BookBefore(b, es, i), Script.NAME).lastNewsPrompt
  {
    hide Triggers, BookAt, Props.Asked, Script.HooksOf;
    var h, e := Triggers(b, es), es[i];
    TriggersAgree(b, es, i);
    BookStep(b, h, i);
    PromptAfter(BookBefore(b, es, i), e);
  }

  lemma PromptAfter(b: Book, e: Event)
    requires Proper(e)
    ensures Entry(After(b, TriggerOn(b, e)), Script.NAME).lastNewsPrompt ==
            if e.Update? && e.logging.Returns? && Decide(b, e.g).Ran? && PromptTime(Scene(b, e.x)).Some?
            then PromptTime(Scene(b, e.x)) else Entry(b, Script.NAME).lastNewsPrompt
  {
    hide PromptTime, Script.HooksOf, Decide, Filled, After, RecordedOutcome;
    match e {
      case Other(g) =>
        OthersUntouched(b, g, Script.NAME);
      case Update(g, x, logging) =>
        if Decide(b, g).Ran? { RunRecords(b, g, Scene(b, x), logging); } else { NotRun(b, g, Scene(b, x), logging); }
    }
  }

  lemma {:induction false} PromptRemembered(b: Book, es: seq<Event>, i: nat, j: nat)
    requires Sound(b, es) && i < j <= |es| && Asks(b, es, i) && es[i].x.f.answer.Returns?
    ensures var last := Entry(BookBefore(b, es, j), Script.NAME).lastNewsPrompt;
            last.Some? && last.value >= es[i].x.f.answeredAt
  {
    hide BookBefore, Asks, Triggers;
    PromptStep(b, es, j - 1);
    if j > i + 1 {
      PromptRemembered(b, es, i, j - 1);
      if Asks(b, es, j - 1) { LaterAnswer(b, es, i, j - 1); }
    }
  }

  lemma LaterAnswer(b: Book, es: seq<Event>, i: nat, j: nat)
    requires Sound(b, es) && i < j < |es| && Asks(b, es, i) && Asks(b, es, j)
    ensures es[i].x.f.answeredAt <= es[j].x.f.answeredAt
  {
    hide BookBefore, Triggers, Props.Asked;
    var h := Triggers(b, es);
    TriggersAgree(b, es, i);
    TriggersAgree(b, es, j);
    assert h[i].recordedAt <= h[j].checkedAt;
  }

  /** A question whose answer never comes (the prompt itself raises) is not
      remembered, so nothing keeps the next run from asking at once. */
  lemma UnansweredPromptIsForgotten(b: Book, es: seq<Event>, i: nat)
    requires i < |es| && Proper(es[i]) && Asks(b, es, i) && es[i].x.f.answer.Raises?
    ensures Props.Made(Props.RunLog(Scene(BookBefore(b, es, i), es[i].x)), Script.NewsConfirm)
    ensures Entry(BookBefore(b, es, i + 1), Script.NAME).lastNewsPrompt
            == Entry(BookBefore(b, es, i), Script.NAME).lastNewsPrompt
  {
    Props.NewsPrompt(Scene(BookBefore(b, es, i), es[i].x));
    PromptStep(b, es, i);
  }
}
