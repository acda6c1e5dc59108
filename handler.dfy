/**
 * One invocation of `check`: read the previous state, extract and solve the
 * challenge script, install the cookie header, scrape every ticket type's
 * calendar in order, notify on changes, report to the health check and save
 * the new state. Every network and storage call is an input (`Env`); every
 * outward call the run makes is recorded as an `Effect`.
 */
module Handler {
  import opened Wrappers
  import opened AssocList
  import opened Html
  import opened JsValues
  import opened Cookies
  import opened Decision
  import ScriptExtractor
  import Calendar
  import Notification

  /** SIGNAL_START, SIGNAL_FAIL and SIGNAL_SUCCESS. */
  datatype Signal = SignalStart | SignalFail | SignalSuccess

  /**
   * The body of a health-check POST: the note "No changes", another string,
   * or the JSON of the new state.
   */
  datatype HealthBody = NoChangesNote | PlainText(text: string) | JsonSnapshot(snapshot: Snapshot)

  /** The outward calls of a run, in the order they are issued. */
  datatype Effect =
    | Notify(ticketType: string, dates: seq<string>)  // sendToTelegram(Notification.Message(ticketType, dates))
    | Health(signal: Signal, body: HealthBody)        // sendHealthCheck
    | SaveState(snapshot: Snapshot)                   // saveStateToS3

  /**
   * What the outside world answers. `readState` is the parsed `state.json`
   * (`Null` when the key does not exist, a failure for any other error);
   * `challengePage` and `calendar` are the token streams of the fetched
   * pages (a failure when the fetch throws); `solve` is the challenge
   * solver, giving the `octofence_jslc` value and the fingerprint;
   * `callError` is the error an awaited outward call throws, if any, given
   * the call's position among all outward calls of the run (so the same
   * call made twice may succeed once and throw once).
   */
  datatype Env = Env(
    readState: Result<Value>,
    challengePage: Result<seq<Event>>,
    solve: string -> Result<(string, string)>,
    calendar: string -> Result<seq<Event>>,
    callError: (nat, Effect) -> Option<string>)

  datatype ResponseBody = SnapshotBody(snapshot: Snapshot) | MessageBody(message: string)
  datatype Response = Response(statusCode: int, body: ResponseBody)

  /** `check` resolves with a response, or rejects when reporting a failure itself fails. */
  datatype Outcome = Returned(response: Response) | Rejected(error: string)

  /** The keys of `URLs`, in the order `for ... in` visits them. */
  const TicketTypes: seq<string> := ["full", "simple"]

  /** `catchDates` then `filterAvailableDates` for one ticket type. */
  function ExtractDates(env: Env, ticketType: string): Result<seq<string>>
  {
    match env.calendar(ticketType)
    case Failure(error) => Failure(error)
    case Success(page) =>
      match Calendar.CalendarOf(page)
      case Failure(error) => Failure(error)
      case Success(status) => Success(Calendar.AvailableKeys(status))
  }

  /** The call made for one ticket type: a notification if its list changed, else a health check. */
  function TypeEffect(previous: Value, entry: (string, seq<string>)): Effect
  {
    if Changed(previous, entry) then Notify(entry.0, entry.1)
    else Health(SignalSuccess, NoChangesNote)
  }

  /** The state of the ticket-type loop, and the error that ended it early, if any. */
  datatype Progress = Progress(decision: Decision, effects: seq<Effect>, error: Option<string>)

  /** One ticket type, whose outward call, if it makes one, is call number `at` of the run. */
  function TypeStep(env: Env, previous: Value, at: nat, p: Progress, ticketType: string): Progress
  {
    match ExtractDates(env, ticketType)
    case Failure(error) => p.(error := Some(error))
    case Success(dates) =>
      var e := TypeEffect(previous, (ticketType, dates));
      Progress(DecideStep(previous, p.decision, (ticketType, dates)), p.effects + [e], env.callError(at, e))
  }

  /** The position of the next outward call, when `base` calls preceded the loop. */
  function NextCall(base: nat, p: Progress): nat
  {
    base + |p.effects|
  }

  /** The loop over the ticket types, stopping at the first error; `base` calls were made before it. */
  function RunTypes(env: Env, previous: Value, base: nat, types: seq<string>): Progress
  {
    if types == [] then Progress(Unchanged, [], None)
    else
      var n := |types| - 1;
      var p := RunTypes(env, previous, base, types[..n]);
      if p.error.Some? then p else TypeStep(env, previous, NextCall(base, p), p, types[n])
  }

  /** A run: its outcome, the calls it made and the `Cookie` header it leaves. */
  datatype Run = Run(outcome: Outcome, effects: seq<Effect>, cookie: Option<string>)

  /** The `catch` block: report the failure, answer 500. */
  function Abort(env: Env, effects: seq<Effect>, error: string, cookie: Option<string>): Run
  {
    var report := Health(SignalFail, PlainText(error));
    var outcome := match env.callError(|effects|, report)
      case Some(e) => Rejected(e)
      case None => Returned(Response(500, MessageBody(error)));
    Run(outcome, effects + [report], cookie)
  }

  /** After all ticket types: the summary health check, the save, the 200 response. */
  function Finish(env: Env, effects: seq<Effect>, snapshot: Snapshot, hasChanges: bool, cookie: Option<string>): Run
  {
    var summary := Summary(snapshot, hasChanges);
    var save := SaveState(snapshot);
    match env.callError(|effects|, summary)
    case Some(error) => Abort(env, effects + [summary], error, cookie)
    case None =>
      match env.callError(|effects| + 1, save)
      case Some(error) => Abort(env, effects + [summary, save], error, cookie)
      case None => Run(Returned(Response(200, SnapshotBody(snapshot))), effects + [summary, save], cookie)
  }

  /** What follows the ticket-type loop: the `catch` block if it threw, else the summary and the save. */
  function AfterLoop(env: Env, p: Progress, effects: seq<Effect>, cookie: Option<string>): Run
  {
    if p.error.Some? then Abort(env, effects + p.effects, p.error.value, cookie)
    else Finish(env, effects + p.effects, p.decision.snapshot, p.decision.hasChanges, cookie)
  }

  /** Everything after the cookie header is installed. */
  function AfterSolve(env: Env, previous: Value, types: seq<string>, effects: seq<Effect>, cookie: Option<string>): Run
  {
    AfterLoop(env, RunTypes(env, previous, |effects|, types), effects, cookie)
  }

  /** The whole of `check`, given the `Cookie` header left by the previous run. */
  function RunCheck(env: Env, types: seq<string>, cookie: Option<string>): Run
  {
    var started := [Health(SignalStart, PlainText(""))];
    match env.readState
    case Failure(error) => Abort(env, started, error, cookie)
    case Success(read) =>
      match env.challengePage
      case Failure(error) => Abort(env, started, error, cookie)
      case Success(page) =>
        match env.solve(ScriptExtractor.FirstScript(page))
        case Failure(error) => Abort(env, started, error, cookie)
        case Success(solved) =>
          AfterSolve(env, PreviousState(read), types, started, Some(CookieHeader(SolverCookies(solved.0, solved.1))))
  }

  // ---------------------------------------------------------------------
  // The ticket-type loop.

  lemma RunTypesSnoc(env: Env, previous: Value, base: nat, types: seq<string>, i: nat)
    requires i < |types|
    ensures var p := RunTypes(env, previous, base, types[..i]);
      RunTypes(env, previous, base, types[..i + 1]) == if p.error.Some? then p else TypeStep(env, previous, NextCall(base, p), p, types[i])
  {
    assert types[..i + 1][..i] == types[..i];
  }

  /** Once a ticket type failed, the later ones are never reached. */
  lemma {:induction false} RunTypesStops(env: Env, previous: Value, base: nat, types: seq<string>, k: nat)
    requires k <= |types| && RunTypes(env, previous, base, types[..k]).error.Some?
    ensures RunTypes(env, previous, base, types) == RunTypes(env, previous, base, types[..k])
    decreases |types|
  {
    if k == |types| {
      assert types[..k] == types;
    } else {
      var n := |types| - 1;
      var front := types[..n];
      assert front[..k] == types[..k];
      RunTypesStops(env, previous, base, front, k);
      RunTypesStuck(env, previous, base, types);
    }
  }

  lemma RunTypesStuck(env: Env, previous: Value, base: nat, types: seq<string>)
    requires types != [] && RunTypes(env, previous, base, types[..|types| - 1]).error.Some?
    ensures RunTypes(env, previous, base, types) == RunTypes(env, previous, base, types[..|types| - 1])
  {
  }

  /** The dates extracted for a ticket type, or none if extraction failed. */
  function DatesOrNone(env: Env, ticketType: string): seq<string>
  {
    match ExtractDates(env, ticketType)
    case Success(dates) => dates
    case Failure(_) => []
  }

  /** The dates extracted for each ticket type, in order. */
  function Extracted(env: Env, types: seq<string>): Snapshot
  {
    seq(|types|, i requires 0 <= i < |types| => (types[i], DatesOrNone(env, types[i])))
  }

  lemma ExtractedSnoc(env: Env, types: seq<string>)
    requires types != []
    ensures var n := |types| - 1;
      Extracted(env, types) == Extracted(env, types[..n]) + [(types[n], DatesOrNone(env, types[n]))]
  {
  }

  function TypeEffects(previous: Value, lists: Snapshot): seq<Effect>
  {
    seq(|lists|, i requires 0 <= i < |lists| => TypeEffect(previous, lists[i]))
  }

  lemma TypeEffectsSnoc(previous: Value, lists: Snapshot)
    requires lists != []
    ensures var n := |lists| - 1;
      TypeEffects(previous, lists) == TypeEffects(previous, lists[..n]) + [TypeEffect(previous, lists[n])]
  {
  }

  lemma LastTypeExtracted(env: Env, previous: Value, base: nat, types: seq<string>)
    requires types != [] && RunTypes(env, previous, base, types).error.None?
    ensures RunTypes(env, previous, base, types[..|types| - 1]).error.None?
    ensures ExtractDates(env, types[|types| - 1]).Success?
  {
  }

  /** A loop that ran through extracted the dates of the ticket type at each position. */
  lemma ExtractedAt(env: Env, previous: Value, base: nat, types: seq<string>, i: nat)
    requires i < |types| && RunTypes(env, previous, base, types).error.None?
    ensures ExtractDates(env, types[i]).Success?
  {
    var upto := types[..i + 1];
    if RunTypes(env, previous, base, upto).error.Some? {
      RunTypesStops(env, previous, base, types, i + 1);
    }
    LastTypeExtracted(env, previous, base, upto);
    assert upto[i] == types[i];
  }

  /** A loop that ran through extracted every ticket type's dates. */
  lemma RunTypesExtractsAll(env: Env, previous: Value, base: nat, types: seq<string>)
    requires RunTypes(env, previous, base, types).error.None?
    ensures forall t :: t in types ==> ExtractDates(env, t).Success?
  {
    forall t | t in types ensures ExtractDates(env, t).Success? {
      var i :| 0 <= i < |types| && types[i] == t;
      ExtractedAt(env, previous, base, types, i);
    }
  }

  /**
   * A loop that ran through made exactly the decision of `Decide` on the
   * extracted lists, and one call per ticket type.
   */
  lemma {:induction false} RunTypesCompletes(env: Env, previous: Value, base: nat, types: seq<string>)
    requires RunTypes(env, previous, base, types).error.None?
    ensures RunTypes(env, previous, base, types).decision == Decide(previous, Extracted(env, types))
    ensures RunTypes(env, previous, base, types).effects == TypeEffects(previous, Extracted(env, types))
    decreases |types|
  {
    if types != [] {
      var n := |types| - 1;
      RunTypesCompletes(env, previous, base, types[..n]);
      ExtractedSnoc(env, types);
      var lists := Extracted(env, types);
      TypeEffectsSnoc(previous, lists);
      assert lists[..n] == Extracted(env, types[..n]);
      assert lists[n] == (types[n], ExtractDates(env, types[n]).value);
    }
  }

  /** The loop never saves. */
  lemma {:induction false} RunTypesNeverSaves(env: Env, previous: Value, base: nat, types: seq<string>)
    ensures forall e :: e in RunTypes(env, previous, base, types).effects ==> !e.SaveState?
    decreases |types|
  {
    if types != [] {
      RunTypesNeverSaves(env, previous, base, types[..|types| - 1]);
    }
  }

  /** The error of a ticket-type loop is that of the first ticket type whose step threw. */
  lemma {:induction false} RunTypesFirstError(env: Env, previous: Value, base: nat, types: seq<string>)
    requires RunTypes(env, previous, base, types).error.Some?
    ensures exists k :: (0 <= k < |types| &&
      var q := RunTypes(env, previous, base, types[..k]);
      q.error.None? && TypeStep(env, previous, NextCall(base, q), q, types[k]).error == RunTypes(env, previous, base, types).error)
    decreases |types|
  {
    var n := |types| - 1;
    var front := types[..n];
    if RunTypes(env, previous, base, front).error.Some? {
      RunTypesFirstError(env, previous, base, front);
      var k :| 0 <= k < |front| &&
        (var q := RunTypes(env, previous, base, front[..k]);
         q.error.None? && TypeStep(env, previous, NextCall(base, q), q, front[k]).error == RunTypes(env, previous, base, front).error);
      assert front[..k] == types[..k] && front[k] == types[k];
      RunTypesStuck(env, previous, base, types);
    } else {
      assert RunTypes(env, previous, base, types[..n]).error.None?;
    }
  }

  /** When every ticket type's calendar is scraped and no call throws, the loop runs through. */
  lemma {:induction false} RunTypesNoError(env: Env, previous: Value, base: nat, types: seq<string>)
    requires forall t :: t in types ==> ExtractDates(env, t).Success?
    requires forall i, e :: env.callError(i, e).None?
    ensures RunTypes(env, previous, base, types).error.None?
    decreases |types|
  {
    if types != [] {
      var n := |types| - 1;
      assert forall t :: t in types[..n] ==> t in types;
      RunTypesNoError(env, previous, base, types[..n]);
      assert types[n] in types;
    }
  }

  // ---------------------------------------------------------------------
  // Properties of a run.

  predicate Succeeded(r: Run)
  {
    r.outcome.Returned? && r.outcome.response.statusCode == 200
  }

  /** The state was written: a save was issued and did not throw. */
  predicate Saved(env: Env, r: Run)
  {
    exists i :: 0 <= i < |r.effects| && r.effects[i].SaveState? && env.callError(i, r.effects[i]).None?
  }

  /** The summary health check: the note "No changes", or the new state when something changed. */
  function Summary(snapshot: Snapshot, hasChanges: bool): Effect
  {
    Health(SignalSuccess, if !hasChanges then NoChangesNote else JsonSnapshot(snapshot))
  }

  /** The error thrown by the summary health check or else by the save, given the number of calls before them. */
  function FinishError(env: Env, n: nat, snapshot: Snapshot, hasChanges: bool): Option<string>
  {
    if env.callError(n, Summary(snapshot, hasChanges)).Some? then env.callError(n, Summary(snapshot, hasChanges))
    else env.callError(n + 1, SaveState(snapshot))
  }

  /**
   * The error of the first step of a run that throws, if any: reading the
   * state, fetching the challenge, solving it, the ticket-type loop, the
   * summary health check and the save, in this order.
   */
  function FirstError(env: Env, types: seq<string>): Option<string>
  {
    if env.readState.Failure? then Some(env.readState.error)
    else if env.challengePage.Failure? then Some(env.challengePage.error)
    else
      var solved := env.solve(ScriptExtractor.FirstScript(env.challengePage.value));
      if solved.Failure? then Some(solved.error)
      else AfterLoopError(env, RunTypes(env, PreviousState(env.readState.value), 1, types), 1)
  }

  /** The error of the ticket-type loop or else of the summary or the save, given the number of calls before the loop. */
  function AfterLoopError(env: Env, p: Progress, n: nat): Option<string>
  {
    if p.error.Some? then p.error
    else FinishError(env, n + |p.effects|, p.decision.snapshot, p.decision.hasChanges)
  }

  lemma AbortReports(env: Env, effects: seq<Effect>, error: string, cookie: Option<string>)
    ensures var r := Abort(env, effects, error, cookie);
      r.effects == effects + [Health(SignalFail, PlainText(error))] &&
      (r.outcome.Returned? ==> r.outcome.response == Response(500, MessageBody(error))) &&
      r.cookie == cookie
  {
  }

  /** After the loop, the run answers 200 exactly when neither the summary nor the save throws. */
  lemma FinishSucceedsIffNoError(env: Env, effects: seq<Effect>, snapshot: Snapshot, hasChanges: bool, cookie: Option<string>)
    ensures Succeeded(Finish(env, effects, snapshot, hasChanges, cookie)) <==>
      FinishError(env, |effects|, snapshot, hasChanges).None?
  {
    var summary := Summary(snapshot, hasChanges);
    if env.callError(|effects|, summary).Some? {
      AbortReports(env, effects + [summary], env.callError(|effects|, summary).value, cookie);
    } else if env.callError(|effects| + 1, SaveState(snapshot)).Some? {
      AbortReports(env, effects + [summary, SaveState(snapshot)], env.callError(|effects| + 1, SaveState(snapshot)).value, cookie);
    }
  }

  /** The summary and the save: 200 exactly when the save went through. */
  lemma FinishSavedIffSucceeded(env: Env, effects: seq<Effect>, snapshot: Snapshot, hasChanges: bool, cookie: Option<string>)
    requires forall e :: e in effects ==> !e.SaveState?
    ensures var r := Finish(env, effects, snapshot, hasChanges, cookie);
      Succeeded(r) <==> Saved(env, r)
  {
    var r := Finish(env, effects, snapshot, hasChanges, cookie);
    var n := |effects|;
    var summary := Summary(snapshot, hasChanges);
    if env.callError(n, summary).Some? {
      AbortReports(env, effects + [summary], env.callError(n, summary).value, cookie);
      forall i | 0 <= i < |r.effects| ensures !r.effects[i].SaveState? {
        if i < n { assert r.effects[i] in effects; }
      }
    } else if env.callError(n + 1, SaveState(snapshot)).Some? {
      AbortReports(env, effects + [summary, SaveState(snapshot)], env.callError(n + 1, SaveState(snapshot)).value, cookie);
      forall i | 0 <= i < |r.effects| ensures r.effects[i].SaveState? ==> i == n + 1 {
        if i < n { assert r.effects[i] in effects; }
      }
    } else {
      assert r.effects[n + 1] == SaveState(snapshot);
    }
  }

  /** After the loop, a run answers 200 exactly when its save went through. */
  lemma AfterSolveSavedIffSucceeded(env: Env, previous: Value, types: seq<string>, effects: seq<Effect>, cookie: Option<string>)
    requires forall e :: e in effects ==> !e.SaveState?
    ensures var r := AfterSolve(env, previous, types, effects, cookie);
      Succeeded(r) <==> Saved(env, r)
  {
    var p := RunTypes(env, previous, |effects|, types);
    RunTypesNeverSaves(env, previous, |effects|, types);
    var sent := effects + p.effects;
    assert forall e :: e in sent ==> !e.SaveState?;
    if p.error.Some? {
      AbortNeverSaves(env, sent, p.error.value, cookie);
    } else {
      FinishSavedIffSucceeded(env, sent, p.decision.snapshot, p.decision.hasChanges, cookie);
    }
  }

  /** The `catch` block neither saves nor answers 200. */
  lemma AbortNeverSaves(env: Env, effects: seq<Effect>, error: string, cookie: Option<string>)
    requires forall e :: e in effects ==> !e.SaveState?
    ensures var r := Abort(env, effects, error, cookie);
      !Succeeded(r) && !Saved(env, r)
  {
    var r := Abort(env, effects, error, cookie);
    forall i | 0 <= i < |r.effects| ensures !r.effects[i].SaveState? {
      if i < |effects| { assert r.effects[i] in effects; }
    }
  }

  /** A run answers 200 exactly when it saved the state; any error means no save. */
  lemma SucceedsIffSaved(env: Env, types: seq<string>, cookie: Option<string>)
    ensures Succeeded(RunCheck(env, types, cookie)) <==> Saved(env, RunCheck(env, types, cookie))
  {
    var started := [Health(SignalStart, PlainText(""))];
    if env.readState.Success? && env.challengePage.Success? {
      var solved := env.solve(ScriptExtractor.FirstScript(env.challengePage.value));
      if solved.Success? {
        AfterSolveSavedIffSucceeded(env, PreviousState(env.readState.value), types, started,
          Some(CookieHeader(SolverCookies(solved.value.0, solved.value.1))));
      } else {
        AbortNeverSaves(env, started, solved.error, cookie);
      }
    } else if env.readState.Failure? {
      AbortNeverSaves(env, started, env.readState.error, cookie);
    } else {
      AbortNeverSaves(env, started, env.challengePage.error, cookie);
    }
  }

  /** A run answers 200 exactly when none of its steps throws. */
  lemma SucceedsIffNoError(env: Env, types: seq<string>, cookie: Option<string>)
    ensures Succeeded(RunCheck(env, types, cookie)) <==> FirstError(env, types).None?
  {
    var started := [Health(SignalStart, PlainText(""))];
    if env.readState.Failure? {
      AbortReports(env, started, env.readState.error, cookie);
    } else if env.challengePage.Failure? {
      AbortReports(env, started, env.challengePage.error, cookie);
    } else {
      var solved := env.solve(ScriptExtractor.FirstScript(env.challengePage.value));
      if solved.Failure? {
        AbortReports(env, started, solved.error, cookie);
      } else {
        AfterLoopSucceedsIffNoError(env, RunTypes(env, PreviousState(env.readState.value), 1, types), started,
          Some(CookieHeader(SolverCookies(solved.value.0, solved.value.1))));
      }
    }
  }

  /** After the loop, the run answers 200 exactly when neither the loop nor the summary nor the save threw. */
  lemma AfterLoopSucceedsIffNoError(env: Env, p: Progress, effects: seq<Effect>, cookie: Option<string>)
    ensures Succeeded(AfterLoop(env, p, effects, cookie)) <==> AfterLoopError(env, p, |effects|).None?
  {
    if p.error.Some? {
      AbortReports(env, effects + p.effects, p.error.value, cookie);
    } else {
      FinishSucceedsIffNoError(env, effects + p.effects, p.decision.snapshot, p.decision.hasChanges, cookie);
    }
  }

  /**
   * A successful run scraped every ticket type; it notified exactly as
   * `Decide` says, reported the summary and saved, last, the state it answers with.
   */
  lemma SuccessfulRun(env: Env, types: seq<string>, cookie: Option<string>)
    requires Succeeded(RunCheck(env, types, cookie))
    ensures env.readState.Success?
    ensures forall t :: t in types ==> ExtractDates(env, t).Success?
    ensures var previous := PreviousState(env.readState.value);
      var d := Decide(previous, Extracted(env, types));
      RunCheck(env, types, cookie).outcome.response.body == SnapshotBody(d.snapshot) &&
      RunCheck(env, types, cookie).effects ==
        [Health(SignalStart, PlainText(""))] + TypeEffects(previous, Extracted(env, types)) +
        [Summary(d.snapshot, d.hasChanges), SaveState(d.snapshot)]
  {
    var started := [Health(SignalStart, PlainText(""))];
    if env.readState.Failure? {
      AbortReports(env, started, env.readState.error, cookie);
    } else if env.challengePage.Failure? {
      AbortReports(env, started, env.challengePage.error, cookie);
    } else {
      var solved := env.solve(ScriptExtractor.FirstScript(env.challengePage.value));
      if solved.Failure? {
        AbortReports(env, started, solved.error, cookie);
      } else {
        var previous := PreviousState(env.readState.value);
        var installed := Some(CookieHeader(SolverCookies(solved.value.0, solved.value.1)));
        var p := RunTypes(env, previous, 1, types);
        if p.error.Some? {
          AbortReports(env, started + p.effects, p.error.value, installed);
        } else {
          RunTypesExtractsAll(env, previous, 1, types);
          RunTypesCompletes(env, previous, 1, types);
          FinishSucceeded(env, started + p.effects, p.decision.snapshot, p.decision.hasChanges, installed);
        }
      }
    }
  }

  lemma FinishSucceeded(env: Env, effects: seq<Effect>, snapshot: Snapshot, hasChanges: bool, cookie: Option<string>)
    requires Succeeded(Finish(env, effects, snapshot, hasChanges, cookie))
    ensures var r := Finish(env, effects, snapshot, hasChanges, cookie);
      r.outcome.response.body == SnapshotBody(snapshot) &&
      r.effects == effects + [Summary(snapshot, hasChanges), SaveState(snapshot)]
  {
  }

  /**
   * A run in which no step throws answers 200 and, whether or not anything
   * changed, ends by saving the state it decided.
   */
  lemma CleanRunSucceeds(env: Env, types: seq<string>, cookie: Option<string>)
    requires env.readState.Success? && env.challengePage.Success?
    requires env.solve(ScriptExtractor.FirstScript(env.challengePage.value)).Success?
    requires forall t :: t in types ==> ExtractDates(env, t).Success?
    requires forall i, e :: env.callError(i, e).None?
    ensures var r := RunCheck(env, types, cookie);
      Succeeded(r) && Saved(env, r) &&
      r.effects[|r.effects| - 1] == SaveState(Decide(PreviousState(env.readState.value), Extracted(env, types)).snapshot)
  {
    RunTypesNoError(env, PreviousState(env.readState.value), 1, types);
    SucceedsIffNoError(env, types, cookie);
    SucceedsIffSaved(env, types, cookie);
    SuccessfulRun(env, types, cookie);
  }

  /**
   * A run that did not answer 200 reported the error of its first failing
   * step to the health check, last, and answers 500 with that error.
   */
  lemma FailedRun(env: Env, types: seq<string>, cookie: Option<string>)
    requires !Succeeded(RunCheck(env, types, cookie))
    ensures FirstError(env, types).Some?
    ensures var r := RunCheck(env, types, cookie); var m := FirstError(env, types).value;
      r.effects != [] && r.effects[|r.effects| - 1] == Health(SignalFail, PlainText(m)) &&
      (r.outcome.Returned? ==> r.outcome.response == Response(500, MessageBody(m)))
  {
    SucceedsIffNoError(env, types, cookie);
    var started := [Health(SignalStart, PlainText(""))];
    if env.readState.Failure? {
      AbortReports(env, started, env.readState.error, cookie);
    } else if env.challengePage.Failure? {
      AbortReports(env, started, env.challengePage.error, cookie);
    } else {
      var solved := env.solve(ScriptExtractor.FirstScript(env.challengePage.value));
      if solved.Failure? {
        AbortReports(env, started, solved.error, cookie);
      } else {
        var installed := Some(CookieHeader(SolverCookies(solved.value.0, solved.value.1)));
        var p := RunTypes(env, PreviousState(env.readState.value), 1, types);
        if p.error.Some? {
          AbortReports(env, started + p.effects, p.error.value, installed);
        } else {
          FinishFailed(env, started + p.effects, p.decision.snapshot, p.decision.hasChanges, installed);
        }
      }
    }
  }

  lemma FinishFailed(env: Env, effects: seq<Effect>, snapshot: Snapshot, hasChanges: bool, cookie: Option<string>)
    requires !Succeeded(Finish(env, effects, snapshot, hasChanges, cookie))
    ensures FinishError(env, |effects|, snapshot, hasChanges).Some?
    ensures var r := Finish(env, effects, snapshot, hasChanges, cookie);
      var m := FinishError(env, |effects|, snapshot, hasChanges).value;
      r.effects != [] && r.effects[|r.effects| - 1] == Health(SignalFail, PlainText(m)) &&
      (r.outcome.Returned? ==> r.outcome.response == Response(500, MessageBody(m)))
  {
    FinishSucceedsIffNoError(env, effects, snapshot, hasChanges, cookie);
    var summary := Summary(snapshot, hasChanges);
    if env.callError(|effects|, summary).Some? {
      AbortReports(env, effects + [summary], env.callError(|effects|, summary).value, cookie);
    } else {
      AbortReports(env, effects + [summary, SaveState(snapshot)], env.callError(|effects| + 1, SaveState(snapshot)).value, cookie);
    }
  }

  /**
   * The `Cookie` header is replaced by the solver's two cookies exactly when
   * the state read, the challenge fetch and the solver all succeed; a run
   * that throws before that leaves it as it was.
   */
  lemma CookieInstalledOnSolve(env: Env, types: seq<string>, cookie: Option<string>)
    ensures RunCheck(env, types, cookie).cookie ==
      if env.readState.Failure? || env.challengePage.Failure? then cookie
      else
        var solved := env.solve(ScriptExtractor.FirstScript(env.challengePage.value));
        if solved.Success? then Some(CookieHeader(SolverCookies(solved.value.0, solved.value.1))) else cookie
  {
  }

  /** The ticket types are distinct, so a rerun over the same calendars after a run that saved is quiet. */
  lemma TicketTypesRerunIsQuiet(env: Env, previous: Value)
    ensures NoDup(TicketTypes)
    ensures var lists := Extracted(env, TicketTypes);
      Decide(SnapshotValue(Decide(previous, lists).snapshot), lists).notified == [] &&
      !Decide(SnapshotValue(Decide(previous, lists).snapshot), lists).hasChanges
  {
    var lists := Extracted(env, TicketTypes);
    assert Keys(lists) == TicketTypes;
    RerunIsQuiet(previous, lists);
  }

  // ---------------------------------------------------------------------
  // The handler itself.

  /** The `catch` block. */
  method Fail(env: Env, sent: seq<Effect>, error: string) returns (outcome: Outcome, effects: seq<Effect>)
    ensures var r := Abort(env, sent, error, None); outcome == r.outcome && effects == r.effects
  {
    var report := Health(SignalFail, PlainText(error));
    effects := sent + [report];
    match env.callError(|sent|, report) {
      case Some(e) => outcome := Rejected(e);
      case None => outcome := Returned(Response(500, MessageBody(error)));
    }
  }

  /** `catchDates(URLs[ticketType])` then `filterAvailableDates`. */
  method ExtractTicketDates(env: Env, ticketType: string) returns (r: Result<seq<string>>)
    ensures r == ExtractDates(env, ticketType)
  {
    var page := env.calendar(ticketType);
    if page.Failure? {
      return Failure(page.error);
    }
    var datesAvailableStatus := Calendar.CatchDates(page.value);
    if datesAvailableStatus.Failure? {
      return Failure(datesAvailableStatus.error);
    }
    var dates := Calendar.FilterAvailableDates(datesAvailableStatus.value);
    return Success(dates);
  }

  /** Compare a ticket type's new list with its previous one: the call to make, and whether the list changed. */
  method CompareAndNotify(previousAvailableDates: Value, ticketType: string, dates: seq<string>)
    returns (e: Effect, changed: bool)
    ensures e == TypeEffect(previousAvailableDates, (ticketType, dates))
    ensures changed == Changed(previousAvailableDates, (ticketType, dates))
  {
    if IsArrayEqual(Member(previousAvailableDates, ticketType), StrArray(dates)) {
      e, changed := Health(SignalSuccess, NoChangesNote), false;
    } else {
      e, changed := Notify(ticketType, dates), true;
    }
  }

  /** One iteration of the ticket-type loop. */
  method CheckTicketType(env: Env, previousAvailableDates: Value, at: nat, ticketType: string,
                         newAvailableDates: Snapshot, hasChanges: bool, ghost notified: seq<string>, sent: seq<Effect>)
    returns (newAvailableDates': Snapshot, hasChanges': bool, ghost notified': seq<string>, effects: seq<Effect>,
             error: Option<string>)
    ensures var p := TypeStep(env, previousAvailableDates, at, Progress(Decision(newAvailableDates, notified, hasChanges), sent, None), ticketType);
      newAvailableDates' == p.decision.snapshot && hasChanges' == p.decision.hasChanges &&
      effects == p.effects && error == p.error
    ensures notified' == TypeStep(env, previousAvailableDates, at,
      Progress(Decision(newAvailableDates, notified, hasChanges), sent, None), ticketType).decision.notified
  {
    newAvailableDates', hasChanges', notified', effects := newAvailableDates, hasChanges, notified, sent;
    var extracted := ExtractTicketDates(env, ticketType);
    if extracted.Failure? {
      return newAvailableDates', hasChanges', notified', effects, Some(extracted.error);
    }
    var dates := extracted.value;
    newAvailableDates' := Put(newAvailableDates, ticketType, dates);
    var e, changed := CompareAndNotify(previousAvailableDates, ticketType, Lookup(newAvailableDates', ticketType).value);
    if changed {
      hasChanges' := true;
      notified' := notified + [ticketType];
    }
    effects := sent + [e];
    error := env.callError(at, e);
  }

  /** The ticket-type loop, the summary health check and the save. */
  method CheckTicketTypes(env: Env, previousAvailableDates: Value, types: seq<string>, sent: seq<Effect>, ghost cookie: Option<string>)
    returns (outcome: Outcome, effects: seq<Effect>)
    ensures var r := AfterSolve(env, previousAvailableDates, types, sent, cookie);
      outcome == r.outcome && effects == r.effects
  {
    var hasChanges := false;
    var newAvailableDates: Snapshot := [];
    ghost var notified: seq<string> := [];
    var typeEffects: seq<Effect> := [];
    var i := 0;
    while i < |types|
      invariant 0 <= i <= |types|
      invariant RunTypes(env, previousAvailableDates, |sent|, types[..i]) ==
        Progress(Decision(newAvailableDates, notified, hasChanges), typeEffects, None)
      decreases |types| - i
    {
      ghost var before := Progress(Decision(newAvailableDates, notified, hasChanges), typeEffects, None);
      var at := |sent| + |typeEffects|;
      assert at == NextCall(|sent|, before);
      var error;
      newAvailableDates, hasChanges, notified, typeEffects, error :=
        CheckTicketType(env, previousAvailableDates, at, types[i], newAvailableDates, hasChanges, notified, typeEffects);
      ghost var after := Progress(Decision(newAvailableDates, notified, hasChanges), typeEffects, error);
      assert after == TypeStep(env, previousAvailableDates, at, before, types[i]);
      LoopStep(env, previousAvailableDates, |sent|, types, i, at, before, after);
      if error.Some? {
        LoopFailed(env, previousAvailableDates, types, i + 1, sent, cookie);
        outcome, effects := Fail(env, sent + typeEffects, error.value);
        return;
      }
      i := i + 1;
    }
    LoopDone(env, previousAvailableDates, types, sent, cookie);
    outcome, effects := ReportAndSave(env, sent + typeEffects, newAvailableDates, hasChanges, cookie);
  }

  lemma LoopStep(env: Env, previous: Value, base: nat, types: seq<string>, i: nat, at: nat, before: Progress, after: Progress)
    requires i < |types| && RunTypes(env, previous, base, types[..i]) == before && before.error.None?
    requires at == NextCall(base, before) && TypeStep(env, previous, at, before, types[i]) == after
    ensures RunTypes(env, previous, base, types[..i + 1]) == after
  {
    RunTypesSnoc(env, previous, base, types, i);
  }

  lemma LoopFailed(env: Env, previous: Value, types: seq<string>, k: nat, sent: seq<Effect>, cookie: Option<string>)
    requires k <= |types| && RunTypes(env, previous, |sent|, types[..k]).error.Some?
    ensures var p := RunTypes(env, previous, |sent|, types[..k]);
      AfterSolve(env, previous, types, sent, cookie) == Abort(env, sent + p.effects, p.error.value, cookie)
  {
    RunTypesStops(env, previous, |sent|, types, k);
  }

  lemma LoopDone(env: Env, previous: Value, types: seq<string>, sent: seq<Effect>, cookie: Option<string>)
    requires RunTypes(env, previous, |sent|, types[..|types|]).error.None?
    ensures var p := RunTypes(env, previous, |sent|, types[..|types|]);
      AfterSolve(env, previous, types, sent, cookie) ==
        Finish(env, sent + p.effects, p.decision.snapshot, p.decision.hasChanges, cookie)
  {
    assert types[..|types|] == types;
  }

  /** After the loop: the summary health check, the save and the 200 response. */
  method ReportAndSave(env: Env, sent: seq<Effect>, newAvailableDates: Snapshot, hasChanges: bool, ghost cookie: Option<string>)
    returns (outcome: Outcome, effects: seq<Effect>)
    ensures var r := Finish(env, sent, newAvailableDates, hasChanges, cookie);
      outcome == r.outcome && effects == r.effects
  {
    var summary := Summary(newAvailableDates, hasChanges);
    effects := sent + [summary];
    var error := env.callError(|sent|, summary);
    if error.Some? {
      outcome, effects := Fail(env, effects, error.value);
      return;
    }
    var save := SaveState(newAvailableDates);
    effects := effects + [save];
    error := env.callError(|sent| + 1, save);
    if error.Some? {
      outcome, effects := Fail(env, effects, error.value);
      return;
    }
    outcome := Returned(Response(200, SnapshotBody(newAvailableDates)));
  }

  /** `check`, with the module-level `headers` object. */
  method Check(env: Env, types: seq<string>, headers: Headers) returns (outcome: Outcome, effects: seq<Effect>)
    modifies headers
    ensures var r := RunCheck(env, types, old(headers.cookie));
      outcome == r.outcome && effects == r.effects && headers.cookie == r.cookie
  {
    effects := [Health(SignalStart, PlainText(""))];
    if env.readState.Failure? {
      outcome, effects := Fail(env, effects, env.readState.error);
      return;
    }
    var previousAvailableDates := PreviousState(env.readState.value);
    if env.challengePage.Failure? {
      outcome, effects := Fail(env, effects, env.challengePage.error);
      return;
    }
    var scriptContent := ScriptExtractor.CatchChallengeScript(env.challengePage.value);
    var cookies := env.solve(scriptContent);
    if cookies.Failure? {
      outcome, effects := Fail(env, effects, cookies.error);
      return;
    }
    headers.InstallCookies(SolverCookies(cookies.value.0, cookies.value.1));
    outcome, effects := CheckTicketTypes(env, previousAvailableDates, types, effects, headers.cookie);
  }
}
