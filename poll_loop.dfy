/**
 * The polling loop of the bot. One pass through the body of its endless
 * loop is a transition on the cursor (`timestamp`) and the last alert sent
 * (`last_message`); the HTTP answer and whether Telegram accepted the
 * message are inputs of the pass.
 */
module PollLoop {
  import opened Wrappers
  import opened Json
  import opened Homework

  const ALERT_PREFIX: string := "Сбой в работе программы: "

  /** What the request to the homework API gave: an exception or a decoded body. */
  datatype Fetch = FetchFailed(reason: string) | Fetched(body: Json)

  /** The inputs of one pass: the API answer and whether Telegram delivered. */
  datatype Tick = Tick(fetch: Fetch, delivered: bool)

  /** The two variables the loop reassigns. */
  datatype LoopState = LoopState(timestamp: Json, lastMessage: string)

  /** A status change found by a successful try block. */
  datatype Notice = Notice(message: string, currentDate: Json)

  /**
   * The end of one pass: the loop goes on with a new state, having handed
   * at most one message to Telegram, or the alert could not be delivered
   * and the error escaped the loop, ending the process.
   */
  datatype StepResult =
    | Continue(next: LoopState, attempted: Option<string>)
    | Crash(alert: string)

  /** The state the loop starts in: the cursor is the start-up time. */
  function Initial(now: int): LoopState
  {
    LoopState(JInt(now), "")
  }

  /** The request succeeded and the validator accepted its body. */
  predicate Accepted(f: Fetch)
  {
    f.Fetched? && CheckResponse(f.body).Success?
  }

  /** The try block ran to its end with a non-empty list of homeworks. */
  predicate FullSuccess(f: Fetch)
  {
    Accepted(f) && |Homeworks(f.body)| > 0 && ParseStatus(Homeworks(f.body)[0]).Success?
  }

  /**
   * The try block of a pass: fetch, validate, and format the first
   * homework, stopping at the first exception. Only `homeworks[0]` is
   * looked at; an empty list yields no notice.
   */
  function TryBody(f: Fetch): (r: Result<Option<Notice>, Error>)
    ensures f.FetchFailed? ==> r == Failure(FetchError(f.reason))
    ensures f.Fetched? && CheckResponse(f.body).Failure? ==> r == Failure(CheckResponse(f.body).error)
    ensures Accepted(f) && |Homeworks(f.body)| > 0 && ParseStatus(Homeworks(f.body)[0]).Failure? ==>
      r == Failure(ParseStatus(Homeworks(f.body)[0]).error)
    ensures r == Success(None) <==> Accepted(f) && |Homeworks(f.body)| == 0
    ensures r.Success? && r.value.Some? <==> FullSuccess(f)
    ensures FullSuccess(f) ==>
      r.value.value == Notice(ParseStatus(Homeworks(f.body)[0]).value, CurrentDate(f.body))
  {
    match f
    case FetchFailed(reason) => Failure(FetchError(reason))
    case Fetched(body) =>
      match CheckResponse(body)
      case Failure(e) => Failure(e)
      case Success(response) =>
        var homeworks := Homeworks(response);
        if |homeworks| > 0 then
          match ParseStatus(homeworks[0])
          case Failure(e) => Failure(e)
          case Success(message) => Success(Some(Notice(message, CurrentDate(response))))
        else
          Success(None)
  }

  /** The alert the handler builds from a caught error. */
  function Alert(e: Error): (m: string)
    ensures ALERT_PREFIX <= m
    ensures m[|ALERT_PREFIX|..] == ErrorText(e)
  {
    ALERT_PREFIX + ErrorText(e)
  }

  /**
   * Different exceptions raised by the bot itself give different alerts,
   * so the comparison with `last_message` suppresses only the same one.
   */
  lemma AlertInjective(e1: Error, e2: Error)
    requires !e1.FetchError? && !e2.FetchError?
    requires Alert(e1) == Alert(e2)
    ensures e1 == e2
  {
    assert ErrorText(e1) == Alert(e1)[|ALERT_PREFIX|..] == ErrorText(e2);
    ErrorTextInjective(e1, e2);
  }

  /**
   * One pass of the loop. The cursor moves to `current_date` only after a
   * fully successful pass, whether or not Telegram delivered the status
   * message. An alert is sent only when it differs from `last_message`,
   * which only the handler ever changes; if that alert cannot be
   * delivered, the error escapes the loop.
   */
  function Step(s: LoopState, t: Tick): (c: StepResult)
    ensures c.Continue? ==>
      c.next.timestamp == (if FullSuccess(t.fetch) then CurrentDate(t.fetch.body) else s.timestamp)
    ensures TryBody(t.fetch).Success? ==> c.Continue? && c.next.lastMessage == s.lastMessage
    ensures TryBody(t.fetch).Success? ==>
      c.attempted == (if FullSuccess(t.fetch) then Some(ParseStatus(Homeworks(t.fetch.body)[0]).value) else None)
    ensures TryBody(t.fetch).Failure? ==>
      var m := Alert(TryBody(t.fetch).error);
      && (c.Crash? <==> m != s.lastMessage && !t.delivered)
      && (c.Crash? ==> c.alert == m)
      && (c.Continue? ==> c.next.lastMessage == m && c.attempted == (if m != s.lastMessage then Some(m) else None))
  {
    match TryBody(t.fetch)
    case Success(None) => Continue(s, None)
    case Success(Some(notice)) =>
      // send_message swallows a delivery failure, so the cursor moves either way
      Continue(s.(timestamp := notice.currentDate), Some(notice.message))
    case Failure(e) =>
      var message := Alert(e);
      if message == s.lastMessage then Continue(s, None)
      else if t.delivered then Continue(s.(lastMessage := message), Some(message))
      else Crash(message)
  }

  /** Homeworks after the first never influence a pass. */
  lemma OnlyFirstHomeworkMatters(s: LoopState, fields: map<string, Json>, first: Json,
                                 rest1: seq<Json>, rest2: seq<Json>, delivered: bool)
    ensures var b1 := JDict(fields["homeworks" := JList([first] + rest1)]);
            var b2 := JDict(fields["homeworks" := JList([first] + rest2)]);
      Step(s, Tick(Fetched(b1), delivered)) == Step(s, Tick(Fetched(b2), delivered))
  {
  }

  /** A single approved homework: one status message, and the cursor moves to `current_date`. */
  lemma ApprovedScenario(s: LoopState, delivered: bool)
    ensures var homework := JDict(map["homework_name" := JStr("proj1"), "status" := JStr("approved")]);
      var body := JDict(map["homeworks" := JList([homework]), "current_date" := JInt(1700000000)]);
      Step(s, Tick(Fetched(body), delivered)) == Continue(
        LoopState(JInt(1700000000), s.lastMessage),
        Some("Изменился статус проверки работы \"" + "proj1" + "\". " + "Работа проверена: ревьюеру всё понравилось. Ура!"))
  {
    var homework := JDict(map["homework_name" := JStr("proj1"), "status" := JStr("approved")]);
    var body := JDict(map["homeworks" := JList([homework]), "current_date" := JInt(1700000000)]);
    assert Get(homework.fields, "homework_name") == JStr("proj1");
    assert Get(homework.fields, "status") == JStr("approved");
    assert CheckResponse(body).Success? && Homeworks(body) == [homework];
    assert CurrentDate(body) == JInt(1700000000);
    var message := STATUS_PREFIX + "proj1" + "\". " + HOMEWORK_VERDICTS["approved"];
    assert ParseStatus(homework) == Success(message);
    assert TryBody(Fetched(body)) == Success(Some(Notice(message, JInt(1700000000))));
  }

  /** An empty list of homeworks: nothing is sent and the cursor stays where it was. */
  lemma EmptyListScenario(s: LoopState, delivered: bool)
    ensures var body := JDict(map["homeworks" := JList([]), "current_date" := JInt(1700000600)]);
      Step(s, Tick(Fetched(body), delivered)) == Continue(s, None)
  {
  }

  /** An unknown status: one alert carrying the KeyError text, the cursor unchanged. */
  lemma UnknownStatusScenario(now: int)
    ensures var homework := JDict(map["homework_name" := JStr("proj2"), "status" := JStr("archived")]);
      var body := JDict(map["homeworks" := JList([homework]), "current_date" := JInt(1700001200)]);
      var alert := "Сбой в работе программы: " + "'Недокументированный статус домашней работы'";
      Step(Initial(now), Tick(Fetched(body), true)) == Continue(LoopState(JInt(now), alert), Some(alert))
  {
    var homework := JDict(map["homework_name" := JStr("proj2"), "status" := JStr("archived")]);
    var body := JDict(map["homeworks" := JList([homework]), "current_date" := JInt(1700001200)]);
    assert Get(homework.fields, "homework_name") == JStr("proj2");
    assert Get(homework.fields, "status") == JStr("archived");
    assert "archived" !in HOMEWORK_VERDICTS;
    assert CheckResponse(body).Success? && Homeworks(body) == [homework];
    assert TryBody(Fetched(body)) == Failure(UnknownStatus);
  }

  // ---------------------------------------------------------------------
  // Runs of several passes
  // ---------------------------------------------------------------------

  /** The state after some passes, every message handed to Telegram, and whether the process ended. */
  datatype Run = Run(state: LoopState, outbox: seq<string>, crashed: bool)

  /** What one pass does: the loop variables after it, what it hands to Telegram, whether it ends the process. */
  datatype Effect = Effect(next: LoopState, sent: seq<string>, ends: bool)

  /**
   * A pass seen only through its effect. The laws of runs below hold
   * whatever a pass does, so they are proved once for any pass.
   */
  type Pass = (LoopState, Tick) -> Effect

  /** One more pass after a run; nothing runs after a crash. */
  function ExtendBy(pass: Pass, r: Run, t: Tick): Run
  {
    if r.crashed then r
    else
      var e := pass(r.state, t);
      Run(e.next, r.outbox + e.sent, e.ends)
  }

  /** The passes over a sequence of ticks. */
  function RunBy(pass: Pass, s: LoopState, ticks: seq<Tick>): Run
    decreases |ticks|
  {
    if ticks == [] then Run(s, [], false)
    else ExtendBy(pass, RunBy(pass, s, ticks[..|ticks| - 1]), ticks[|ticks| - 1])
  }

  /** A run seen after `sent` had already been handed to Telegram. */
  function After(sent: seq<string>, r: Run): Run
  {
    Run(r.state, sent + r.outbox, r.crashed)
  }

  lemma RunBySnoc(pass: Pass, s: LoopState, xs: seq<Tick>, t: Tick)
    ensures RunBy(pass, s, xs + [t]) == ExtendBy(pass, RunBy(pass, s, xs), t)
  {
    assert (xs + [t])[..|xs|] == xs;
  }

  lemma {:induction false} RunByAppend(pass: Pass, s: LoopState, xs: seq<Tick>, ys: seq<Tick>)
    requires !RunBy(pass, s, xs).crashed
    ensures var a := RunBy(pass, s, xs);
      RunBy(pass, s, xs + ys) == After(a.outbox, RunBy(pass, a.state, ys))
    decreases |ys|
  {
    if ys == [] {
      assert xs + ys == xs;
    } else {
      var a := RunBy(pass, s, xs);
      var ys', t := ys[..|ys| - 1], ys[|ys| - 1];
      RunByAppend(pass, s, xs, ys');
      assert xs + ys == (xs + ys') + [t];
      RunBySnoc(pass, s, xs + ys', t);
      assert ys' + [t] == ys;
      RunBySnoc(pass, a.state, ys', t);
    }
  }

  lemma {:induction false} RunByCrashIsFinal(pass: Pass, s: LoopState, xs: seq<Tick>, ys: seq<Tick>)
    requires RunBy(pass, s, xs).crashed
    ensures RunBy(pass, s, xs + ys) == RunBy(pass, s, xs)
    decreases |ys|
  {
    if ys != [] {
      var ys', t := ys[..|ys| - 1], ys[|ys| - 1];
      RunByCrashIsFinal(pass, s, xs, ys');
      RunBySnoc(pass, s, xs + ys', t);
      assert xs + ys == (xs + ys') + [t];
    } else {
      assert xs + ys == xs;
    }
  }

  /** The effect of one pass of the bot's loop. */
  function PassEffect(s: LoopState, t: Tick): Effect
  {
    match Step(s, t)
    case Crash(m) => Effect(s, [m], true)
    case Continue(next, a) => Effect(next, if a.Some? then [a.value] else [], false)
  }

  /** One more pass of the loop after a run. */
  function Extend(r: Run, t: Tick): Run
  {
    ExtendBy(PassEffect, r, t)
  }

  /** The passes of the loop over a sequence of ticks. */
  function RunCycles(s: LoopState, ticks: seq<Tick>): Run
  {
    RunBy(PassEffect, s, ticks)
  }

  /** A run over one more tick is the run extended by that tick. */
  lemma RunCyclesSnoc(s: LoopState, xs: seq<Tick>, t: Tick)
    ensures RunCycles(s, xs + [t]) == Extend(RunCycles(s, xs), t)
  {
    RunBySnoc(PassEffect, s, xs, t);
  }

  /** Extending a run does not depend on the messages sent before it. */
  lemma ExtendAfterOutbox(sent: seq<string>, r: Run, t: Tick)
    ensures Extend(After(sent, r), t) == After(sent, Extend(r, t))
  {
  }

  /** One more pass of a run that started after `sent`. */
  lemma AfterSnoc(sent: seq<string>, s: LoopState, ticks: seq<Tick>, i: nat)
    requires i < |ticks|
    ensures Extend(After(sent, RunCycles(s, ticks[..i])), ticks[i]) == After(sent, RunCycles(s, ticks[..i + 1]))
  {
    ExtendAfterOutbox(sent, RunCycles(s, ticks[..i]), ticks[i]);
    RunCyclesSnoc(s, ticks[..i], ticks[i]);
    assert ticks[..i] + [ticks[i]] == ticks[..i + 1];
  }

  /** Running two sequences of ticks one after the other is running their concatenation. */
  lemma RunAppend(s: LoopState, xs: seq<Tick>, ys: seq<Tick>)
    requires !RunCycles(s, xs).crashed
    ensures var a := RunCycles(s, xs);
      RunCycles(s, xs + ys) == After(a.outbox, RunCycles(a.state, ys))
  {
    RunByAppend(PassEffect, s, xs, ys);
  }

  /** Once the process has ended, later ticks change nothing. */
  lemma CrashIsFinal(s: LoopState, xs: seq<Tick>, ys: seq<Tick>)
    requires RunCycles(s, xs).crashed
    ensures RunCycles(s, xs + ys) == RunCycles(s, xs)
  {
    RunByCrashIsFinal(PassEffect, s, xs, ys);
  }

  /** The cursor after some passes: the `current_date` of the last fully successful one. */
  function Cursor(start: Json, ticks: seq<Tick>): Json
    decreases |ticks|
  {
    if ticks == [] then start
    else if FullSuccess(ticks[|ticks| - 1].fetch) then CurrentDate(ticks[|ticks| - 1].fetch.body)
    else Cursor(start, ticks[..|ticks| - 1])
  }

  /**
   * Failed requests, rejected answers, empty lists and formatting errors
   * never move the cursor; a formatted status message moves it whether or
   * not Telegram delivered it.
   */
  lemma {:induction false} CursorFollowsFullSuccesses(s: LoopState, ticks: seq<Tick>)
    requires !RunCycles(s, ticks).crashed
    ensures RunCycles(s, ticks).state.timestamp == Cursor(s.timestamp, ticks)
    decreases |ticks|
  {
    if ticks != [] {
      CursorFollowsFullSuccesses(s, ticks[..|ticks| - 1]);
    }
  }

  /** Passes whose try block succeeds never touch `last_message` and never crash. */
  lemma {:induction false} SuccessesKeepLastMessage(s: LoopState, ticks: seq<Tick>)
    requires forall i :: 0 <= i < |ticks| ==> TryBody(ticks[i].fetch).Success?
    ensures !RunCycles(s, ticks).crashed
    ensures RunCycles(s, ticks).state.lastMessage == s.lastMessage
    decreases |ticks|
  {
    if ticks != [] {
      SuccessesKeepLastMessage(s, ticks[..|ticks| - 1]);
      assert TryBody(ticks[|ticks| - 1].fetch).Success?;
    }
  }

  /**
   * An error whose alert is the current `last_message` is not reported
   * again when it recurs, however many successful passes came in between:
   * the recurring pass sends nothing and changes nothing.
   */
  lemma {:induction false} RepeatedErrorSuppressed(s: LoopState, between: seq<Tick>, again: Tick)
    requires TryBody(again.fetch).Failure? && s.lastMessage == Alert(TryBody(again.fetch).error)
    requires forall i :: 0 <= i < |between| ==> TryBody(between[i].fetch).Success?
    ensures Extend(RunCycles(s, between), again) == RunCycles(s, between)
  {
    SuccessesKeepLastMessage(s, between);
  }

  // ---------------------------------------------------------------------
  // Alerts in the outbox
  // ---------------------------------------------------------------------

  /** A message built by the exception handler. */
  predicate IsAlert(m: string)
  {
    ALERT_PREFIX <= m
  }

  /** A status notification never looks like an alert. */
  lemma StatusMessageIsNotAlert(homework: Json)
    requires ParseStatus(homework).Success?
    ensures !IsAlert(ParseStatus(homework).value)
  {
    assert ParseStatus(homework).value[0] == STATUS_PREFIX[0] != ALERT_PREFIX[0];
  }

  /** The alerts among the messages, in order. */
  function AlertsOf(outbox: seq<string>): seq<string>
    decreases |outbox|
  {
    if outbox == [] then []
    else AlertsOf(outbox[..|outbox| - 1]) + (if IsAlert(outbox[|outbox| - 1]) then [outbox[|outbox| - 1]] else [])
  }

  /** No alert repeats the one before it, nor the `last_message` the run started from. */
  predicate NoRepeats(previous: string, alerts: seq<string>)
  {
    && (|alerts| > 0 ==> alerts[0] != previous)
    && forall i :: 0 <= i < |alerts| - 1 ==> alerts[i] != alerts[i + 1]
  }

  /** The last alert sent, or `previous` when none was. */
  function LastAlert(previous: string, alerts: seq<string>): string
  {
    if alerts == [] then previous else alerts[|alerts| - 1]
  }

  lemma AlertsOfSnoc(outbox: seq<string>, m: string)
    ensures AlertsOf(outbox + [m]) == AlertsOf(outbox) + (if IsAlert(m) then [m] else [])
  {
    assert (outbox + [m])[..|outbox|] == outbox;
  }

  /** What a run keeps true about its alerts, starting from `last_message` = `previous`. */
  predicate AlertHistory(previous: string, r: Run)
  {
    && NoRepeats(previous, AlertsOf(r.outbox))
    && (!r.crashed ==> r.state.lastMessage == LastAlert(previous, AlertsOf(r.outbox)))
  }

  /**
   * Handing one more message to Telegram keeps the alert history, provided
   * an alert differs from `last_message` and becomes it unless the process ended.
   */
  lemma SendKeepsAlertHistory(previous: string, r: Run, m: string, next: Run)
    requires AlertHistory(previous, r) && !r.crashed
    requires IsAlert(m) ==> m != r.state.lastMessage
    requires !next.crashed ==> next.state.lastMessage == (if IsAlert(m) then m else r.state.lastMessage)
    requires next.outbox == r.outbox + [m]
    ensures AlertHistory(previous, next)
  {
    AlertsOfSnoc(r.outbox, m);
    if IsAlert(m) {
      NoRepeatsSnoc(previous, AlertsOf(r.outbox), m);
    }
  }

  /** An alert that differs from the last one keeps the alerts free of repeats. */
  lemma NoRepeatsSnoc(previous: string, alerts: seq<string>, m: string)
    requires NoRepeats(previous, alerts)
    requires m != LastAlert(previous, alerts)
    ensures NoRepeats(previous, alerts + [m])
    ensures LastAlert(previous, alerts + [m]) == m
  {
  }

  /** One more pass keeps the alert history. */
  lemma ExtendKeepsAlertHistory(previous: string, r: Run, t: Tick)
    requires AlertHistory(previous, r)
    ensures AlertHistory(previous, Extend(r, t))
  {
    if !r.crashed {
      var next := Extend(r, t);
      match TryBody(t.fetch)
      case Success(None) =>
        assert next == r;
      case Success(Some(notice)) =>
        StatusMessageIsNotAlert(Homeworks(t.fetch.body)[0]);
        assert next.outbox == r.outbox + [notice.message];
        SendKeepsAlertHistory(previous, r, notice.message, next);
      case Failure(e) =>
        if Alert(e) != r.state.lastMessage {
          assert next.outbox == r.outbox + [Alert(e)];
          SendKeepsAlertHistory(previous, r, Alert(e), next);
        } else {
          assert next == r;
        }
    }
  }

  /**
   * Over any run, `last_message` is the last alert sent, and no two
   * alerts sent one after the other are equal: deduplication is against
   * the immediately preceding alert only.
   */
  lemma {:induction false} AlertsNeverRepeat(s: LoopState, ticks: seq<Tick>)
    ensures AlertHistory(s.lastMessage, RunCycles(s, ticks))
    decreases |ticks|
  {
    if ticks != [] {
      AlertsNeverRepeat(s, ticks[..|ticks| - 1]);
      ExtendKeepsAlertHistory(s.lastMessage, RunCycles(s, ticks[..|ticks| - 1]), ticks[|ticks| - 1]);
    }
  }

  // ---------------------------------------------------------------------
  // The bot as a stateful object
  // ---------------------------------------------------------------------

  /** The running bot: the loop's two variables plus the messages handed to Telegram so far. */
  class Bot {
    var timestamp: Json
    var lastMessage: string
    var outbox: seq<string>
    var crashed: bool

    function State(): LoopState
      reads this
    {
      LoopState(timestamp, lastMessage)
    }

    /** The loop variables, the messages sent so far and whether the process ended. */
    function Snapshot(): Run
      reads this
    {
      Run(State(), outbox, crashed)
    }

    /** The bot right after start-up, with the cursor at the current time. */
    constructor (now: int)
      ensures State() == Initial(now) && outbox == [] && !crashed
    {
      timestamp := JInt(now);
      lastMessage := "";
      outbox := [];
      crashed := false;
    }

    /** One pass of the loop, updating the two variables in place. */
    method Cycle(t: Tick)
      requires !crashed
      modifies this
      ensures Snapshot() == Extend(old(Snapshot()), t)
    {
      var attempt := TryBody(t.fetch);
      match attempt
      case Success(notice) =>
        if notice.Some? {
          outbox := outbox + [notice.value.message];
          timestamp := notice.value.currentDate;
        }
      case Failure(e) =>
        var message := Alert(e);
        if message != lastMessage {
          outbox := outbox + [message];
          if !t.delivered {
            crashed := true;
            return;
          }
          lastMessage := message;
        }
    }

    /** The loop over a sequence of ticks, leaving it when the process would end. */
    method Poll(ticks: seq<Tick>)
      requires !crashed
      modifies this
      ensures Snapshot() == After(old(outbox), RunCycles(old(State()), ticks))
    {
      ghost var s0 := State();
      ghost var o0 := outbox;
      var i := 0;
      while i < |ticks| && !crashed
        invariant 0 <= i <= |ticks|
        invariant Snapshot() == After(o0, RunCycles(s0, ticks[..i]))
      {
        Cycle(ticks[i]);
        AfterSnoc(o0, s0, ticks, i);
        i := i + 1;
      }
      if i < |ticks| {
        CrashIsFinal(s0, ticks[..i], ticks[i..]);
        assert ticks[..i] + ticks[i..] == ticks;
      } else {
        assert ticks[..i] == ticks;
      }
    }
  }

  /**
   * How the program ends up: refused by the token gate, stopped because the
   * Telegram client rejected its token, or the run of its loop.
   */
  datatype Session = Refused(exitMessage: string) | BotRejected | Polled(run: Run)

  /**
   * The program: the token gate, then the loop from the start-up time.
   * A missing token stops the program before anything is sent. The gate
   * only tests presence, so a present but malformed Telegram token (the empty
   * string, say) gets past it; `botBuilt` says whether the Telegram client
   * accepted the token, and if it did not the program ends before the loop.
   */
  method Launch(practicum: Option<string>, telegram: Option<string>, chatId: Option<string>,
                botBuilt: bool, now: int, ticks: seq<Tick>)
    returns (session: Session)
    ensures practicum.None? || telegram.None? || chatId.None? ==>
      session == Refused(ExitMessage(CheckTokens(practicum, telegram, chatId).error))
    ensures practicum.Some? && telegram.Some? && chatId.Some? && !botBuilt ==>
      session == BotRejected
    ensures practicum.Some? && telegram.Some? && chatId.Some? && botBuilt ==>
      session == Polled(RunCycles(Initial(now), ticks))
  {
    var gate := CheckTokens(practicum, telegram, chatId);
    if gate.Fail? {
      return Refused(ExitMessage(gate.error));
    }
    if !botBuilt {
      return BotRejected;
    }
    var bot := new Bot(now);
    bot.Poll(ticks);
    session := Polled(bot.Snapshot());
  }
}
