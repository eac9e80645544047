/**
  The polling loop of `main`: each cycle asks the endpoint for news since the
  checkpoint, classifies the outcome, notifies the chat, remembers critical
  errors so that a repeated one is announced only once, and moves the
  checkpoint to the clock reading taken at the end of the cycle.
 */
module Bot {
  import opened Py
  import opened Errors
  import opened Homework

  /**
    The inputs of one cycle: what the endpoint answered, the clock reading
    `get_api_answer` takes when the checkpoint is 0, and the clock reading
    taken in `finally`.
   */
  datatype Cycle = Cycle(reply: Reply, requestClock: int, finallyClock: int)

  /** The loop's state: the timestamp sent as `from_date`, and every critical error text so far. */
  datatype Poll = Poll(checkpoint: int, errors: seq<string>)

  /** Whether the loop goes on, or an exception it does not catch has ended `main`. */
  datatype Halt = Running | Crashed(error: PyError)

  datatype StepResult = StepResult(state: Poll, sent: seq<string>, query: int, halt: Halt)

  datatype RunResult = RunResult(state: Poll, sent: seq<string>, queries: seq<int>, halt: Halt)

  /** The `try` block: fetch, validate, interpret, stopping at the first exception. */
  function Attempt(reply: Reply): (r: Outcome<string>)
    ensures reply.TransportFailure? ==> r == Critical(EndpointUnreachable)
    ensures reply.HttpResponse? && reply.statusCode != 200 ==> r == Critical(StatusCodeMessage(reply.statusCode))
    ensures r.NonCritical? <==> reply.HttpResponse? && reply.statusCode == 200 && CheckResponse(reply.body).NonCritical?
    ensures r.NonCritical? ==> r.msg == NoChanges
    ensures reply.HttpResponse? && reply.statusCode == 200 && !CheckResponse(reply.body).Ok? ==>
              r == CheckResponse(reply.body).Propagate()
    ensures r.Ok? <==> reply.HttpResponse? && reply.statusCode == 200 && CheckResponse(reply.body).Ok? &&
                       ParseStatus(JList(CheckResponse(reply.body).value)).Ok?
    ensures reply.HttpResponse? && reply.statusCode == 200 && CheckResponse(reply.body).Ok? ==>
              r == ParseStatus(JList([CheckResponse(reply.body).value[0]]))
  {
    var answer := GetApiAnswer(reply);
    if !answer.Ok? then answer.Propagate()
    else
      var homework := CheckResponse(answer.value);
      if !homework.Ok? then homework.Propagate()
      else ParseStatus(JList(homework.value))
  }

  /**
    The announcement test, made after the new error has been appended: it is
    the only entry, or it differs from the one before it.
   */
  predicate AnnouncesLast(history: seq<string>)
    requires |history| >= 1
  {
    |history| == 1 || history[|history| - 1] != history[|history| - 2]
  }

  /** One iteration of the loop, as a function of the state before it. */
  function CycleSpec(s: Poll, c: Cycle): (r: StepResult)
    ensures r.state.checkpoint == c.finallyClock
    ensures s.checkpoint != 0 ==> r.query == s.checkpoint
    ensures s.checkpoint == 0 ==> r.query == c.requestClock
    ensures var o := Attempt(c.reply);
            && (o.Critical? ==> r.state.errors == s.errors + [o.msg])
            && (!o.Critical? ==> r.state.errors == s.errors)
            && (o.Ok? ==> r.sent == [o.value])
            && (o.NonCritical? || o.Uncaught? ==> r.sent == [])
            && (o.Critical? ==> r.sent == if s.errors == [] || s.errors[|s.errors| - 1] != o.msg then [o.msg] else [])
            && (o.Uncaught? ==> r.halt == Crashed(o.error))
            && (!o.Uncaught? ==> r.halt == Running)
  {
    var outcome := Attempt(c.reply);
    var errors := if outcome.Critical? then s.errors + [outcome.msg] else s.errors;
    var sent := match outcome
      case Ok(message) => [message]
      case Critical(msg) => if AnnouncesLast(errors) then [msg] else []
      case _ => [];
    var halt := if outcome.Uncaught? then Crashed(outcome.error) else Running;
    StepResult(Poll(c.finallyClock, errors), sent, FromDate(s.checkpoint, c.requestClock), halt)
  }

  /**
    Cycles run in order until one of them crashes; the cycles after a crash
    never run. Each executed cycle issues one request.
   */
  function RunSpec(s: Poll, cycles: seq<Cycle>): (r: RunResult)
    ensures |r.queries| <= |cycles|
    ensures r.halt == Running ==> |r.queries| == |cycles|
    ensures r.halt.Crashed? ==> |r.queries| >= 1
    decreases |cycles|
  {
    if cycles == [] then RunResult(s, [], [], Running)
    else
      var before := RunSpec(s, cycles[..|cycles| - 1]);
      if before.halt.Crashed? then before
      else
        var step := CycleSpec(before.state, cycles[|cycles| - 1]);
        RunResult(step.state, before.sent + step.sent, before.queries + [step.query], step.halt)
  }

  /** Once a run has crashed, further cycles change nothing. */
  lemma {:induction false} CrashIsFinal(s: Poll, cycles: seq<Cycle>, i: nat)
    requires i <= |cycles|
    requires RunSpec(s, cycles[..i]).halt.Crashed?
    ensures RunSpec(s, cycles) == RunSpec(s, cycles[..i])
    decreases |cycles| - i
  {
    if i < |cycles| {
      var shorter := cycles[..|cycles| - 1];
      assert shorter[..i] == cycles[..i];
      CrashIsFinal(s, shorter, i);
    } else {
      assert cycles[..i] == cycles;
    }
  }

  /** A run that crashed ended at its first uncaught exception; a run still going met none. */
  lemma {:induction false} RunStopsAtFirstCrash(s: Poll, cycles: seq<Cycle>)
    ensures var r := RunSpec(s, cycles);
            && (r.halt.Crashed? ==> Attempt(cycles[|r.queries| - 1].reply) == Uncaught(r.halt.error))
            && (forall k :: 0 <= k < |r.queries| - 1 ==> !Attempt(cycles[k].reply).Uncaught?)
            && (r.halt == Running ==> forall k :: 0 <= k < |cycles| ==> !Attempt(cycles[k].reply).Uncaught?)
    decreases |cycles|
  {
    if cycles != [] {
      var shorter := cycles[..|cycles| - 1];
      RunStopsAtFirstCrash(s, shorter);
      var before := RunSpec(s, shorter);
      var r := RunSpec(s, cycles);
      if before.halt.Crashed? {
        assert r == before;
        forall k | 0 <= k < |r.queries| ensures cycles[k] == shorter[k] { }
      } else {
        assert |before.queries| == |shorter| && |r.queries| == |cycles|;
        forall k | 0 <= k < |cycles| - 1 ensures !Attempt(cycles[k].reply).Uncaught? {
          assert cycles[k] == shorter[k];
        }
      }
    }
  }

  /**
    The first request asks from the initial checkpoint; every later request
    asks from the clock reading that ended the cycle before it (or from the
    clock when that reading was 0); the final checkpoint is the clock reading
    of the last cycle that ran, whatever its outcome.
   */
  lemma {:induction false} RunFollowsClock(s: Poll, cycles: seq<Cycle>)
    ensures var r := RunSpec(s, cycles);
            && |r.queries| <= |cycles|
            && (r.halt == Running ==> |r.queries| == |cycles|)
            && (r.halt.Crashed? ==> |r.queries| >= 1)
            && (|r.queries| == 0 ==> r.state == s)
            && (|r.queries| >= 1 ==> r.queries[0] == FromDate(s.checkpoint, cycles[0].requestClock))
            && (|r.queries| >= 1 ==> r.state.checkpoint == cycles[|r.queries| - 1].finallyClock)
            && (forall k :: 0 <= k < |r.queries| - 1 ==>
                  r.queries[k + 1] == FromDate(cycles[k].finallyClock, cycles[k + 1].requestClock))
    decreases |cycles|
  {
    if cycles != [] {
      var shorter := cycles[..|cycles| - 1];
      RunFollowsClock(s, shorter);
      var before := RunSpec(s, shorter);
      if !before.halt.Crashed? {
        var r := RunSpec(s, cycles);
        assert r.queries == before.queries + [CycleSpec(before.state, cycles[|cycles| - 1]).query];
        assert |before.queries| == |shorter|;
        forall k | 0 <= k < |r.queries| - 1
          ensures r.queries[k + 1] == FromDate(cycles[k].finallyClock, cycles[k + 1].requestClock)
        {
          if k + 1 < |before.queries| {
            assert r.queries[k + 1] == before.queries[k + 1];
            assert shorter[k] == cycles[k] && shorter[k + 1] == cycles[k + 1];
          } else {
            assert k + 1 == |cycles| - 1;
            assert before.state.checkpoint == cycles[k].finallyClock;
          }
        }
      }
    }
  }

  /** The texts of the critical errors among `cycles`, in order. */
  function ErrorTexts(cycles: seq<Cycle>): seq<string>
    decreases |cycles|
  {
    if cycles == [] then []
    else
      var o := Attempt(cycles[|cycles| - 1].reply);
      ErrorTexts(cycles[..|cycles| - 1]) + if o.Critical? then [o.msg] else []
  }

  /** The error history gains exactly the texts of the critical cycles that ran, in order. */
  lemma {:induction false} HistoryRecordsCriticalErrors(s: Poll, cycles: seq<Cycle>)
    ensures var r := RunSpec(s, cycles);
            |r.queries| <= |cycles| && r.state.errors == s.errors + ErrorTexts(cycles[..|r.queries|])
    decreases |cycles|
  {
    if cycles == [] {
      assert cycles[..0] == [];
    } else {
      var shorter := cycles[..|cycles| - 1];
      HistoryRecordsCriticalErrors(s, shorter);
      RunFollowsClock(s, shorter);
      var before := RunSpec(s, shorter);
      if before.halt.Crashed? {
        assert cycles[..|before.queries|] == shorter[..|before.queries|];
      } else {
        var r := RunSpec(s, cycles);
        var o := Attempt(cycles[|cycles| - 1].reply);
        assert shorter[..|before.queries|] == shorter;
        assert before.state.errors == s.errors + ErrorTexts(shorter);
        assert |r.queries| == |cycles|;
        assert cycles[..|cycles|] == cycles;
        assert ErrorTexts(cycles) == ErrorTexts(shorter) + if o.Critical? then [o.msg] else [];
        assert r.state.errors == before.state.errors + if o.Critical? then [o.msg] else [];
      }
    }
  }

  /**
    An independent statement of the deduplication: of the messages `ms`,
    keep each one that differs from the entry just before it in `history + ms`.
   */
  function Collapse(history: seq<string>, ms: seq<string>): seq<string>
    decreases |ms|
  {
    if ms == [] then []
    else
      (if history == [] || history[|history| - 1] != ms[0] then [ms[0]] else [])
      + Collapse(history + [ms[0]], ms[1..])
  }

  lemma {:induction false} CollapseAppend(history: seq<string>, ms: seq<string>, m: string)
    ensures var h := history + ms;
            Collapse(history, ms + [m]) == Collapse(history, ms) + if h == [] || h[|h| - 1] != m then [m] else []
    decreases |ms|
  {
    if ms == [] {
      assert ms + [m] == [m];
      assert history + ms == history;
    } else {
      var head := if history == [] || history[|history| - 1] != ms[0] then [ms[0]] else [];
      var next := history + [ms[0]];
      assert (ms + [m])[0] == ms[0];
      assert (ms + [m])[1..] == ms[1..] + [m];
      assert Collapse(history, ms + [m]) == head + Collapse(next, ms[1..] + [m]);
      assert Collapse(history, ms) == head + Collapse(next, ms[1..]);
      CollapseAppend(next, ms[1..], m);
      assert next + ms[1..] == history + ms;
    }
  }

  predicate AllCritical(cycles: seq<Cycle>)
  {
    forall i :: 0 <= i < |cycles| ==> Attempt(cycles[i].reply).Critical?
  }

  /**
    Over a stretch of failing cycles the loop announces an error exactly when
    it differs from the error recorded just before it.
   */
  lemma {:induction false} CriticalRunAnnouncesChanges(s: Poll, cycles: seq<Cycle>)
    requires AllCritical(cycles)
    ensures var r := RunSpec(s, cycles);
            && r.halt == Running
            && r.state.errors == s.errors + ErrorTexts(cycles)
            && r.sent == Collapse(s.errors, ErrorTexts(cycles))
    decreases |cycles|
  {
    if cycles != [] {
      var shorter := cycles[..|cycles| - 1];
      assert AllCritical(shorter) by {
        forall i | 0 <= i < |shorter| ensures Attempt(shorter[i].reply).Critical? {
          assert shorter[i] == cycles[i];
        }
      }
      CriticalRunAnnouncesChanges(s, shorter);
      var o := Attempt(cycles[|cycles| - 1].reply);
      assert o.Critical?;
      CollapseAppend(s.errors, ErrorTexts(shorter), o.msg);
      assert s.errors + ErrorTexts(shorter) + [o.msg] == s.errors + ErrorTexts(cycles);
    }
  }

  lemma ThreeErrorTexts(c1: Cycle, c2: Cycle, c3: Cycle)
    requires Attempt(c1.reply).Critical? && Attempt(c2.reply).Critical? && Attempt(c3.reply).Critical?
    ensures AllCritical([c1, c2, c3])
    ensures ErrorTexts([c1, c2, c3]) == [Attempt(c1.reply).msg, Attempt(c2.reply).msg, Attempt(c3.reply).msg]
  {
    var cs := [c1, c2, c3];
    assert cs[..2] == [c1, c2] && [c1, c2][..1] == [c1] && [c1][..0] == [];
    assert ErrorTexts([c1]) == [Attempt(c1.reply).msg];
    assert ErrorTexts([c1, c2]) == [Attempt(c1.reply).msg] + [Attempt(c2.reply).msg];
    assert ErrorTexts(cs) == ErrorTexts([c1, c2]) + [Attempt(c3.reply).msg];
  }

  /** Three failing cycles with one and the same error: it is announced once. */
  lemma RepeatedErrorAnnouncedOnce(t: int, c1: Cycle, c2: Cycle, c3: Cycle)
    requires Attempt(c1.reply).Critical? && Attempt(c2.reply).Critical? && Attempt(c3.reply).Critical?
    requires Attempt(c1.reply).msg == Attempt(c2.reply).msg == Attempt(c3.reply).msg
    ensures RunSpec(Poll(t, []), [c1, c2, c3]).sent == [Attempt(c1.reply).msg]
  {
    var cs := [c1, c2, c3];
    var e1, e2, e3 := Attempt(c1.reply).msg, Attempt(c2.reply).msg, Attempt(c3.reply).msg;
    ThreeErrorTexts(c1, c2, c3);
    CriticalRunAnnouncesChanges(Poll(t, []), cs);
    assert Collapse([e1, e2], [e3]) == (if e2 != e3 then [e3] else []) + Collapse([e1, e2, e3], []);
    assert [e1, e2, e3][1..] == [e2, e3] && [e2, e3][1..] == [e3];
    assert [] + [e1] == [e1] && [e1] + [e2] == [e1, e2];
    assert Collapse([e1], [e2, e3]) == (if e1 != e2 then [e2] else []) + Collapse([e1, e2], [e3]);
    assert Collapse([], [e1, e2, e3]) == [e1] + Collapse([e1], [e2, e3]);
  }

  /** Errors e, f, e in a row: each one is announced. */
  lemma AlternatingErrorsAllAnnounced(t: int, c1: Cycle, c2: Cycle, c3: Cycle)
    requires Attempt(c1.reply).Critical? && Attempt(c2.reply).Critical? && Attempt(c3.reply).Critical?
    requires Attempt(c1.reply).msg == Attempt(c3.reply).msg != Attempt(c2.reply).msg
    ensures RunSpec(Poll(t, []), [c1, c2, c3]).sent ==
            [Attempt(c1.reply).msg, Attempt(c2.reply).msg, Attempt(c3.reply).msg]
  {
    var cs := [c1, c2, c3];
    var e1, e2, e3 := Attempt(c1.reply).msg, Attempt(c2.reply).msg, Attempt(c3.reply).msg;
    ThreeErrorTexts(c1, c2, c3);
    CriticalRunAnnouncesChanges(Poll(t, []), cs);
    assert Collapse([e1, e2], [e3]) == (if e2 != e3 then [e3] else []) + Collapse([e1, e2, e3], []);
    assert [e1, e2, e3][1..] == [e2, e3] && [e2, e3][1..] == [e3];
    assert [] + [e1] == [e1] && [e1] + [e2] == [e1, e2];
    assert Collapse([e1], [e2, e3]) == (if e1 != e2 then [e2] else []) + Collapse([e1, e2], [e3]);
    assert Collapse([], [e1, e2, e3]) == [e1] + Collapse([e1], [e2, e3]);
  }

  /** The transport error and a status-code error have different texts. */
  lemma OutageDiffersFromStatusCode(code: int)
    ensures EndpointUnreachable != StatusCodeMessage(code)
  {
    assert EndpointUnreachable[0] != StatusCodeMessage(code)[0];
  }

  /** An outage, then a 500, then the outage again: three notifications. */
  lemma OutageThenServerErrorThenOutage(t: int, body: Json, clocks: seq<int>)
    requires |clocks| == 6
    ensures var cycles := [Cycle(TransportFailure, clocks[0], clocks[1]),
                           Cycle(HttpResponse(500, body), clocks[2], clocks[3]),
                           Cycle(TransportFailure, clocks[4], clocks[5])];
            RunSpec(Poll(t, []), cycles).sent == [EndpointUnreachable, StatusCodeMessage(500), EndpointUnreachable]
  {
    OutageDiffersFromStatusCode(500);
    AlternatingErrorsAllAnnounced(t, Cycle(TransportFailure, clocks[0], clocks[1]),
                                  Cycle(HttpResponse(500, body), clocks[2], clocks[3]),
                                  Cycle(TransportFailure, clocks[4], clocks[5]));
  }

  /** A reply with a known status sends exactly its notification and keeps the error history. */
  lemma SuccessSendsNotification(s: Poll, name: string, status: string, rest: seq<Json>,
                                 others: map<string, Json>, requestClock: int, finallyClock: int)
    requires status in HomeworkStatuses
    ensures var reply := HttpResponse(200, ResponseWith([HomeworkRecord(name, status)] + rest, others));
            var r := CycleSpec(s, Cycle(reply, requestClock, finallyClock));
            && r.sent == [Notification(name, HomeworkStatuses[status])]
            && r.state == Poll(finallyClock, s.errors)
            && r.halt == Running
  {
  }

  /**
    A successful cycle does not reset the deduplication: the same error
    before and after it is announced only the first time.
   */
  lemma ErrorAfterRecoveryStaysSilent(s: Poll, c1: Cycle, c2: Cycle, c3: Cycle)
    requires s.errors == []
    requires Attempt(c1.reply).Critical? && Attempt(c2.reply).Ok? && Attempt(c3.reply) == Attempt(c1.reply)
    ensures RunSpec(s, [c1, c2, c3]).sent == [Attempt(c1.reply).msg, Attempt(c2.reply).value]
  {
    var cs := [c1, c2, c3];
    var e := Attempt(c1.reply).msg;
    assert cs[..2] == [c1, c2] && [c1, c2][..1] == [c1] && [c1][..0] == [];
    var r1 := RunSpec(s, [c1]);
    var step1 := CycleSpec(s, c1);
    assert RunSpec(s, [c1][..0]) == RunResult(s, [], [], Running);
    assert r1 == RunResult(step1.state, [] + step1.sent, [] + [step1.query], step1.halt);
    assert r1.state.errors == [e] && r1.sent == [e] && r1.halt == Running;
    var r2 := RunSpec(s, [c1, c2]);
    assert r2.state.errors == [e] && r2.sent == [e, Attempt(c2.reply).value] && r2.halt == Running;
    assert RunSpec(s, cs).sent == r2.sent;
  }

  /** Two replies in a row without `homeworks`: the error is announced once. */
  lemma MissingHomeworksAnnouncedOnce(t: int, fields1: map<string, Json>, fields2: map<string, Json>,
                                      c1: int, f1: int, c2: int, f2: int)
    requires HomeworksKey !in fields1 && HomeworksKey !in fields2
    ensures var cycles := [Cycle(HttpResponse(200, JObject(fields1)), c1, f1),
                           Cycle(HttpResponse(200, JObject(fields2)), c2, f2)];
            var r := RunSpec(Poll(t, []), cycles);
            r.sent == [NoHomeworks] && r.state == Poll(f2, [NoHomeworks, NoHomeworks]) && r.halt == Running
  {
    var cycles := [Cycle(HttpResponse(200, JObject(fields1)), c1, f1),
                   Cycle(HttpResponse(200, JObject(fields2)), c2, f2)];
    assert cycles[..1] == [cycles[0]] && [cycles[0]][..0] == [];
    var step1 := CycleSpec(Poll(t, []), cycles[0]);
    assert RunSpec(Poll(t, []), cycles[..1]) == RunResult(step1.state, [] + step1.sent, [] + [step1.query], step1.halt);
  }

  /** Cycles with nothing new send nothing and leave the error history alone. */
  lemma {:induction false} QuietRunIsSilent(s: Poll, cycles: seq<Cycle>)
    requires forall i :: 0 <= i < |cycles| ==> Attempt(cycles[i].reply).NonCritical?
    ensures var r := RunSpec(s, cycles);
            r.sent == [] && r.state.errors == s.errors && r.halt == Running
    decreases |cycles|
  {
    if cycles != [] {
      var shorter := cycles[..|cycles| - 1];
      forall i | 0 <= i < |shorter| ensures Attempt(shorter[i].reply).NonCritical? {
        assert shorter[i] == cycles[i];
      }
      QuietRunIsSilent(s, shorter);
    }
  }

  /** The state `main` keeps across iterations of its loop. */
  class Poller {
    var checkpoint: int
    var errors: seq<string>

    /** `main` starts with the clock as checkpoint and no errors seen. */
    constructor (startClock: int)
      ensures checkpoint == startClock && errors == []
    {
      checkpoint := startClock;
      errors := [];
    }

    function State(): Poll
      reads this
    {
      Poll(checkpoint, errors)
    }

    /** One iteration of the loop; returns what it sent, the `from_date` it asked for, and whether `main` ended. */
    method Step(c: Cycle) returns (sent: seq<string>, query: int, halt: Halt)
      modifies this
      ensures StepResult(State(), sent, query, halt) == CycleSpec(old(State()), c)
    {
      sent, halt := [], Running;
      query := FromDate(checkpoint, c.requestClock);
      var outcome := Attempt(c.reply);
      match outcome {
        case NonCritical(_) =>
        case Critical(msg) =>
          errors := errors + [msg];
          var lastIndex := |errors| - 1;
          if |errors| == 1 || errors[lastIndex] != errors[lastIndex - 1] {
            sent := [msg];
          }
        case Ok(message) =>
          sent := [message];
        case Uncaught(e) =>
          halt := Crashed(e);
      }
      // `finally`: the checkpoint becomes the clock reading, whatever happened
      checkpoint := c.finallyClock;
    }

    /** Runs the loop over `cycles`, stopping at the first crash. */
    method Run(cycles: seq<Cycle>) returns (sent: seq<string>, queries: seq<int>, halt: Halt)
      modifies this
      ensures RunResult(State(), sent, queries, halt) == RunSpec(old(State()), cycles)
    {
      sent, queries, halt := [], [], Running;
      var i := 0;
      while i < |cycles| && halt == Running
        invariant 0 <= i <= |cycles|
        invariant RunResult(State(), sent, queries, halt) == RunSpec(old(State()), cycles[..i])
      {
        var out, query, h := Step(cycles[i]);
        sent, queries, halt := sent + out, queries + [query], h;
        i := i + 1;
        assert cycles[..i][..i - 1] == cycles[..i - 1];
      }
      if i < |cycles| {
        CrashIsFinal(old(State()), cycles, i);
      } else {
        assert cycles[..i] == cycles;
      }
    }
  }

  /**
    `main`: nothing happens unless all three settings are present; otherwise
    the loop starts from the clock with an empty error history.
   */
  method RunBot(settings: Settings, startClock: int, cycles: seq<Cycle>)
    returns (started: bool, sent: seq<string>, queries: seq<int>, halt: Halt)
    ensures started == CheckTokens(settings)
    ensures !started ==> sent == [] && queries == [] && halt == Running
    ensures started ==> var r := RunSpec(Poll(startClock, []), cycles);
                        sent == r.sent && queries == r.queries && halt == r.halt
  {
    started := CheckTokens(settings);
    if !started {
      return started, [], [], Running;
    }
    var poller := new Poller(startClock);
    sent, queries, halt := poller.Run(cycles);
  }
}
