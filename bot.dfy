/** The body of `main`'s `while True` loop (homework.py lines 124-143) as a
    transition over the locals that survive an iteration, with the outside
    world reduced to inputs (what `get_api_answer` and each `send_message`
    did) and outputs (the messages sent and the sleeps taken, in order). */
module Bot {
  import opened Python
  import opened Homework

  const AlertPrefix := "Сбой в работе программы: "
  const SendFailurePrefix := "Ошибка "
  /** `str()` of the UnboundLocalError raised by reading `message` before any assignment. */
  const UnboundMessageMsg := "cannot access local variable 'message' where it is not associated with a value"

  /** A text of the shape line 139 builds. */
  predicate IsAlert(text: string) {
    |AlertPrefix| < |text| && text[..|AlertPrefix|] == AlertPrefix && text[|text| - 1] == '.'
  }

  /** Line 139: the alert for a caught exception, which carries `str(error)`. */
  function Alert(error: PyErr): (text: string)
    ensures IsAlert(text)
    ensures text[|AlertPrefix|..|text| - 1] == error.msg
  {
    AlertPrefix + error.msg + "."
  }

  /** What `bot.send_message` did; the Telegram client is outside the model. */
  datatype Delivery = Delivered | Undelivered(reason: string)

  /** An effect of the loop on the outside world. */
  datatype Effect = Sent(text: string, delivered: bool) | Slept(seconds: int)

  /** What `get_api_answer(timestamp)` did: returned the decoded body, or raised. */
  datatype ApiAnswer = Answer(body: Json) | ApiError(error: PyErr)

  /** What one iteration reads from outside: the API call, and the outcome of
      the `send_message` of line 134 and of the one of line 141. */
  datatype StepInput = StepInput(api: ApiAnswer, updateDelivery: Delivery, alertDelivery: Delivery)

  /** `main`'s locals that outlive an iteration; `message` is None while unbound. */
  datatype Locals = Locals(timestamp: int, recentStatus: Json, message: Option<string>)

  /** Lines 121-122: the state before the first iteration. */
  function Start(now: int): (s: Locals)
    ensures s.timestamp == now && s.message.None? && s.recentStatus == Str("") && !Truthy(s.recentStatus)
  {
    Locals(now, Str(""), None)
  }

  /** Where an iteration, or a run of them, leaves the locals, what it did, and
      the exception that escaped the loop, if one did. */
  datatype Outcome = Outcome(locals: Locals, trace: seq<Effect>, uncaught: Option<PyErr>)

  datatype SendOutcome = SendOutcome(effect: Effect, raised: Option<PyErr>)

  /** `send_message`, lines 52-59: a failed delivery is re-raised as a new Exception. */
  function SendMessage(text: string, delivery: Delivery): (r: SendOutcome)
    ensures r.effect == Sent(text, delivery.Delivered?)
    ensures r.raised.Some? <==> delivery.Undelivered?
    ensures delivery.Undelivered? ==> r.raised == Some(AnyException(SendFailurePrefix + delivery.reason))
  {
    match delivery
    case Delivered => SendOutcome(Sent(text, true), None)
    case Undelivered(reason) => SendOutcome(Sent(text, false), Some(AnyException(SendFailurePrefix + reason)))
  }

  /** Where the `try` block (lines 125-137) leaves `recent_status_homework` and
      `message`, what it sent, and what it raised. */
  datatype TryOutcome = TryOutcome(recentStatus: Json, message: Option<string>, effects: seq<Effect>, raised: Option<PyErr>)

  /** An iteration whose response passes `check_response` but has no truthy
      'homework' key, such as one carrying only 'homeworks' and 'current_date'. */
  predicate Quiet(input: StepInput) {
    input.api.Answer? && WellShaped(input.api.body) && !Truthy(DictGet(input.api.body.fields, "homework"))
  }

  /** The `try` block. It raises on every input that is not quiet. An API
      failure or a `check_response` failure is raised as it is, before any
      record is looked at. It never sends (line 134 is never reached, because
      `parse_status` never returns), never binds `message`, and when it changes
      `recent_status_homework` the new value differs from the old in Python's
      `==` and the block has raised a TypeError. */
  function TryBlock(s: Locals, input: StepInput): (r: TryOutcome)
    ensures r.raised.None? <==> Quiet(input)
    ensures input.api.ApiError? ==> r.raised == Some(input.api.error) && r.recentStatus == s.recentStatus
    ensures input.api.Answer? && CheckResponse(input.api.body).Failure? ==>
              r.raised == Some(CheckResponse(input.api.body).error) && r.recentStatus == s.recentStatus
    ensures r.effects == []
    ensures r.message == s.message
    ensures r.recentStatus == s.recentStatus ||
              (!PyEq(s.recentStatus, r.recentStatus) && r.raised.Some? && r.raised.value.TypeError?)
  {
    match input.api
    case ApiError(e) => TryOutcome(s.recentStatus, s.message, [], Some(e))
    case Answer(response) =>
      match CheckResponse(response)
      case Failure(e) => TryOutcome(s.recentStatus, s.message, [], Some(e))
      case Success(_) =>
        // line 128 reads the key 'homework', not 'homeworks'
        var homework := DictGet(response.fields, "homework");
        if !Truthy(homework) then
          TryOutcome(s.recentStatus, s.message, [], None)
        else
          match Subscript0(homework)
          case Failure(e) => TryOutcome(s.recentStatus, s.message, [], Some(e))
          case Success(newStatus) =>
            match GetMethod(newStatus, "status")
            case Failure(e) => TryOutcome(s.recentStatus, s.message, [], Some(e))
            case Success(status) =>
              if !PyEq(s.recentStatus, status) then
                // lines 131-133: the status, not the record, is passed to parse_status
                match ParseStatus(status)
                case Failure(e) => TryOutcome(status, s.message, [], Some(e))
                case Success(text) =>
                  var sent := SendMessage(text, input.updateDelivery);
                  TryOutcome(status, Some(text), [sent.effect], sent.raised)
              else
                // line 137: `raise Exception(message)`, `message` possibly unbound
                match s.message
                case None => TryOutcome(s.recentStatus, s.message, [], Some(UnboundLocalError(UnboundMessageMsg)))
                case Some(m) => TryOutcome(s.recentStatus, s.message, [], Some(AnyException(m)))
  }

  /** One iteration: the `try` block, the `except` branch (lines 138-141) and
      the `finally` sleep (line 143). The timestamp never changes; every
      iteration ends with exactly one sleep of `RETRY_PERIOD`; exactly one
      message is sent unless the iteration is quiet, and none when it is. That
      message is the alert for the exception the `try` block raised, which also
      becomes `message`; `recent_status_homework` is whatever the `try` block
      left in it; an exception escapes the
      loop only when that alert could not be delivered; an iteration that
      sends nothing changes nothing. */
  function Cycle(s: Locals, input: StepInput): (r: Outcome)
    ensures r.locals.timestamp == s.timestamp
    ensures r.locals.recentStatus == TryBlock(s, input).recentStatus
    ensures |r.trace| == 1 || |r.trace| == 2
    ensures r.trace[|r.trace| - 1] == Slept(RetryPeriod)
    ensures |r.trace| == 2 <==> !Quiet(input)
    ensures |r.trace| == 2 <==> TryBlock(s, input).raised.Some?
    ensures |r.trace| == 2 ==>
              r.trace[0] == Sent(Alert(TryBlock(s, input).raised.value), input.alertDelivery.Delivered?) &&
              r.locals.message == Some(r.trace[0].text)
    ensures |r.trace| == 1 ==> r.locals == s && r.uncaught.None?
    ensures r.uncaught.Some? <==> |r.trace| == 2 && !r.trace[0].delivered
    ensures r.uncaught.Some? ==> r.uncaught == Some(AnyException(SendFailurePrefix + input.alertDelivery.reason))
  {
    var t := TryBlock(s, input);
    match t.raised
    case None =>
      Outcome(Locals(s.timestamp, t.recentStatus, t.message), t.effects + [Slept(RetryPeriod)], None)
    case Some(error) =>
      var message := Alert(error);
      var sent := SendMessage(message, input.alertDelivery);
      // the `finally` sleep runs even when the send of line 141 raises
      Outcome(Locals(s.timestamp, t.recentStatus, Some(message)), t.effects + [sent.effect, Slept(RetryPeriod)], sent.raised)
  }

  /** One iteration of the loop, written as the statements of lines 125-143. */
  method Step(s: Locals, input: StepInput) returns (next: Locals, trace: seq<Effect>, uncaught: Option<PyErr>)
    ensures Outcome(next, trace, uncaught) == Cycle(s, input)
  {
    var recentStatus, message := s.recentStatus, s.message;
    trace, uncaught := [], None;
    var raised: Option<PyErr> := None;
    // try:
    match input.api {
      case ApiError(e) =>
        raised := Some(e);
      case Answer(response) =>
        var checked := CheckResponse(response);
        if checked.Failure? {
          raised := Some(checked.error);
        } else {
          var homework := DictGet(response.fields, "homework");
          if Truthy(homework) {
            var newStatus := Subscript0(homework);
            if newStatus.Failure? {
              raised := Some(newStatus.error);
            } else {
              var status := GetMethod(newStatus.value, "status");
              if status.Failure? {
                raised := Some(status.error);
              } else if !PyEq(recentStatus, status.value) {
                recentStatus := status.value;
                match ParseStatus(recentStatus) {
                  case Failure(e) =>
                    raised := Some(e);
                  case Success(text) =>
                    message := Some(text);
                    var sent := SendMessage(text, input.updateDelivery);
                    trace := trace + [sent.effect];
                    raised := sent.raised;
                }
              } else {
                match message {
                  case None => raised := Some(UnboundLocalError(UnboundMessageMsg));
                  case Some(m) => raised := Some(AnyException(m));
                }
              }
            }
          }
        }
    }
    // except Exception as error:
    match raised {
      case None =>
      case Some(error) =>
        message := Some(Alert(error));
        var sent := SendMessage(Alert(error), input.alertDelivery);
        trace := trace + [sent.effect];
        uncaught := sent.raised;
    }
    // finally:
    trace := trace + [Slept(RetryPeriod)];
    next := Locals(s.timestamp, recentStatus, message);
  }

  // ------------------------------------------------------------ runs of the loop

  function Prepend(effects: seq<Effect>, r: Outcome): Outcome {
    r.(trace := effects + r.trace)
  }

  /** The loop run over a sequence of iteration inputs: it stops after the
      inputs are used up, or after the iteration from which an exception escapes. */
  function Loop(s: Locals, inputs: seq<StepInput>): Outcome
    decreases |inputs|
  {
    if inputs == [] then Outcome(s, [], None)
    else
      var c := Cycle(s, inputs[0]);
      if c.uncaught.Some? then c else Prepend(c.trace, Loop(c.locals, inputs[1..]))
  }

  /** The `while True` loop of lines 124-143, run over the given inputs. */
  method PollLoop(s: Locals, inputs: seq<StepInput>) returns (r: Outcome)
    ensures r == Loop(s, inputs)
  {
    var current := s;
    var trace: seq<Effect> := [];
    var i := 0;
    while i < |inputs|
      invariant 0 <= i <= |inputs|
      invariant Loop(s, inputs) == Prepend(trace, Loop(current, inputs[i..]))
    {
      assert inputs[i..][0] == inputs[i] && inputs[i..][1..] == inputs[i + 1..];
      var next, effects, uncaught := Step(current, inputs[i]);
      if uncaught.Some? {
        return Outcome(next, trace + effects, uncaught);
      }
      assert (trace + effects) + Loop(next, inputs[i + 1..]).trace == trace + (effects + Loop(next, inputs[i + 1..]).trace);
      trace := trace + effects;
      current := next;
      i := i + 1;
    }
    r := Outcome(current, trace, None);
  }

  /** The number of sleeps (`slept`) or of sends (`!slept`) in a trace. */
  function Count(trace: seq<Effect>, slept: bool): nat {
    if trace == [] then 0 else (if trace[0].Slept? == slept then 1 else 0) + Count(trace[1..], slept)
  }

  lemma {:induction false} CountAppend(a: seq<Effect>, b: seq<Effect>, slept: bool)
    ensures Count(a + b, slept) == Count(a, slept) + Count(b, slept)
  {
    if a == [] {
      assert a + b == b;
    } else {
      assert (a + b)[1..] == a[1..] + b;
      CountAppend(a[1..], b, slept);
    }
  }

  lemma CycleCounts(s: Locals, input: StepInput)
    ensures Count(Cycle(s, input).trace, true) == 1
    ensures Count(Cycle(s, input).trace, false) == |Cycle(s, input).trace| - 1
  {
    var t := Cycle(s, input).trace;
    if |t| == 2 {
      assert t[1..] == [Slept(RetryPeriod)] && t[1..][1..] == [];
      assert Count(t[1..], true) == 1 && Count(t[1..], false) == 0;
    } else {
      assert t[1..] == [];
    }
  }

  /** `timestamp` is set once, before the loop, and never reassigned. */
  lemma {:induction false} LoopKeepsTimestamp(s: Locals, inputs: seq<StepInput>)
    ensures Loop(s, inputs).locals.timestamp == s.timestamp
    decreases |inputs|
  {
    if inputs != [] {
      var c := Cycle(s, inputs[0]);
      if c.uncaught.None? {
        LoopKeepsTimestamp(c.locals, inputs[1..]);
      }
    }
  }

  /** Every iteration that runs sleeps exactly once and sends at most one
      message: a run over n inputs that no exception escapes sleeps n times; one
      that an exception ends sleeps at least once, and its last effect is still a sleep. */
  lemma {:induction false} LoopSleepsOncePerIteration(s: Locals, inputs: seq<StepInput>)
    ensures var r := Loop(s, inputs);
      (r.uncaught.None? ==> Count(r.trace, true) == |inputs|) &&
      (r.uncaught.Some? ==> 1 <= Count(r.trace, true) <= |inputs|) &&
      Count(r.trace, false) <= Count(r.trace, true) &&
      (r.trace == [] <==> inputs == []) &&
      (r.trace != [] ==> r.trace[|r.trace| - 1] == Slept(RetryPeriod))
    decreases |inputs|
  {
    if inputs != [] {
      var c := Cycle(s, inputs[0]);
      CycleCounts(s, inputs[0]);
      if c.uncaught.None? {
        var rest := Loop(c.locals, inputs[1..]);
        LoopSleepsOncePerIteration(c.locals, inputs[1..]);
        CountAppend(c.trace, rest.trace, true);
        CountAppend(c.trace, rest.trace, false);
      }
    }
  }

  /** The number of inputs that are not quiet. */
  function NotQuietCount(inputs: seq<StepInput>): nat {
    if inputs == [] then 0 else (if Quiet(inputs[0]) then 0 else 1) + NotQuietCount(inputs[1..])
  }

  /** A run that no exception escapes sends exactly one alert per iteration
      that is not quiet: status changes, repeated statuses, malformed
      responses and API failures alike. */
  lemma {:induction false} LoopAlertsOncePerNonQuietInput(s: Locals, inputs: seq<StepInput>)
    ensures Loop(s, inputs).uncaught.None? ==> Count(Loop(s, inputs).trace, false) == NotQuietCount(inputs)
    decreases |inputs|
  {
    if inputs != [] {
      var c := Cycle(s, inputs[0]);
      CycleCounts(s, inputs[0]);
      if c.uncaught.None? {
        var rest := Loop(c.locals, inputs[1..]);
        LoopAlertsOncePerNonQuietInput(c.locals, inputs[1..]);
        CountAppend(c.trace, rest.trace, false);
      }
    }
  }

  /** Every message the loop sends is an alert of the shape built on line 139,
      and every sleep lasts `RETRY_PERIOD`. */
  lemma {:induction false} LoopEffectsAreAlertsAndSleeps(s: Locals, inputs: seq<StepInput>)
    ensures forall e :: e in Loop(s, inputs).trace ==>
              (e.Sent? && IsAlert(e.text)) || e == Slept(RetryPeriod)
    decreases |inputs|
  {
    if inputs != [] {
      var c := Cycle(s, inputs[0]);
      assert forall e :: e in c.trace ==> (e.Sent? && IsAlert(e.text)) || e == Slept(RetryPeriod) by {
        if |c.trace| == 2 {
          assert c.trace == [c.trace[0], c.trace[1]];
        } else {
          assert c.trace == [c.trace[0]];
        }
      }
      if c.uncaught.None? {
        LoopEffectsAreAlertsAndSleeps(c.locals, inputs[1..]);
      }
    }
  }

  /** `message`, once bound, always holds an alert. */
  predicate MessageIsAlert(s: Locals) {
    s.message.Some? ==> IsAlert(s.message.value)
  }

  lemma {:induction false} LoopKeepsMessageAlert(s: Locals, inputs: seq<StepInput>)
    requires MessageIsAlert(s)
    ensures MessageIsAlert(Loop(s, inputs).locals)
    decreases |inputs|
  {
    if inputs != [] {
      var c := Cycle(s, inputs[0]);
      if c.uncaught.None? {
        LoopKeepsMessageAlert(c.locals, inputs[1..]);
      }
    }
  }

  /** Quiet iterations send nothing and change nothing: the run only sleeps. */
  lemma {:induction false} LoopQuietOnlySleeps(s: Locals, inputs: seq<StepInput>)
    requires forall i :: 0 <= i < |inputs| ==> Quiet(inputs[i])
    ensures Loop(s, inputs) == Outcome(s, seq(|inputs|, _ => Slept(RetryPeriod)), None)
    decreases |inputs|
  {
    if inputs != [] {
      assert Quiet(inputs[0]);
      var c := Cycle(s, inputs[0]);
      assert c == Outcome(s, [Slept(RetryPeriod)], None);
      LoopQuietOnlySleeps(s, inputs[1..]);
      assert [Slept(RetryPeriod)] + seq(|inputs| - 1, _ => Slept(RetryPeriod)) == seq(|inputs|, _ => Slept(RetryPeriod));
    }
  }

  /** `recent_status_homework` changes only when the response has a non-empty
      'homework' list whose first element is a dict with a status differing
      from the recorded one; it then takes that status, and the iteration
      still ends in the alert for the TypeError `parse_status` raises. */
  lemma CycleStatusChange(s: Locals, input: StepInput)
    requires Cycle(s, input).locals.recentStatus != s.recentStatus
    ensures input.api.Answer? && WellShaped(input.api.body)
    ensures var homework := DictGet(input.api.body.fields, "homework");
      homework.List? && homework.items != [] && homework.items[0].Object? &&
      var status := DictGet(homework.items[0].fields, "status");
      !PyEq(s.recentStatus, status) &&
      Cycle(s, input).locals.recentStatus == status &&
      Cycle(s, input).trace[0].text ==
        Alert(TypeError(if status.Object? then DictNotCallableMsg else NotDictMsg))
  {
  }

  /** Conversely, a first record whose status differs under `==` from the
      recorded one IS recorded (lines 130-132), even though the iteration then
      raises in `parse_status`. */
  lemma CycleRecordsDifferingStatus(s: Locals, input: StepInput, record: map<string, Json>, rest: seq<Json>)
    requires input.api.Answer? && WellShaped(input.api.body)
    requires DictGet(input.api.body.fields, "homework") == List([Object(record)] + rest)
    requires !PyEq(s.recentStatus, DictGet(record, "status"))
    ensures Cycle(s, input).locals.recentStatus == DictGet(record, "status")
  {
  }

  /** A recorded status seen again does not stay quiet: line 137 raises, so the
      iteration sends the alert wrapping the previous `message` (or the
      UnboundLocalError when none was bound yet). */
  lemma CycleRepeatedStatusAlerts(s: Locals, input: StepInput, record: map<string, Json>, rest: seq<Json>)
    requires input.api.Answer? && WellShaped(input.api.body)
    requires DictGet(input.api.body.fields, "homework") == List([Object(record)] + rest)
    requires PyEq(s.recentStatus, DictGet(record, "status"))
    ensures var r := Cycle(s, input);
      r.locals.recentStatus == s.recentStatus &&
      r.trace[0] == Sent(Alert(if s.message.None? then UnboundLocalError(UnboundMessageMsg) else AnyException(s.message.value)),
                         input.alertDelivery.Delivered?)
  {
  }

  /** An API failure is alerted and the iteration still sleeps. */
  lemma CycleApiErrorAlerts(s: Locals, error: PyErr, updateDelivery: Delivery, alertDelivery: Delivery)
    ensures Cycle(s, StepInput(ApiError(error), updateDelivery, alertDelivery)).trace ==
              [Sent(Alert(error), alertDelivery.Delivered?), Slept(RetryPeriod)]
  {
  }

  /** The response of a submission just approved, as the API sends it. */
  const ApprovedResponse := Object(map[
    "homeworks" := List([Object(map["homework_name" := Str("hw1"), "status" := Str("approved")])]),
    "current_date" := Int(100)
  ])

  /** As written, that response produces no notification: line 128 finds no 'homework' key. */
  lemma ApprovedResponseIsSilent(now: int, updateDelivery: Delivery, alertDelivery: Delivery)
    ensures Cycle(Start(now), StepInput(Answer(ApprovedResponse), updateDelivery, alertDelivery)) ==
              Outcome(Start(now), [Slept(RetryPeriod)], None)
  {
    assert WellShaped(ApprovedResponse);
  }

  /** Two iterations that both see status "reviewing" under the 'homework' key,
      both alerts delivered: each sends an alert, and the second wraps the first. */
  lemma RepeatedReviewingAlertsTwice(now: int)
    ensures var response := Object(map["homeworks" := List([]), "homework" := List([Object(map["status" := Str("reviewing")])])]);
      var input := StepInput(Answer(response), Delivered, Delivered);
      var first := Alert(TypeError(NotDictMsg));
      Loop(Start(now), [input, input]) ==
        Outcome(Locals(now, Str("reviewing"), Some(Alert(AnyException(first)))),
                [Sent(first, true), Slept(RetryPeriod), Sent(Alert(AnyException(first)), true), Slept(RetryPeriod)],
                None)
  {
    var response := Object(map["homeworks" := List([]), "homework" := List([Object(map["status" := Str("reviewing")])])]);
    var input := StepInput(Answer(response), Delivered, Delivered);
    assert WellShaped(response);
    assert [input, input][1..] == [input];
    var first := Alert(TypeError(NotDictMsg));
    var s1 := Locals(now, Str("reviewing"), Some(first));
    assert Cycle(Start(now), input) == Outcome(s1, [Sent(first, true), Slept(RetryPeriod)], None);
    assert PyEq(Str("reviewing"), Str("reviewing"));
    var second := Alert(AnyException(first));
    var s2 := Locals(now, Str("reviewing"), Some(second));
    assert Cycle(s1, input) == Outcome(s2, [Sent(second, true), Slept(RetryPeriod)], None);
    assert Loop(s1, [input]) == Prepend([Sent(second, true), Slept(RetryPeriod)], Loop(s2, []));
  }
}
