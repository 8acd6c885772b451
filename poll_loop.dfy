/**
 * One iteration of the bot's `while True` loop in main, as a state transition over the
 * cursor (`current_timestamp`), the messages delivered to the chat, the query windows
 * sent to the API, the waits taken and whether the process is still running.
 *
 * main hands the whole `homeworks` list to parse_status. `Formatting` selects between
 * that call as written (`WholeList`) and the call the code was evidently meant to make
 * on the first record (`FirstRecord`); see PollLoop.AsWrittenAlwaysRaises.
 */
module PollLoop {

  import opened Wrappers
  import opened PyValue
  import opened Homework

  /** What the outside world does during one iteration. */
  datatype Env = Env(
    now: int,                 // int(time.time()) when get_api_answer runs
    transport: Transport,     // how the HTTP request ended
    firstDelivered: bool,     // whether the first send_message of the iteration got through
    secondDelivered: bool     // whether the second one ('я стоп') got through
  )

  /** Which value main passes to parse_status. */
  datatype Formatting = WholeList | FirstRecord

  datatype Phase =
    | Running
      /** sys.exit() after the stop message. */
    | Stopped
      /** An exception the loop does not catch ended the process. */
    | Crashed(error: Error)

  datatype State = State(
    cursor: Value,
    outbox: seq<string>,
    queries: seq<Value>,
    sleeps: seq<nat>,
    phase: Phase
  )

  const FAILURE_PREFIX := "Сбой в работе программы: "
  const STOP_MESSAGE := "я стоп"
  /** The short pause before the stop message. */
  const STOP_PAUSE: nat := 5

  /** The text sent when the try block raised `e`. */
  function FailureText(e: Error): string {
    FAILURE_PREFIX + ErrorText(e)
  }

  /** send_message: a delivered message is appended, a TelegramError is swallowed. */
  function Send(outbox: seq<string>, message: string, delivered: bool): seq<string> {
    if delivered then outbox + [message] else outbox
  }

  /** Python's `needle in hay` on strings. */
  predicate Contains(hay: string, needle: string)
    decreases |hay|
  {
    needle <= hay || (hay != [] && Contains(hay[1..], needle))
  }

  /** The loop `for key in HOMEWORK_STATUSES: if homework_status in key` finds a key. */
  predicate AnyKeyContains(keys: seq<string>, status: string) {
    exists i :: 0 <= i < |keys| && Contains(keys[i], status)
  }

  /** How the try block of one iteration ends. */
  datatype Attempt =
    | Raised(error: Error)
      /** No exception and nothing sent: the list was empty (FirstRecord only). */
    | Quiet(response: Value)
      /** The verdict was sent; `exits` when the status loop finds a key. */
    | Announced(response: Value, verdict: string, exits: bool)

  /** parse_status on the chosen record, then the status loop. */
  function Announce(response: Value, record: Value): (a: Attempt)
    ensures a.Raised? <==> !KnownRecord(record)
    ensures !a.Quiet?
    ensures KnownRecord(record) ==>
              && a.Announced? && a.response == response
              && a.verdict == ParseStatus(record).value
              && a.exits == AnyKeyContains(STATUS_KEYS, record.fields["status"].s)
    ensures a.Raised? ==> a.error == ParseStatus(record).error
  {
    match ParseStatus(record)
    case Err(e) => Raised(e)
    case Ok(verdict) => Announced(response, verdict, AnyKeyContains(STATUS_KEYS, record.fields["status"].s))
  }

  /** The try block of main (homework.py:130-142) for a given request outcome. */
  function TryBlock(env: Env, mode: Formatting): (a: Attempt)
    ensures GetApiAnswer(env.transport).Err? ==> a == Raised(GetApiAnswer(env.transport).error)
    ensures GetApiAnswer(env.transport).Ok? && CheckResponse(GetApiAnswer(env.transport).value).Err?
            ==> a == Raised(CheckResponse(GetApiAnswer(env.transport).value).error)
    ensures !a.Raised? ==> GetApiAnswer(env.transport) == Ok(a.response)
                           && CheckResponse(a.response).Ok? && a.response.Object?
    ensures a.Quiet? <==> mode == FirstRecord && GetApiAnswer(env.transport).Ok?
                          && CheckResponse(GetApiAnswer(env.transport).value) == Ok([])
    ensures (mode == FirstRecord && GetApiAnswer(env.transport).Ok?
             && CheckResponse(GetApiAnswer(env.transport).value).Ok?
             && CheckResponse(GetApiAnswer(env.transport).value).value != [])
            ==> a == Announce(GetApiAnswer(env.transport).value,
                              CheckResponse(GetApiAnswer(env.transport).value).value[0])
    ensures mode == WholeList ==> a.Raised?
  {
    match GetApiAnswer(env.transport)
    case Err(e) => Raised(e)
    case Ok(response) =>
      match CheckResponse(response)
      case Err(e) => Raised(e)
      case Ok(homeworks) =>
        match mode
        case WholeList => Announce(response, List(homeworks))
        case FirstRecord => if homeworks == [] then Quiet(response) else Announce(response, homeworks[0])
  }

  /** The else clause: `current_timestamp = response['current_date']`, not guarded by the except. */
  function ElseClause(s: State, response: Value): (r: State)
    ensures r.outbox == s.outbox && r.queries == s.queries && r.sleeps == s.sleeps
    ensures r.cursor != s.cursor ==> response.Object? && "current_date" in response.fields
                                     && r.cursor == response.fields["current_date"]
    ensures response.Object? && "current_date" in response.fields
            ==> r.cursor == response.fields["current_date"] && r.phase == s.phase
    ensures response.Object? && "current_date" !in response.fields
            ==> r.cursor == s.cursor && r.phase == Crashed(MissingKey("current_date"))
  {
    match Subscript(response, "current_date")
    case Ok(date) => s.(cursor := date)
    case Err(e) => s.(phase := Crashed(e))
  }

  /** One whole iteration, the finally clause's wait included. */
  function Next(s: State, env: Env, mode: Formatting): (r: State)
    requires s.phase == Running
    ensures r.queries == s.queries + [FromDate(s.cursor, env.now)]
    ensures |r.sleeps| > |s.sleeps| && r.sleeps[..|s.sleeps|] == s.sleeps
    ensures r.sleeps[|r.sleeps| - 1] == RETRY_TIME
    ensures TryBlock(env, mode).Raised? ==>
              && r.cursor == s.cursor && r.phase == Running
              && r.outbox == Send(s.outbox, FailureText(TryBlock(env, mode).error), env.firstDelivered)
    ensures r.cursor != s.cursor ==> !TryBlock(env, mode).Raised? && r.phase == Running
    ensures r.phase == Stopped <==> TryBlock(env, mode).Announced? && TryBlock(env, mode).exits
    ensures r.phase == Stopped ==>
              r.outbox == Send(Send(s.outbox, TryBlock(env, mode).verdict, env.firstDelivered),
                               STOP_MESSAGE, env.secondDelivered)
    ensures s.outbox <= r.outbox && |r.outbox| <= |s.outbox| + 2
  {
    var s1 := s.(queries := s.queries + [FromDate(s.cursor, env.now)]);
    match TryBlock(env, mode)
    case Raised(e) =>
      s1.(outbox := Send(s.outbox, FailureText(e), env.firstDelivered), sleeps := s.sleeps + [RETRY_TIME])
    case Quiet(response) =>
      ElseClause(s1, response).(sleeps := s.sleeps + [RETRY_TIME])
    case Announced(response, verdict, exits) =>
      var s2 := s1.(outbox := Send(s.outbox, verdict, env.firstDelivered));
      if exits then
        s2.(outbox := Send(s2.outbox, STOP_MESSAGE, env.secondDelivered),
            sleeps := s.sleeps + [STOP_PAUSE, RETRY_TIME], phase := Stopped)
      else
        ElseClause(s2, response).(sleeps := s.sleeps + [RETRY_TIME])
  }

  /** The loop over a sequence of environments, until the process stops or they run out. */
  function RunFrom(s: State, envs: seq<Env>, mode: Formatting): State
    decreases |envs|
  {
    if envs == [] || s.phase != Running then s
    else RunFrom(Next(s, envs[0], mode), envs[1..], mode)
  }

  /** The state main enters its loop with. */
  function Initial(now: int): State {
    State(Int(now), [], [], [], Running)
  }

  class Bot {
    var cursor: Value
    var outbox: seq<string>
    var queries: seq<Value>
    var sleeps: seq<nat>
    var phase: Phase
    const formatting: Formatting

    function CurrentState(): State
      reads this
    {
      State(cursor, outbox, queries, sleeps, phase)
    }

    /** `current_timestamp = int(time.time())` before the loop. */
    constructor (now: int, formatting: Formatting)
      ensures CurrentState() == Initial(now) && this.formatting == formatting
    {
      cursor := Int(now);
      outbox, queries, sleeps := [], [], [];
      phase := Running;
      this.formatting := formatting;
    }

    method Deliver(message: string, delivered: bool)
      modifies this`outbox
      ensures outbox == Send(old(outbox), message, delivered)
    {
      if delivered {
        outbox := outbox + [message];
      }
    }

    /** One pass of the loop body: try, except or else, finally. */
    method Step(env: Env)
      requires phase == Running
      modifies this
      ensures CurrentState() == Next(old(CurrentState()), env, formatting)
    {
      queries := queries + [FromDate(cursor, env.now)];
      var attempt: Attempt;
      var answer := GetApiAnswer(env.transport);
      if answer.Err? {
        attempt := Raised(answer.error);
      } else {
        var response := answer.value;
        var checked := CheckResponse(response);
        if checked.Err? {
          attempt := Raised(checked.error);
        } else if formatting == FirstRecord && checked.value == [] {
          attempt := Quiet(response);
        } else {
          var record := if formatting == WholeList then List(checked.value) else checked.value[0];
          attempt := Announce(response, record);
        }
      }
      match attempt {
        case Raised(e) =>
          Deliver(FailureText(e), env.firstDelivered);
        case Quiet(response) =>
          var date := Subscript(response, "current_date");
          if date.Ok? { cursor := date.value; } else { phase := Crashed(date.error); }
        case Announced(response, verdict, exits) =>
          Deliver(verdict, env.firstDelivered);
          if exits {
            sleeps := sleeps + [STOP_PAUSE];
            Deliver(STOP_MESSAGE, env.secondDelivered);
            phase := Stopped;
          } else {
            var date := Subscript(response, "current_date");
            if date.Ok? { cursor := date.value; } else { phase := Crashed(date.error); }
          }
      }
      sleeps := sleeps + [RETRY_TIME];
    }

    /** `while True`, over the environments of successive iterations. */
    method Run(envs: seq<Env>)
      requires phase == Running
      modifies this
      ensures CurrentState() == RunFrom(old(CurrentState()), envs, formatting)
    {
      var i := 0;
      while i < |envs| && phase == Running
        invariant 0 <= i <= |envs|
        invariant RunFrom(old(CurrentState()), envs, formatting) == RunFrom(CurrentState(), envs[i..], formatting)
      {
        Step(envs[i]);
        i := i + 1;
      }
    }
  }

  /** main: without all three tokens the loop never starts. */
  method Launch(practicum: Option<string>, telegram: Option<string>, chatId: Option<string>,
                now: int, formatting: Formatting) returns (bot: Bot?)
    ensures bot != null <==> practicum.Some? && telegram.Some? && chatId.Some?
    ensures bot != null ==> fresh(bot) && bot.CurrentState() == Initial(now) && bot.formatting == formatting
  {
    var ok, _ := CheckTokens(practicum, telegram, chatId);
    if !ok {
      return null;
    }
    bot := new Bot(now, formatting);
  }

  /** Every catalog status is a substring of a catalog key (itself), so the status loop always finds one. */
  lemma {:induction false} CatalogStatusFound(status: string)
    requires status in HOMEWORK_STATUSES
    ensures AnyKeyContains(STATUS_KEYS, status)
  {
    CatalogKeys();
    var i :| 0 <= i < |STATUS_KEYS| && STATUS_KEYS[i] == status;
    assert Contains(STATUS_KEYS[i], status);
  }

  /** A sent verdict is always followed by the stop message and the exit. */
  lemma NotificationAlwaysStops(env: Env, mode: Formatting)
    ensures TryBlock(env, mode).Announced? ==> TryBlock(env, mode).exits
  {
    var answer := GetApiAnswer(env.transport);
    if answer.Ok? && CheckResponse(answer.value).Ok? {
      var homeworks := CheckResponse(answer.value).value;
      var record := if mode == WholeList then List(homeworks) else if homeworks == [] then Null else homeworks[0];
      if KnownRecord(record) {
        CatalogStatusFound(record.fields["status"].s);
      }
    }
  }

  /** The process stops in an iteration exactly when that iteration sent a verdict. */
  lemma StopsExactlyAfterVerdict(s: State, env: Env, mode: Formatting)
    requires s.phase == Running
    ensures Next(s, env, mode).phase == Stopped <==> TryBlock(env, mode).Announced?
  {
    NotificationAlwaysStops(env, mode);
  }

  /**
   * As written, parse_status receives the list itself, and `homework['homework_name']`
   * on a list raises TypeError: every iteration raises, whatever the API answers.
   */
  lemma AsWrittenAlwaysRaises(env: Env)
    ensures TryBlock(env, WholeList).Raised?
    ensures GetApiAnswer(env.transport).Ok? && CheckResponse(GetApiAnswer(env.transport).value).Ok?
            ==> TryBlock(env, WholeList).error == NotSubscriptable("list")
  {
  }

  /**
   * As written, the loop never stops on its own and never moves its cursor, and every
   * message it sends is a failure report.
   */
  lemma {:induction false} AsWrittenRunNeverStops(s: State, envs: seq<Env>)
    requires s.phase == Running
    ensures RunFrom(s, envs, WholeList).phase == Running
    ensures RunFrom(s, envs, WholeList).cursor == s.cursor
    ensures s.outbox <= RunFrom(s, envs, WholeList).outbox
    ensures forall i :: |s.outbox| <= i < |RunFrom(s, envs, WholeList).outbox| ==>
              FAILURE_PREFIX <= RunFrom(s, envs, WholeList).outbox[i]
    decreases |envs|
  {
    if envs != [] {
      AsWrittenAlwaysRaises(envs[0]);
      var s1 := Next(s, envs[0], WholeList);
      AsWrittenRunNeverStops(s1, envs[1..]);
    }
  }

  /** There is no deduplication: the same failure in two iterations is reported twice. */
  lemma RepeatedFailureSentTwice(s: State, env: Env, mode: Formatting)
    requires s.phase == Running && env.firstDelivered
    requires TryBlock(env, mode).Raised?
    ensures Next(Next(s, env, mode), env, mode).outbox
            == s.outbox + [FailureText(TryBlock(env, mode).error), FailureText(TryBlock(env, mode).error)]
  {
  }

  /**
   * A failed connection is swallowed and yields None; check_response then raises a
   * TypeError, which its `except KeyError` does not catch, and that TypeError is what
   * the chat receives.
   */
  lemma ConnectionFailureReported(s: State, env: Env, mode: Formatting)
    requires s.phase == Running && env.transport.ConnectionFailed?
    ensures TryBlock(env, mode) == Raised(NotSubscriptable("NoneType"))
    ensures Next(s, env, mode).outbox
            == Send(s.outbox, FAILURE_PREFIX + "'NoneType' object is not subscriptable", env.firstDelivered)
    ensures Next(s, env, mode).cursor == s.cursor
  {
    assert ErrorText(NotSubscriptable("NoneType")) == "'NoneType' object is not subscriptable" by {
      assert ErrorText(NotSubscriptable("NoneType")) == "'" + "NoneType" + "' object is not subscriptable";
    }
  }

  /**
   * The cursor moves only in an iteration that raised nothing and did not exit, and then
   * to the answer's `current_date`; without that key the uncaught KeyError ends the process.
   */
  lemma CursorAdvance(s: State, env: Env, mode: Formatting)
    requires s.phase == Running
    ensures Next(s, env, mode).cursor != s.cursor ==> TryBlock(env, mode).Quiet?
    ensures TryBlock(env, mode).Quiet? && "current_date" in TryBlock(env, mode).response.fields
            ==> Next(s, env, mode).cursor == TryBlock(env, mode).response.fields["current_date"]
                && Next(s, env, mode).phase == Running && Next(s, env, mode).outbox == s.outbox
    ensures TryBlock(env, mode).Quiet? && "current_date" !in TryBlock(env, mode).response.fields
            ==> Next(s, env, mode).phase == Crashed(MissingKey("current_date"))
  {
    NotificationAlwaysStops(env, mode);
    var a := TryBlock(env, mode);
    if a.Quiet? {
      var answer := GetApiAnswer(env.transport);
      assert answer.Ok? && a.response == answer.value && CheckResponse(answer.value).Ok?;
    }
  }

  /**
   * Formatting the first record: a validated, non-empty answer whose first record is known
   * sends that record's parse_status message, then 'я стоп', and stops.
   */
  lemma FirstRecordVerdictSent(s: State, env: Env)
    requires s.phase == Running
    requires GetApiAnswer(env.transport).Ok?
    requires CheckResponse(GetApiAnswer(env.transport).value).Ok?
    requires CheckResponse(GetApiAnswer(env.transport).value).value != []
    requires KnownRecord(CheckResponse(GetApiAnswer(env.transport).value).value[0])
    ensures Next(s, env, FirstRecord).outbox
            == Send(Send(s.outbox, ParseStatus(CheckResponse(GetApiAnswer(env.transport).value).value[0]).value,
                         env.firstDelivered),
                    STOP_MESSAGE, env.secondDelivered)
    ensures Next(s, env, FirstRecord).phase == Stopped
    ensures Next(s, env, FirstRecord).cursor == s.cursor
  {
    NotificationAlwaysStops(env, FirstRecord);
  }

  /**
   * Formatting the first record: an answer with an empty `homeworks` list sends nothing
   * and moves the cursor to `current_date`.
   */
  lemma EmptyListSendsNothing(s: State, env: Env)
    requires s.phase == Running
    requires GetApiAnswer(env.transport).Ok?
    requires CheckResponse(GetApiAnswer(env.transport).value) == Ok([])
    requires "current_date" in GetApiAnswer(env.transport).value.fields
    ensures TryBlock(env, FirstRecord).Quiet?
    ensures Next(s, env, FirstRecord).outbox == s.outbox
    ensures Next(s, env, FirstRecord).phase == Running
    ensures Next(s, env, FirstRecord).cursor == GetApiAnswer(env.transport).value.fields["current_date"]
  {
  }

  /** A payload with one approved homework, `hw1`, and `current_date` 2000. */
  function SampleTransport(): Transport {
    var homework := Object(map["homework_name" := Str("hw1"), "status" := Str("approved")]);
    Responded(200, Ok(Object(map["homeworks" := List([homework]), "current_date" := Int(2000)])))
  }

  /** As written, the sample answer produces a failure report and leaves the cursor at 1000. */
  lemma AsWrittenSample()
    ensures Next(Initial(1000), Env(5000, SampleTransport(), true, true), WholeList)
            == State(Int(1000), [FAILURE_PREFIX + "list indices must be integers or slices, not str"],
                     [Int(1000)], [RETRY_TIME], Running)
  {
    AsWrittenAlwaysRaises(Env(5000, SampleTransport(), true, true));
  }

  /** Formatting the first record, the sample answer produces the verdict, the stop message and the exit. */
  lemma FirstRecordSample()
    ensures Next(Initial(1000), Env(5000, SampleTransport(), true, true), FirstRecord)
            == State(Int(1000),
                     [VerdictMessage("hw1", "Работа проверена: ревьюеру всё понравилось. Ура!"), STOP_MESSAGE],
                     [Int(1000)], [STOP_PAUSE, RETRY_TIME], Stopped)
  {
    var env := Env(5000, SampleTransport(), true, true);
    CatalogStatusFound("approved");
    assert TryBlock(env, FirstRecord).Announced?;
  }
}
