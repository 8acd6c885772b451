/**
 * The decision logic of the homework bot's helper functions: the status catalog,
 * the environment-token check, the classification of the API answer, the shape
 * check of the payload and the verdict formatter.
 */
module Homework {

  import opened Wrappers
  import opened PyValue

  /** Seconds the bot waits at the end of every poll iteration. */
  const RETRY_TIME: nat := 600

  /** The status code of a successful answer (200 OK, section 15.3.1 of RFC 9110). */
  const HTTP_OK: int := 200

  /** The catalog keys, in the dict's insertion order (the order `for key in HOMEWORK_STATUSES` visits). */
  const STATUS_KEYS: seq<string> := ["approved", "reviewing", "rejected"]

  /** HOMEWORK_STATUSES: the verdict text for each known status code. */
  const HOMEWORK_STATUSES: map<string, string> := map[
    "approved" := "Работа проверена: ревьюеру всё понравилось. Ура!",
    "reviewing" := "Работа взята на проверку ревьюером.",
    "rejected" := "Работа проверена: у ревьюера есть замечания."
  ]

  /** The environment variables the bot needs, in the order they are checked. */
  const TOKEN_NAMES: seq<string> := ["PRACTICUM_TOKEN", "TELEGRAM_TOKEN", "TELEGRAM_CHAT_ID"]

  /** The catalog's keys are exactly the listed status codes, each listed once. */
  lemma CatalogKeys()
    ensures HOMEWORK_STATUSES.Keys == set k | k in STATUS_KEYS
    ensures |STATUS_KEYS| == 3
    ensures forall i, j :: 0 <= i < j < |STATUS_KEYS| ==> STATUS_KEYS[i] != STATUS_KEYS[j]
  {
  }

  /**
   * check_tokens: scans the three tokens in order and stops at the first one that is
   * absent, reporting its name (the name the critical log line carries). An empty
   * string is present.
   */
  method CheckTokens(practicum: Option<string>, telegram: Option<string>, chatId: Option<string>)
    returns (ok: bool, missing: Option<string>)
    ensures ok <==> practicum.Some? && telegram.Some? && chatId.Some?
    ensures ok <==> missing.None?
    ensures missing == Some("PRACTICUM_TOKEN") <==> practicum.None?
    ensures missing == Some("TELEGRAM_TOKEN") <==> practicum.Some? && telegram.None?
    ensures missing == Some("TELEGRAM_CHAT_ID") <==> practicum.Some? && telegram.Some? && chatId.None?
  {
    var values := [practicum, telegram, chatId];
    var i := 0;
    while i < |values|
      invariant 0 <= i <= |values|
      invariant forall k :: 0 <= k < i ==> values[k].Some?
    {
      if values[i].None? {
        assert i > 0 ==> values[0].Some?;
        assert i > 1 ==> values[1].Some?;
        return false, Some(TOKEN_NAMES[i]);
      }
      i := i + 1;
    }
    assert values[0].Some? && values[1].Some? && values[2].Some?;
    return true, None;
  }

  /** The `from_date` get_api_answer sends: the cursor unless it is falsy, else the current time. */
  function FromDate(currentTimestamp: Value, now: int): (r: Value)
    ensures Truthy(currentTimestamp) ==> r == currentTimestamp
    ensures !Truthy(currentTimestamp) ==> r == Int(now)
    ensures now != 0 ==> Truthy(r)
  {
    if Truthy(currentTimestamp) then currentTimestamp else Int(now)
  }

  /** How the HTTP request of get_api_answer ended: no answer, or a status code and a body that did or did not decode as JSON. */
  datatype Transport =
    | ConnectionFailed(cause: string)
    | Responded(statusCode: int, body: Result<Value, string>)

  /**
   * get_api_answer, given the outcome of the request: a failed connection is swallowed
   * and yields None, a status other than 200 raises, and a 200 answer yields its
   * decoded body (or the decoder's error).
   */
  function GetApiAnswer(transport: Transport): (r: Result<Value, Error>)
    ensures transport.ConnectionFailed? ==> r == Ok(Null)
    ensures r == Err(ApiUnavailable) <==> transport.Responded? && transport.statusCode != HTTP_OK
    ensures r.Err? <==> transport.Responded? && (transport.statusCode != HTTP_OK || transport.body.Err?)
    ensures transport.Responded? && transport.statusCode == HTTP_OK ==>
              r == (match transport.body case Ok(v) => Ok(v) case Err(d) => Err(BadJson(d)))
  {
    match transport
    case ConnectionFailed(_) => Ok(Null)
    case Responded(code, body) =>
      if code != HTTP_OK then Err(ApiUnavailable)
      else
        match body
        case Ok(v) => Ok(v)
        case Err(d) => Err(BadJson(d))
  }

  /**
   * check_response: the payload must be subscriptable with a `homeworks` key whose value
   * is a list; that list is returned unchanged, the empty list included.
   */
  function CheckResponse(response: Value): (r: Result<seq<Value>, Error>)
    ensures r.Ok? <==> response.Object? && "homeworks" in response.fields
                       && response.fields["homeworks"].List?
    ensures r.Ok? ==> r.value == response.fields["homeworks"].items
    ensures !response.Object? ==> r == Err(NotSubscriptable(TypeName(response)))
    ensures response.Object? && "homeworks" !in response.fields ==> r == Err(BadResponse)
    ensures (response.Object? && "homeworks" in response.fields
             && !response.fields["homeworks"].List?) ==> r == Err(NotAList)
  {
    match Subscript(response, "homeworks")
    case Err(MissingKey(_)) => Err(BadResponse)
    case Err(e) => Err(e)
    case Ok(homeworks) =>
      if homeworks.List? then Ok(homeworks.items) else Err(NotAList)
  }

  const MESSAGE_PREFIX := "Изменился статус проверки работы \""
  const NAME_SEPARATOR := "\". "

  /** The notification text for a homework name and a verdict. */
  function VerdictMessage(name: string, verdict: string): string {
    MESSAGE_PREFIX + name + NAME_SEPARATOR + verdict
  }

  /** A homework record parse_status accepts: a dict with a name and a catalog status string. */
  predicate KnownRecord(homework: Value) {
    && homework.Object?
    && "homework_name" in homework.fields
    && "status" in homework.fields
    && homework.fields["status"].Str?
    && homework.fields["status"].s in HOMEWORK_STATUSES
  }

  /**
   * parse_status: reads the name, then the status; an unhashable status raises TypeError,
   * a status outside the catalog raises a KeyError naming the status and the homework,
   * and a catalog status yields the notification text.
   */
  function ParseStatus(homework: Value): (r: Result<string, Error>)
    ensures r.Ok? <==> KnownRecord(homework)
    ensures r.Ok? ==> r.value == VerdictMessage(Display(homework.fields["homework_name"]),
                                                HOMEWORK_STATUSES[homework.fields["status"].s])
    ensures !homework.Object? ==> r == Err(NotSubscriptable(TypeName(homework)))
    ensures homework.Object? && "homework_name" !in homework.fields ==> r == Err(MissingKey("homework_name"))
    ensures (homework.Object? && "homework_name" in homework.fields && "status" !in homework.fields)
            ==> r == Err(MissingKey("status"))
    ensures (homework.Object? && "homework_name" in homework.fields && "status" in homework.fields
             && !Hashable(homework.fields["status"]))
            ==> r == Err(Unhashable(TypeName(homework.fields["status"])))
    ensures (homework.Object? && "homework_name" in homework.fields && "status" in homework.fields
             && Hashable(homework.fields["status"]) && !KnownRecord(homework))
            ==> r == Err(UnknownStatus(Display(homework.fields["status"]), Display(homework.fields["homework_name"])))
  {
    match Subscript(homework, "homework_name")
    case Err(e) => Err(e)
    case Ok(name) =>
      match Subscript(homework, "status")
      case Err(e) => Err(e)
      case Ok(status) =>
        if !Hashable(status) then Err(Unhashable(TypeName(status)))
        else if !(status.Str? && status.s in HOMEWORK_STATUSES) then
          Err(UnknownStatus(Display(status), Display(name)))
        else
          var verdict := HOMEWORK_STATUSES[status.s];
          // The second membership test always holds here: the trailing raise is dead code.
          if status.s in HOMEWORK_STATUSES then Ok(VerdictMessage(Display(name), verdict))
          else assert false; Err(UnknownStatus(Display(status), Display(name)))
  }

  /** Whether `v` is a suffix of `m`. */
  predicate EndsWith(m: string, v: string) {
    |v| <= |m| && m[|m| - |v|..] == v
  }

  /**
   * Reads a notification text back: the status whose verdict ends the text (trying the
   * catalog keys in order) and the name between the prefix and the separator.
   */
  function DecodeMessage(m: string): Option<(string, string)> {
    DecodeWith(m, STATUS_KEYS)
  }

  function DecodeWith(m: string, keys: seq<string>): Option<(string, string)>
    requires forall k :: k in keys ==> k in HOMEWORK_STATUSES
  {
    if keys == [] then None
    else
      var tail := NAME_SEPARATOR + HOMEWORK_STATUSES[keys[0]];
      if |MESSAGE_PREFIX| + |tail| <= |m| && m[..|MESSAGE_PREFIX|] == MESSAGE_PREFIX && EndsWith(m, tail)
      then Some((m[|MESSAGE_PREFIX|..|m| - |tail|], keys[0]))
      else DecodeWith(m, keys[1..])
  }

  /** The last two characters tell the three verdicts apart. */
  lemma VerdictEndingsDistinct(a: string, b: string)
    requires a in HOMEWORK_STATUSES && b in HOMEWORK_STATUSES && a != b
    ensures |HOMEWORK_STATUSES[a]| >= 2 && |HOMEWORK_STATUSES[b]| >= 2
    ensures HOMEWORK_STATUSES[a][|HOMEWORK_STATUSES[a]| - 2..] != HOMEWORK_STATUSES[b][|HOMEWORK_STATUSES[b]| - 2..]
  {
  }

  /** A verdict text ends a notification only when it is the notification's own verdict. */
  lemma OtherVerdictNotSuffix(name: string, status: string, other: string)
    requires status in HOMEWORK_STATUSES && other in HOMEWORK_STATUSES && status != other
    ensures !EndsWith(VerdictMessage(name, HOMEWORK_STATUSES[status]), NAME_SEPARATOR + HOMEWORK_STATUSES[other])
  {
    var m := VerdictMessage(name, HOMEWORK_STATUSES[status]);
    var v, w := HOMEWORK_STATUSES[status], HOMEWORK_STATUSES[other];
    var t := NAME_SEPARATOR + w;
    VerdictEndingsDistinct(status, other);
    assert m[|m| - 2..] == v[|v| - 2..];
    assert t[|t| - 2..] == w[|w| - 2..];
    assert |t| <= |m| ==> m[|m| - |t|..][|t| - 2..] == m[|m| - 2..];
  }

  /** Decoding a notification built by parse_status gives back the name and the status. */
  lemma {:induction false} DecodeVerdictMessage(name: string, status: string)
    requires status in HOMEWORK_STATUSES
    ensures DecodeMessage(VerdictMessage(name, HOMEWORK_STATUSES[status])) == Some((name, status))
  {
    var m := VerdictMessage(name, HOMEWORK_STATUSES[status]);
    var tail := NAME_SEPARATOR + HOMEWORK_STATUSES[status];
    assert m == MESSAGE_PREFIX + name + tail;
    assert m[..|MESSAGE_PREFIX|] == MESSAGE_PREFIX;
    assert EndsWith(m, tail);
    assert m[|MESSAGE_PREFIX|..|m| - |tail|] == name;
    CatalogKeys();
    if status != "approved" {
      OtherVerdictNotSuffix(name, status, "approved");
      if status != "reviewing" {
        OtherVerdictNotSuffix(name, status, "reviewing");
        assert DecodeWith(m, STATUS_KEYS) == DecodeWith(m, STATUS_KEYS[2..]);
      } else {
        assert DecodeWith(m, STATUS_KEYS) == DecodeWith(m, STATUS_KEYS[1..]);
      }
    }
  }

  /** parse_status's output always decodes to the record's own name and status. */
  lemma ParseStatusDecodes(homework: Value)
    requires ParseStatus(homework).Ok?
    ensures DecodeMessage(ParseStatus(homework).value)
            == Some((Display(homework.fields["homework_name"]), homework.fields["status"].s))
  {
    DecodeVerdictMessage(Display(homework.fields["homework_name"]), homework.fields["status"].s);
  }
}
