/** The stateless checks of homework.py: the credential gate, the API
    response validator and the status extractor with its verdict table, each
    as the code is written (including where what it does is not what its
    docstring or error text says). */
module Homework {
  import opened Python

  /** `RETRY_PERIOD`, in seconds. */
  const RetryPeriod: int := 600

  /** `HOMEWORK_VERDICTS` */
  const HomeworkVerdicts: map<string, string> := map[
    "approved" := "Работа проверена: ревьюеру всё понравилось. Ура!",
    "reviewing" := "Работа взята на проверку ревьюером.",
    "rejected" := "Работа проверена: у ревьюера есть замечания."
  ]

  lemma VerdictKeys()
    ensures HomeworkVerdicts.Keys == {"approved", "reviewing", "rejected"}
  {
  }

  // ---------------------------------------------------------------- check_tokens

  datatype Credential = PracticumToken | TelegramToken | TelegramChatId

  /** What `check_tokens` does: return, or `sys.exit()` naming the missing credential. */
  datatype Gate = Proceed | Exit(missing: Credential)

  /** Position of each credential in the order `check_tokens` tests them. */
  function CheckOrder(c: Credential): nat {
    match c
    case PracticumToken => 0
    case TelegramToken => 1
    case TelegramChatId => 2
  }

  /** The credentials whose environment variable is unset (`os.getenv` gave None). */
  function Missing(practicum: Option<string>, telegram: Option<string>, chatId: Option<string>): set<Credential> {
    (if practicum.None? then {PracticumToken} else {})
    + (if telegram.None? then {TelegramToken} else {})
    + (if chatId.None? then {TelegramChatId} else {})
  }

  /** `check_tokens`: passes exactly when no credential is None (an empty
      string passes), and otherwise exits on the first missing one in check order. */
  function CheckTokens(practicum: Option<string>, telegram: Option<string>, chatId: Option<string>): (r: Gate)
    ensures r.Proceed? <==> Missing(practicum, telegram, chatId) == {}
    ensures r.Exit? ==> r.missing in Missing(practicum, telegram, chatId)
    ensures r.Exit? ==> forall c :: c in Missing(practicum, telegram, chatId) ==> CheckOrder(r.missing) <= CheckOrder(c)
  {
    if practicum.None? then Exit(PracticumToken)
    else if telegram.None? then Exit(TelegramToken)
    else if chatId.None? then Exit(TelegramChatId)
    else Proceed
  }

  // -------------------------------------------------------------- check_response

  /** `str()` of the TypeError that `isinstance` raises when given one argument. */
  const IsinstanceArityMsg := "isinstance expected 2 arguments, got 1"
  const ResponseNotDictMsg := "response не соответствует типу"
  const HomeworksNotListMsg := "homeworks не соответствует типу"
  /** `str(KeyError('Список пустой'))` */
  const EmptyListMsg := "'Список пустой'"

  /** `response.keys()`: only a dict has the method. */
  function KeysAttributeError(response: Json): PyErr {
    AttributeError("'" + TypeName(response) + "' object has no attribute 'keys'")
  }

  /** A response that `check_response` accepts: a dict whose `homeworks` is a list. */
  predicate WellShaped(response: Json) {
    response.Object? && "homeworks" in response.fields && response.fields["homeworks"].List?
  }

  /** `check_response`, branch by branch in source order. It returns the
      `homeworks` list itself exactly when the response is well shaped; any
      other value fails, and the failures of lines 83-85 and 90-92 never occur. */
  function CheckResponse(response: Json): (r: Result<seq<Json>, PyErr>)
    ensures r.Success? <==> WellShaped(response)
    ensures r.Success? ==> r.value == response.fields["homeworks"].items
    ensures !response.Object? ==> r == Failure(KeysAttributeError(response))
    ensures response.Object? && "homeworks" !in response.fields ==> r == Failure(TypeError(IsinstanceArityMsg))
    ensures response.Object? && "homeworks" in response.fields && !response.fields["homeworks"].List? ==>
              r == Failure(TypeError(HomeworksNotListMsg))
    ensures r != Failure(TypeError(ResponseNotDictMsg)) && r != Failure(KeyError(EmptyListMsg))
  {
    if !response.Object? then
      // line 80: `response.keys()` on a value that is not a dict
      Failure(KeysAttributeError(response))
    else if "homeworks" !in response.fields then
      // line 82: `isinstance` with one argument raises before `raise` runs
      Failure(TypeError(IsinstanceArityMsg))
    else if !response.Object? then
      Failure(TypeError(ResponseNotDictMsg))
    else
      var homeworks := DictGet(response.fields, "homeworks");
      if !homeworks.List? then
        Failure(TypeError(HomeworksNotListMsg))
      else if DictGet(response.fields, "homeworks").Null? then
        Failure(KeyError(EmptyListMsg))
      else
        Success(homeworks.items)
  }

  /** Keys other than `homeworks` (`current_date` among them) never affect
      what `check_response` does. */
  lemma CheckResponseIgnoresOtherKeys(m1: map<string, Json>, m2: map<string, Json>)
    requires ("homeworks" in m1) == ("homeworks" in m2)
    requires "homeworks" in m1 ==> m1["homeworks"] == m2["homeworks"]
    ensures CheckResponse(Object(m1)) == CheckResponse(Object(m2))
  {
  }

  // ---------------------------------------------------------------- parse_status

  const NotDictMsg := "Переменная не словарь"
  /** `str()` of the TypeError raised by calling a dict, `homework('status')`. */
  const DictNotCallableMsg := "'dict' object is not callable"

  /** `parse_status`: a non-dict fails the check of line 98; a dict is then
      called like a function on line 100, which raises. No input returns. */
  function ParseStatus(homework: Json): (r: Result<string, PyErr>)
    ensures r.Failure?
    ensures homework.Object? ==> r.error == TypeError(DictNotCallableMsg)
    ensures !homework.Object? ==> r.error == TypeError(NotDictMsg)
  {
    if !homework.Object? then
      Failure(TypeError(NotDictMsg))
    else
      Failure(TypeError(DictNotCallableMsg))
  }

  const UnknownStatusPrefix := "Неизвестный статус работы "
  const NameMissingMsg := "'Отсутствует ключ homework_name в ответе API'"
  const StatusMissingMsg := "'Отсутствует ключ status в ответе API'"

  /** The sentence line 111 would build. */
  function StatusMessage(name: string, verdict: string): string {
    "Изменился статус проверки работы \"" + name + "\". " + verdict
  }

  /** Lines 108-112 of `parse_status` for a given status and name. The guard
      `not None and homework_status not in HOMEWORK_VERDICTS` is inverted: a
      status outside the table is then looked up and raises KeyError, a status
      inside it reaches the "unknown status" exception. No status returns a message. */
  function VerdictCheck(status: string, name: string): (r: Result<string, PyErr>)
    ensures r.Failure?
    ensures status !in HomeworkVerdicts ==> r.error == KeyError("'" + status + "'")
    ensures status in HomeworkVerdicts ==> r.error == AnyException(UnknownStatusPrefix + status)
  {
    // `not None` is always True
    if !false && status !in HomeworkVerdicts then
      match Lookup(HomeworkVerdicts, status)
      case Failure(e) => Failure(e)
      case Success(verdict) => Success(StatusMessage(name, verdict))
    else
      Failure(AnyException(UnknownStatusPrefix + status))
  }

  /** Lines 102-112 of `parse_status`, for the values lines 100-101 were meant
      to bind. Lines 102 and 105 test whether the name and the status VALUES are
      keys of the record; whatever the record, nothing returns a message. */
  function StatusTail(homework: map<string, Json>, status: string, name: string): (r: Result<string, PyErr>)
    ensures r.Failure?
    ensures name !in homework ==> r.error == KeyError(NameMissingMsg)
    ensures name in homework && status !in homework ==> r.error == KeyError(StatusMissingMsg)
    ensures name in homework && status in homework ==> r == VerdictCheck(status, name)
  {
    if name !in homework then
      Failure(KeyError(NameMissingMsg))
    else if status !in homework then
      Failure(KeyError(StatusMissingMsg))
    else
      VerdictCheck(status, name)
  }
}
