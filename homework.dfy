/**
 * The three checks the bot applies before and during polling: the token
 * gate run once at start-up, the shape check on an API answer, and the
 * formatter that turns one homework record into a notification.
 */
module Homework {
  import opened Wrappers
  import opened Json

  // ---------------------------------------------------------------------
  // Errors raised by the steps of a cycle
  // ---------------------------------------------------------------------

  /** Every exception that can reach the catch-all handler of the poll loop. */
  datatype Error =
    | FetchError(reason: string)        // anything the HTTP request raises; its text is opaque
    | NotDictOrNoHomeworks              // TypeError from the first shape test of check_response
    | NotListOrNoDate                   // TypeError from the second shape test of check_response
    | HomeworkNotDict(typeName: string) // AttributeError: the record has no .get
    | HomeworkNameMissing               // `raise None`, which Python turns into a TypeError
    | StatusUnhashable(typeName: string)// TypeError: a list or dict cannot be looked up in a dict
    | UnknownStatus                     // KeyError for a status outside the verdict table

  const NOT_DICT_TEXT: string := "Ответ API не словарь"
  const NOT_LIST_TEXT: string := "Ответ API под ключом \"homeworks\" не список"
  const NO_ATTRIBUTE_TEXT: string := "' object has no attribute 'get'"
  const NOT_EXCEPTION_TEXT: string := "exceptions must derive from BaseException"
  const UNHASHABLE_TEXT: string := "unhashable type: '"
  // str() of a KeyError is the repr of its argument, hence the quotes
  const UNKNOWN_STATUS_TEXT: string := "'Недокументированный статус домашней работы'"

  /** str(error): the text the poll loop puts into its alert. */
  function ErrorText(e: Error): (t: string)
    ensures e.FetchError? ==> t == e.reason
    ensures e.HomeworkNotDict? ==>
      |t| == |e.typeName| + 1 + |NO_ATTRIBUTE_TEXT| && t[1..|e.typeName| + 1] == e.typeName
    ensures e.StatusUnhashable? ==>
      |t| == |UNHASHABLE_TEXT| + |e.typeName| + 1 && t[|UNHASHABLE_TEXT|..|t| - 1] == e.typeName
  {
    match e
    case FetchError(reason) => reason
    case NotDictOrNoHomeworks => NOT_DICT_TEXT
    case NotListOrNoDate => NOT_LIST_TEXT
    case HomeworkNotDict(t) => "'" + t + NO_ATTRIBUTE_TEXT
    case HomeworkNameMissing => NOT_EXCEPTION_TEXT
    case StatusUnhashable(t) => UNHASHABLE_TEXT + t + "'"
    case UnknownStatus => UNKNOWN_STATUS_TEXT
  }

  /**
   * The exceptions the bot raises itself render to pairwise different
   * texts, so the duplicate-alert check suppresses only a recurrence of
   * the same exception.
   */
  lemma ErrorTextInjective(e1: Error, e2: Error)
    requires !e1.FetchError? && !e2.FetchError?
    requires ErrorText(e1) == ErrorText(e2)
    ensures e1 == e2
  {
    ErrorTextShape(e1);
    ErrorTextShape(e2);
  }

  /** Features of each text that set it apart: its first character, its length, its end. */
  lemma ErrorTextShape(e: Error)
    requires !e.FetchError?
    ensures var t := ErrorText(e);
      && |t| > 2
      && t[0] == (match e
                  case NotDictOrNoHomeworks => 'О'
                  case NotListOrNoDate => 'О'
                  case HomeworkNotDict(_) => '\''
                  case HomeworkNameMissing => 'e'
                  case StatusUnhashable(_) => 'u'
                  case UnknownStatus => '\'')
      && (e.NotDictOrNoHomeworks? ==> |t| == |NOT_DICT_TEXT|)
      && (e.NotListOrNoDate? ==> |t| == |NOT_LIST_TEXT|)
      && (e.HomeworkNotDict? ==> t[|t| - 2] == 't')
      && (e.UnknownStatus? ==> t[|t| - 2] == 'ы')
  {
    assert |NOT_DICT_TEXT| != |NOT_LIST_TEXT|;
  }

  // ---------------------------------------------------------------------
  // Token gate
  // ---------------------------------------------------------------------

  const PRACTICUM_TOKEN: string := "PRACTICUM_TOKEN"
  const TELEGRAM_TOKEN: string := "TELEGRAM_TOKEN"
  const TELEGRAM_CHAT_ID: string := "TELEGRAM_CHAT_ID"

  /** Position of a token name in the fixed order the gate examines them. */
  function TokenRank(name: string): nat
  {
    if name == PRACTICUM_TOKEN then 0
    else if name == TELEGRAM_TOKEN then 1
    else if name == TELEGRAM_CHAT_ID then 2
    else 3
  }

  /**
   * The names of the unset environment variables, in the order the
   * comprehension visits them; failure iff at least one is unset.
   */
  function CheckTokens(practicum: Option<string>, telegram: Option<string>, chatId: Option<string>)
    : (r: Outcome<seq<string>>)
    ensures r.Fail? <==> practicum.None? || telegram.None? || chatId.None?
    ensures r.Fail? ==> forall name :: name in r.error <==>
      || (name == PRACTICUM_TOKEN && practicum.None?)
      || (name == TELEGRAM_TOKEN && telegram.None?)
      || (name == TELEGRAM_CHAT_ID && chatId.None?)
    ensures r.Fail? ==> forall i, j :: 0 <= i < j < |r.error| ==> TokenRank(r.error[i]) < TokenRank(r.error[j])
  {
    var missing :=
      (if practicum.None? then [PRACTICUM_TOKEN] else [])
      + (if telegram.None? then [TELEGRAM_TOKEN] else [])
      + (if chatId.None? then [TELEGRAM_CHAT_ID] else []);
    if missing != [] then Fail(missing) else Pass
  }

  /** The items of a Python list of strings as repr() shows them, without the brackets. */
  function QuotedItems(names: seq<string>): string
  {
    if names == [] then ""
    else if |names| == 1 then "'" + names[0] + "'"
    else "'" + names[0] + "', " + QuotedItems(names[1..])
  }

  /** The SystemExit text the gate ends the process with. */
  function ExitMessage(missing: seq<string>): (m: string)
    ensures "Переменные окружения [" <= m
    ensures m[|m| - |"] недоступны"|..] == "] недоступны"
  {
    "Переменные окружения [" + QuotedItems(missing) + "] недоступны"
  }

  /** A name that Python's repr of a string shows between plain single quotes. */
  predicate QuoteFree(name: string)
  {
    forall k :: 0 <= k < |name| ==> name[k] != '\''
  }

  /** In a quoted name followed by anything, the first quote after the opening one closes the name. */
  lemma ClosingQuote(x: string, u: string)
    requires QuoteFree(x)
    ensures var m := "'" + x + "'" + u;
      && m[|x| + 1] == '\''
      && m[1..|x| + 1] == x
      && m[|x| + 2..] == u
      && forall k :: 1 <= k < |x| + 1 ==> m[k] != '\''
  {
    var m := "'" + x + "'" + u;
    assert forall k :: 1 <= k < |x| + 1 ==> m[k] == x[k - 1];
  }

  /** Two quoted names followed by anything are equal only if the names and the rests are. */
  lemma QuotedPrefix(x: string, u: string, y: string, v: string)
    requires QuoteFree(x) && QuoteFree(y)
    requires "'" + x + "'" + u == "'" + y + "'" + v
    ensures x == y && u == v
  {
    ClosingQuote(x, u);
    ClosingQuote(y, v);
  }

  /** The repr of a non-empty list: its first name quoted, then the rest after a comma. */
  lemma QuotedItemsHead(names: seq<string>)
    requires names != []
    ensures QuotedItems(names)
         == "'" + names[0] + "'" + (if |names| == 1 then "" else ", " + QuotedItems(names[1..]))
  {
  }

  /** The repr of a list of quote-free names determines the list. */
  lemma {:induction false} QuotedItemsInjective(a: seq<string>, b: seq<string>)
    requires forall i :: 0 <= i < |a| ==> QuoteFree(a[i])
    requires forall i :: 0 <= i < |b| ==> QuoteFree(b[i])
    requires QuotedItems(a) == QuotedItems(b)
    ensures a == b
    decreases |a|
  {
    if a != [] { QuotedItemsHead(a); }
    if b != [] { QuotedItemsHead(b); }
    if a != [] && b != [] {
      var u := if |a| == 1 then "" else ", " + QuotedItems(a[1..]);
      var v := if |b| == 1 then "" else ", " + QuotedItems(b[1..]);
      QuotedPrefix(a[0], u, b[0], v);
      if |a| > 1 && |b| > 1 {
        assert QuotedItems(a[1..]) == u[2..] == v[2..] == QuotedItems(b[1..]);
        QuotedItemsInjective(a[1..], b[1..]);
        assert a == [a[0]] + a[1..] && b == [b[0]] + b[1..];
      }
    }
  }

  /** The SystemExit text tells exactly which tokens were missing. */
  lemma ExitMessageDeterminesMissing(p1: Option<string>, t1: Option<string>, c1: Option<string>,
                                     p2: Option<string>, t2: Option<string>, c2: Option<string>)
    requires CheckTokens(p1, t1, c1).Fail? && CheckTokens(p2, t2, c2).Fail?
    requires ExitMessage(CheckTokens(p1, t1, c1).error) == ExitMessage(CheckTokens(p2, t2, c2).error)
    ensures CheckTokens(p1, t1, c1).error == CheckTokens(p2, t2, c2).error
  {
    var a, b := CheckTokens(p1, t1, c1).error, CheckTokens(p2, t2, c2).error;
    TokenNamesQuoteFree(a);
    TokenNamesQuoteFree(b);
    var head, tail := "Переменные окружения [", "] недоступны";
    var m := ExitMessage(a);
    assert QuotedItems(a) == m[|head|..|m| - |tail|] == QuotedItems(b);
    QuotedItemsInjective(a, b);
  }

  /** The names the gate reports contain no quote character. */
  lemma TokenNamesQuoteFree(names: seq<string>)
    requires forall i :: 0 <= i < |names| ==> names[i] in {PRACTICUM_TOKEN, TELEGRAM_TOKEN, TELEGRAM_CHAT_ID}
    ensures forall i :: 0 <= i < |names| ==> QuoteFree(names[i])
  {
    assert QuoteFree(PRACTICUM_TOKEN) && QuoteFree(TELEGRAM_TOKEN) && QuoteFree(TELEGRAM_CHAT_ID);
  }

  // ---------------------------------------------------------------------
  // Response validator
  // ---------------------------------------------------------------------

  /**
   * Accepts a dict whose `homeworks` is a list and whose `current_date` is
   * present and not null, and returns it unchanged; the type of
   * `current_date` is not examined.
   */
  function CheckResponse(response: Json): (r: Result<Json, Error>)
    ensures r.Success? ==> r.value == response
    ensures r.Success? <==>
      && response.JDict?
      && Get(response.fields, "homeworks").JList?
      && Get(response.fields, "current_date") != JNull
    ensures r == Failure(NotDictOrNoHomeworks) <==>
      !response.JDict? || Get(response.fields, "homeworks") == JNull
    ensures r == Failure(NotListOrNoDate) <==>
      && response.JDict?
      && Get(response.fields, "homeworks") != JNull
      && (!Get(response.fields, "homeworks").JList? || Get(response.fields, "current_date") == JNull)
  {
    if !response.JDict? || Get(response.fields, "homeworks") == JNull then
      Failure(NotDictOrNoHomeworks)
    else if !Get(response.fields, "homeworks").JList? || Get(response.fields, "current_date") == JNull then
      Failure(NotListOrNoDate)
    else
      Success(response)
  }

  /** The homework records of an accepted answer. */
  function Homeworks(response: Json): seq<Json>
    requires CheckResponse(response).Success?
  {
    Get(response.fields, "homeworks").items
  }

  /** The server's `current_date` of an accepted answer. */
  function CurrentDate(response: Json): Json
    requires CheckResponse(response).Success?
  {
    Get(response.fields, "current_date")
  }

  // ---------------------------------------------------------------------
  // Status formatter
  // ---------------------------------------------------------------------

  const HOMEWORK_VERDICTS: map<string, string> := map[
    "approved" := "Работа проверена: ревьюеру всё понравилось. Ура!",
    "reviewing" := "Работа взята на проверку ревьюером.",
    "rejected" := "Работа проверена: у ревьюера есть замечания."
  ]

  const STATUS_PREFIX: string := "Изменился статус проверки работы \""

  /** A status the verdict table has an entry for. */
  predicate IsKnownStatus(status: Json)
  {
    status.JStr? && status.s in HOMEWORK_VERDICTS
  }

  /** A value Python can look up in a dict (lists and dicts are not hashable). */
  predicate Hashable(j: Json)
  {
    !j.JList? && !j.JDict?
  }

  /**
   * The notification for one homework record. The name is checked before
   * the status, and a missing status counts as unknown.
   */
  function ParseStatus(homework: Json): (r: Result<string, Error>)
    ensures !homework.JDict? ==> r == Failure(HomeworkNotDict(TypeName(homework)))
    ensures homework.JDict? && Get(homework.fields, "homework_name") == JNull ==>
      r == Failure(HomeworkNameMissing)
    ensures r.Success? <==>
      && homework.JDict?
      && Get(homework.fields, "homework_name") != JNull
      && IsKnownStatus(Get(homework.fields, "status"))
    ensures homework.JDict? && Get(homework.fields, "homework_name") != JNull
            && !Hashable(Get(homework.fields, "status")) ==>
      r == Failure(StatusUnhashable(TypeName(Get(homework.fields, "status"))))
    ensures r == Failure(UnknownStatus) <==>
      && homework.JDict?
      && Get(homework.fields, "homework_name") != JNull
      && Hashable(Get(homework.fields, "status"))
      && !IsKnownStatus(Get(homework.fields, "status"))
    ensures r.Success? ==>
      r.value == STATUS_PREFIX + Str(Get(homework.fields, "homework_name")) + "\". "
                 + HOMEWORK_VERDICTS[Get(homework.fields, "status").s]
  {
    if !homework.JDict? then
      Failure(HomeworkNotDict(TypeName(homework)))
    else
      var name := Get(homework.fields, "homework_name");
      if name == JNull then
        Failure(HomeworkNameMissing)
      else
        var status := Get(homework.fields, "status");
        if !Hashable(status) then
          Failure(StatusUnhashable(TypeName(status)))
        else if !IsKnownStatus(status) then
          Failure(UnknownStatus)
        else
          Success(STATUS_PREFIX + Str(name) + "\". " + HOMEWORK_VERDICTS[status.s])
  }

  /**
   * Two records produce the same notification only when their names
   * render alike and their statuses are the same: the verdicts are told
   * apart by their last two characters.
   */
  lemma StatusMessageDeterminesStatus(h1: Json, h2: Json)
    requires ParseStatus(h1).Success? && ParseStatus(h2).Success?
    requires ParseStatus(h1).value == ParseStatus(h2).value
    ensures Get(h1.fields, "status") == Get(h2.fields, "status")
    ensures Str(Get(h1.fields, "homework_name")) == Str(Get(h2.fields, "homework_name"))
  {
    var n1, n2 := Str(Get(h1.fields, "homework_name")), Str(Get(h2.fields, "homework_name"));
    var s1, s2 := Get(h1.fields, "status").s, Get(h2.fields, "status").s;
    var v1, v2 := HOMEWORK_VERDICTS[s1], HOMEWORK_VERDICTS[s2];
    var a1, a2 := STATUS_PREFIX + n1 + "\". ", STATUS_PREFIX + n2 + "\". ";
    var m := ParseStatus(h1).value;
    assert m == a1 + v1 == a2 + v2;
    VerdictEnding(s1);
    VerdictEnding(s2);
    TailOfConcat(a1, v1);
    TailOfConcat(a2, v2);
    assert s1 == s2;
    assert a1 == m[..|m| - |v1|] == a2;
    assert n1 == a1[|STATUS_PREFIX|..|a1| - 3];
  }

  /** The last two characters of a concatenation come from its long enough right part. */
  lemma TailOfConcat(a: string, v: string)
    requires |v| >= 2
    ensures (a + v)[|a + v| - 2..] == v[|v| - 2..]
  {
    assert (a + v)[|a + v| - 2..] == [v[|v| - 2], v[|v| - 1]] == v[|v| - 2..];
  }

  /** The last two characters of each verdict, which differ between verdicts. */
  lemma VerdictEnding(status: string)
    requires status in HOMEWORK_VERDICTS
    ensures |HOMEWORK_VERDICTS[status]| >= 2
    ensures var v := HOMEWORK_VERDICTS[status];
      v[|v| - 2..] == (if status == "approved" then "а!" else if status == "reviewing" then "м." else "я.")
  {
  }
}
