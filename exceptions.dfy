/** The exceptions the poller raises and compares. The four classes of
    tg_bot/utils.py (homework.py repeats the first three word for word) keep a
    `message` fixed by `__init__` and render it in `__str__`; the built-in
    exceptions come from Python itself. The poller deduplicates errors by
    `str(error)`, so `ErrorText` is what matters. */
module Exceptions {
  import opened Wrappers
  import opened PyValues

  /** The project's own exception classes. */
  datatype ErrorClass =
    | AnswerStatusIsNot200Error
    | RequestReceivingError
    | IncorrectDataTypeError
    | SendMessageError

  /** Each class's docstring, the message of an instance built without arguments. */
  function Docstring(c: ErrorClass): string {
    match c
    case AnswerStatusIsNot200Error => "Статус ответа не равен значению 200."
    case RequestReceivingError => "Ошибка получения ответа на запрос."
    case IncorrectDataTypeError => "Некорректные тип данных в ответе."
    case SendMessageError => "Не получилось отправить сообщение."
  }

  /** A raised exception. */
  datatype PyError =
      /** an instance of one of the project's classes, with its `message` */
    | Custom(cls: ErrorClass, message: Json)
      /** built-in `KeyError(key)` */
    | KeyError(key: Hashable)
      /** built-in `TypeError` and `AttributeError` raised by the interpreter */
    | TypeError(text: string)
    | AttributeError(text: string)
      /** built-in `Exception(text)` */
    | Exception(text: string)
      /** raised by `requests`, by `response.json()` or by the Telegram library */
    | Foreign(text: string)

  /** `cls(*args)`: `__init__` keeps the first argument as the message and
      falls back to the class docstring when there is none. */
  function Raise(c: ErrorClass, args: seq<Json>): PyError {
    Custom(c, if args != [] then args[0] else JString(Docstring(c)))
  }

  /** `str(error)`. */
  function ErrorText(e: PyError): string {
    match e
    case Custom(c, m) =>
      // AnswerStatusIsNot200Error.__str__ is f'{self.message} ', the others f'{self.message}'
      if c == AnswerStatusIsNot200Error then StrOf(m) + " " else StrOf(m)
    case KeyError(k) => ReprOf(k)
    case TypeError(t) => t
    case AttributeError(t) => t
    case Exception(t) => t
    case Foreign(t) => t
  }

  /** The whole rendering rule of the four classes: the first argument (extra
      ones ignored) or the docstring, followed by one space for
      `AnswerStatusIsNot200Error` only. */
  lemma RaisedText(c: ErrorClass, args: seq<Json>)
    ensures ErrorText(Raise(c, args)) ==
      (if args != [] then StrOf(args[0]) else Docstring(c))
      + (if c == AnswerStatusIsNot200Error then " " else "")
  {
  }

  /** For every class, instances with different string messages have
      different texts, so suppressing a repeated `str(error)` suppresses
      exactly a repeated message. */
  lemma RaisedTextInjective(c: ErrorClass, m1: string, m2: string)
    requires ErrorText(Raise(c, [JString(m1)])) == ErrorText(Raise(c, [JString(m2)]))
    ensures m1 == m2
  {
    if c == AnswerStatusIsNot200Error {
      assert m1 == (m1 + " ")[..|m1|];
      assert m2 == (m2 + " ")[..|m2|];
    }
  }

  /** The four default texts are pairwise different. */
  lemma DefaultTextsDistinct(c1: ErrorClass, c2: ErrorClass)
    requires c1 != c2
    ensures ErrorText(Raise(c1, [])) != ErrorText(Raise(c2, []))
  {
    DefaultTextStart(c1);
    DefaultTextStart(c2);
    DocstringStart(c1);
    DocstringStart(c2);
  }

  lemma DefaultTextStart(c: ErrorClass)
    ensures var t := ErrorText(Raise(c, []));
      |t| > 3 && t[0] == Docstring(c)[0] && t[2] == Docstring(c)[2]
  {
    RaisedText(c, []);
  }

  lemma DocstringStart(c: ErrorClass)
    ensures Docstring(c)[0] == (match c
      case AnswerStatusIsNot200Error => 'С'
      case RequestReceivingError => 'О'
      case _ => 'Н')
    ensures c == IncorrectDataTypeError ==> Docstring(c)[2] == 'к'
    ensures c == SendMessageError ==> Docstring(c)[2] == ' '
  {
  }

  // ------------------------------------------------ operations that raise

  /** `v[key]` with a `str` key: the value, a `KeyError` naming the key for a
      dict without it, and a `TypeError` for anything that is not a dict. */
  function Subscript(v: Json, key: string): (r: Result<Json, PyError>)
    ensures Has(v, key) ==> r == Success(Get(v, key))
    ensures v.JObject? && !Has(v, key) ==> r == Failure(KeyError(JString(key)))
    ensures v.JArray? ==> r == Failure(TypeError("list indices must be integers or slices, not str"))
    ensures v.JString? ==> r == Failure(TypeError("string indices must be integers"))
    ensures !v.JObject? && !v.JArray? && !v.JString? ==>
      r == Failure(TypeError("'" + TypeName(v) + "' object is not subscriptable"))
  {
    match v
    case JObject(fields) =>
      (match Lookup(fields, key)
       case Some(x) => Success(x)
       case None => Failure(KeyError(JString(key))))
    case JArray(_) => Failure(TypeError("list indices must be integers or slices, not str"))
    case JString(_) => Failure(TypeError("string indices must be integers"))
    case _ => Failure(TypeError("'" + TypeName(v) + "' object is not subscriptable"))
  }

  /** The `AttributeError` for `v.name` when `v` has no such attribute. */
  function NoAttribute(v: Json, name: string): PyError {
    AttributeError("'" + TypeName(v) + "' object has no attribute '" + name + "'")
  }

  /** `v.get(key)`: the value or `None` for a dict; only dicts have `get`. */
  function DictGet(v: Json, key: string): (r: Result<Json, PyError>)
    ensures Has(v, key) ==> r == Success(Get(v, key))
    ensures v.JObject? && !Has(v, key) ==> r == Success(JNull)
    ensures !v.JObject? ==> r == Failure(NoAttribute(v, "get"))
  {
    match v
    case JObject(fields) =>
      (match Lookup(fields, key)
       case Some(x) => Success(x)
       case None => Success(JNull))
    case _ => Failure(NoAttribute(v, "get"))
  }

  /** `except KeyError as error: raise KeyError(f'{prefix}{error}')`: a
      `KeyError` is replaced by one whose key is the prefixed text of the
      first; any other exception passes through. */
  function RewrapKeyError(e: PyError, prefix: string): PyError {
    if e.KeyError? then KeyError(JString(prefix + ErrorText(e))) else e
  }

  /** The `KeyError` a failed `d[key]` turns into once re-raised with `prefix`. */
  function MissingKey(prefix: string, key: string): PyError {
    RewrapKeyError(KeyError(JString(key)), prefix)
  }
}
