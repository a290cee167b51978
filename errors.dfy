/**
 * The unified error classifier: standardised error objects, the ordered
 * substring rules that infer an error's type from its message, and the
 * severity and recovery-action tables keyed by that type.
 */
module Errors {
  import opened Wrappers
  import opened Text

  datatype ErrorType =
    | ValidationError | NetworkError | DatabaseError | FileSystemError | ParsingError
    | SystemError | ExternalServiceError | ConfigurationError
    | AuthenticationError | AuthorizationError

  datatype Severity = Low | Medium | High | Critical

  datatype Action = Retry | Fallback | Abort | LogOnly | UserNotification

  /**
   * An error object as the handler sees it.  `type` and `severity` are the
   * two properties whose presence marks an error as already standardised (`kind` stands for the `type` property);
   * a plain `Error` has neither.
   */
  datatype ErrorObject = ErrorObject(
    message: string,
    kind: Option<ErrorType>,
    severity: Option<Severity>,
    action: Option<Action>,
    isRecoverable: Option<bool>,
    originalMessage: Option<string>)

  predicate IsStandard(e: ErrorObject)
  {
    e.kind.Some? && e.severity.Some?
  }

  /** A plain thrown `Error` carrying only its message. */
  function Plain(message: string): (e: ErrorObject)
    ensures !IsStandard(e) && e.message == message
  {
    ErrorObject(message, None, None, None, None, None)
  }

  /**
   * `createError`: severity defaults to MEDIUM and action to LOG_ONLY, and the
   * error is recoverable exactly when its action is RETRY or FALLBACK.
   */
  function CreateError(t: ErrorType, message: string, severity: Option<Severity>, action: Option<Action>,
                       original: Option<string>): (e: ErrorObject)
    ensures IsStandard(e) && e.kind == Some(t) && e.message == message
    ensures e.severity == Some(severity.GetOr(Medium))
    ensures e.action == Some(action.GetOr(LogOnly))
    ensures e.isRecoverable == Some(e.action == Some(Retry) || e.action == Some(Fallback))
    ensures e.originalMessage == original
  {
    var a := action.GetOr(LogOnly);
    ErrorObject(message, Some(t), Some(severity.GetOr(Medium)), Some(a), Some(a == Retry || a == Fallback), original)
  }

  /** With no options, an error is MEDIUM, LOG_ONLY and not recoverable. */
  lemma CreateErrorDefaults(t: ErrorType, message: string)
    ensures var e := CreateError(t, message, None, None, None);
      e.severity == Some(Medium) && e.action == Some(LogOnly) && e.isRecoverable == Some(false)
  {
  }

  /** The substrings `inferErrorType` looks for, in the order it tests them. */
  const DatabaseWords: seq<string> := ["database", "sqlite", "sql"]
  const NetworkWords: seq<string> := ["network", "fetch", "http", "timeout"]
  const FileSystemWords: seq<string> := ["enoent", "permission", "file", "directory"]
  const ParsingWords: seq<string> := ["parse", "json", "syntax", "invalid"]
  const ConfigurationWords: seq<string> := ["config", "setting", "environment"]
  const AuthWords: seq<string> := ["auth", "permission", "unauthorized"]
  const ExternalWords: seq<string> := ["api", "service", "external"]
  const ValidationWords: seq<string> := ["validate", "invalid", "required"]

  const AllWords: seq<string> :=
    DatabaseWords + NetworkWords + FileSystemWords + ParsingWords
    + ConfigurationWords + AuthWords + ExternalWords + ValidationWords

  /** Some word of `words` occurs in `m`. */
  predicate Hits(m: string, words: seq<string>)
  {
    exists w :: w in words && Contains(m, w)
  }

  /**
   * `inferErrorType`: the first rule, in the fixed order database, network,
   * file system, parsing, configuration, auth, external service, validation,
   * one of whose words occurs in the lower-cased message; SYSTEM_ERROR when
   * none does.  The auth rule answers AUTHORIZATION when the message mentions
   * "permission".
   */
  function InferErrorType(message: string): (t: ErrorType)
  {
    var m := Lower(message);
    if Hits(m, DatabaseWords) then DatabaseError
    else if Hits(m, NetworkWords) then NetworkError
    else if Hits(m, FileSystemWords) then FileSystemError
    else if Hits(m, ParsingWords) then ParsingError
    else if Hits(m, ConfigurationWords) then ConfigurationError
    else if Hits(m, AuthWords) then
      (if Contains(m, "permission") then AuthorizationError else AuthenticationError)
    else if Hits(m, ExternalWords) then ExternalServiceError
    else if Hits(m, ValidationWords) then ValidationError
    else SystemError
  }

  lemma HitsAppend(m: string, a: seq<string>, b: seq<string>)
    ensures Hits(m, a + b) <==> Hits(m, a) || Hits(m, b)
  {
    if Hits(m, a + b) {
      var w :| w in a + b && Contains(m, w);
      assert w in a || w in b;
    }
    if Hits(m, a) {
      var w :| w in a && Contains(m, w);
      assert w in a + b;
    }
    if Hits(m, b) {
      var w :| w in b && Contains(m, w);
      assert w in a + b;
    }
  }

  /**
   * The classifier is first-match over its rules: an answer other than
   * SYSTEM_ERROR is justified by a word of its own rule while no word of any
   * earlier rule occurs, and SYSTEM_ERROR is the answer exactly when no word
   * of any rule occurs.
   */
  lemma InferErrorTypeFirstMatch(message: string)
    ensures var m, t := Lower(message), InferErrorType(message);
      (t == DatabaseError <==> Hits(m, DatabaseWords))
      && (t == NetworkError <==> !Hits(m, DatabaseWords) && Hits(m, NetworkWords))
      && (t == FileSystemError <==> !Hits(m, DatabaseWords + NetworkWords) && Hits(m, FileSystemWords))
      && (t == ParsingError <==> !Hits(m, DatabaseWords + NetworkWords + FileSystemWords) && Hits(m, ParsingWords))
      && (t == SystemError <==> !Hits(m, AllWords))
  {
    var m := Lower(message);
    HitsAppend(m, DatabaseWords, NetworkWords);
    HitsAppend(m, DatabaseWords + NetworkWords, FileSystemWords);
    HitsAppend(m, DatabaseWords + NetworkWords + FileSystemWords, ParsingWords);
    HitsAppend(m, DatabaseWords + NetworkWords + FileSystemWords + ParsingWords, ConfigurationWords);
    HitsAppend(m, DatabaseWords + NetworkWords + FileSystemWords + ParsingWords + ConfigurationWords, AuthWords);
    HitsAppend(m, DatabaseWords + NetworkWords + FileSystemWords + ParsingWords + ConfigurationWords + AuthWords, ExternalWords);
    HitsAppend(m, DatabaseWords + NetworkWords + FileSystemWords + ParsingWords + ConfigurationWords + AuthWords + ExternalWords, ValidationWords);
  }

  /**
   * AUTHORIZATION_ERROR is never inferred: the file-system rule, tested
   * earlier, already claims every message that mentions "permission".
   */
  lemma InferNeverAuthorization(message: string)
    ensures InferErrorType(message) != AuthorizationError
  {
    var m := Lower(message);
    if Contains(m, "permission") {
      assert "permission" in FileSystemWords;
    }
  }

  /**
   * VALIDATION_ERROR is never inferred for a message mentioning "invalid":
   * the parsing rule, tested earlier, claims it first.
   */
  lemma InferInvalidNeverValidation(message: string)
    requires Contains(Lower(message), "invalid")
    ensures InferErrorType(message) != ValidationError
  {
    assert "invalid" in ParsingWords;
  }

  /** `determineSeverity`: CRITICAL for database and system errors, HIGH for the two auth types, MEDIUM otherwise. */
  function DetermineSeverity(t: ErrorType): (s: Severity)
    ensures s == Critical <==> t == DatabaseError || t == SystemError
    ensures s == High <==> t == AuthenticationError || t == AuthorizationError
    ensures s != Low
  {
    if t == DatabaseError || t == SystemError then Critical
    else if t == AuthenticationError || t == AuthorizationError then High
    else Medium
  }

  /** `determineAction`: the recovery action recommended for each type. */
  function DetermineAction(t: ErrorType): (a: Action)
    ensures a == Retry <==> t == NetworkError
    ensures a == Fallback <==> t == DatabaseError || t == FileSystemError
    ensures a == Abort <==> t == ConfigurationError
    ensures a == UserNotification <==> t == AuthenticationError || t == AuthorizationError
  {
    match t
    case NetworkError => Retry
    case DatabaseError => Fallback
    case FileSystemError => Fallback
    case ParsingError => LogOnly
    case ConfigurationError => Abort
    case AuthenticationError => UserNotification
    case AuthorizationError => UserNotification
    case _ => LogOnly
  }

  /**
   * `standardizeError`: an error that already has a type and a severity is
   * returned as it is; any other is rebuilt from its message with the inferred
   * type, severity and action, keeping the original as its cause.
   */
  function StandardizeError(e: ErrorObject): (r: ErrorObject)
    ensures IsStandard(r) && r.message == e.message
    ensures IsStandard(e) ==> r == e
    ensures !IsStandard(e) ==> r.kind == Some(InferErrorType(e.message)) && r.originalMessage == Some(e.message)
  {
    if IsStandard(e) then e
    else
      var t := InferErrorType(e.message);
      CreateError(t, e.message, Some(DetermineSeverity(t)), Some(DetermineAction(t)), Some(e.message))
  }

  /** Standardising twice is standardising once. */
  lemma StandardizeIdempotent(e: ErrorObject)
    ensures StandardizeError(StandardizeError(e)) == StandardizeError(e)
  {
  }

  /**
   * A plain error comes out recoverable exactly when its message is classified
   * as a network, database or file-system error, and it is never LOW.
   */
  lemma StandardizedRecoverable(message: string)
    ensures var r, t := StandardizeError(Plain(message)), InferErrorType(message);
      (r.isRecoverable == Some(true) <==> t in {NetworkError, DatabaseError, FileSystemError})
      && r.severity != Some(Low)
  {
  }

  /**
   * What an operation may throw: an error object, or a value that is not an
   * object at all (a string, a number, null, undefined), shown by its
   * string form.
   */
  datatype Thrown = ThrownError(error: ErrorObject) | ThrownPrimitive(shown: string)

  /** How a call ends: it returns a value or throws. */
  datatype Completion<T> = Returns(value: T) | Throws(thrown: Thrown)

  /** The `TypeError` that `'type' in error` raises when `error` is not an object. */
  function InTypeError(shown: string): (t: Thrown)
    ensures t.ThrownError? && !IsStandard(t.error)
  {
    ThrownError(Plain("Cannot use 'in' operator to search for 'type' in " + shown))
  }

  /**
   * `handle`: an error object is standardised (and logged); for a value
   * that is not an object, the `'type' in error` test itself throws.
   */
  function Handle(t: Thrown): (r: Completion<ErrorObject>)
    ensures r.Returns? <==> t.ThrownError?
    ensures t.ThrownError? ==> r.value == StandardizeError(t.error) && IsStandard(r.value)
    ensures t.ThrownPrimitive? ==> r == Throws(InTypeError(t.shown))
  {
    match t
    case ThrownError(e) => Returns(StandardizeError(e))
    case ThrownPrimitive(v) => Throws(InTypeError(v))
  }

  /**
   * `wrapSync` / `wrapAsync`: the operation's value when it returns; when it
   * throws, whatever `handle` does with the thrown value: null (here `None`)
   * once it is handled, or `handle`'s own `TypeError`, which escapes the
   * catch block.
   */
  function Wrap<T>(c: Completion<T>): (r: Completion<Option<T>>)
    ensures c.Returns? ==> r == Returns(Some(c.value))
    ensures c.Throws? && c.thrown.ThrownError? ==> r == Returns(None)
    ensures c.Throws? && c.thrown.ThrownPrimitive? ==> r == Throws(InTypeError(c.thrown.shown))
  {
    match c
    case Returns(v) => Returns(Some(v))
    case Throws(t) =>
      match Handle(t)
      case Returns(_) => Returns(None)
      case Throws(e) => Throws(e)
  }

  /**
   * The `handleErrors` decorator: a thrown error is standardised for
   * logging and then the ORIGINAL error is rethrown, so the caller sees the
   * method's own outcome; a thrown non-object makes `handle` throw first,
   * and its `TypeError` replaces what the method threw.
   */
  function HandleErrors<T>(c: Completion<T>): (r: (Completion<T>, Option<ErrorObject>))
    ensures r.1.Some? <==> c.Throws? && c.thrown.ThrownError?
    ensures c.Returns? || c.thrown.ThrownError? ==> r.0 == c
    ensures c.Throws? && c.thrown.ThrownError? ==> r.1 == Some(StandardizeError(c.thrown.error))
    ensures c.Throws? && c.thrown.ThrownPrimitive? ==> r.0 == Throws(InTypeError(c.thrown.shown))
  {
    match c
    case Returns(_) => (c, None)
    case Throws(t) =>
      match Handle(t)
      case Returns(e) => (c, Some(e))
      case Throws(e) => (Throws(e), None)
  }

  /**
   * The wrappers and the decorator agree: the wrapper returns null exactly
   * when the decorator rethrows the method's own error, and both let the
   * same `TypeError` out for a thrown non-object.
   */
  lemma WrapAgreesWithDecorator<T>(c: Completion<T>)
    ensures Wrap(c) == Returns(None) <==> c.Throws? && HandleErrors(c).0 == c
    ensures Wrap(c).Throws? <==> HandleErrors(c).0.Throws? && HandleErrors(c).0 != c
    ensures Wrap(c).Throws? ==> Wrap(c).thrown == HandleErrors(c).0.thrown
  {
    if c.Throws? && c.thrown.ThrownPrimitive? {
      assert InTypeError(c.thrown.shown) != c.thrown;
    }
  }
}
