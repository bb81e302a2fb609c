/** The error-handling middleware: every error a handler throws becomes a
    status code and a JSON body `{ msg }`. */
module ErrorHandler {
  import opened Errors

  const InternalServerError := 500
  const BadRequestStatus := 400
  const NotFoundStatus := 404
  const UnauthorizedStatus := 401
  const DuplicateKeyCode := 11000
  const GenericMessage := "Something went wrong, try again later"

  /** The parts of a thrown JavaScript error that the middleware reads.
      `message` is "" when the error has none; `fieldMessages` are the
      messages of `Object.values(err.errors)` in order, and `keyValueKeys`
      is `Object.keys(err.keyValue)`. */
  datatype ErrorValue = ErrorValue(
    name: string,
    message: string,
    statusCode: Option<int>,
    code: Option<int>,
    fieldMessages: seq<string>,
    keyValueKeys: seq<string>)

  /** The response body holds `msg` and nothing else. */
  datatype ErrorBody = ErrorBody(msg: string)

  datatype ErrorReply = ErrorReply(statusCode: int, body: ErrorBody)

  /** `Array.prototype.join`. */
  function Join(parts: seq<string>, sep: string): string
  {
    if |parts| == 0 then ""
    else if |parts| == 1 then parts[0]
    else parts[0] + sep + Join(parts[1..], sep)
  }

  /** `String.prototype.split` on one character, the inverse of Join. */
  function Split(s: string, sep: char): (r: seq<string>)
    ensures |r| > 0
  {
    if s == [] then [""]
    else
      var rest := Split(s[1..], sep);
      if s[0] == sep then [""] + rest else [[s[0]] + rest[0]] + rest[1..]
  }

  function DuplicateMessage(keys: seq<string>): string
  {
    "A user with that " + Join(keys, ",") + " already exists."
  }

  /** `err.statusCode || 500`: a missing or zero status falls back. */
  function StatusOrDefault(statusCode: Option<int>): int
  {
    if statusCode.Some? && statusCode.value != 0 then statusCode.value else InternalServerError
  }

  /** The reply for an error, rule by rule in order of precedence: a
      duplicate key, then a validation error, then the error's own status and
      message with their defaults. */
  function Reply(err: ErrorValue): ErrorReply
  {
    if err.code == Some(DuplicateKeyCode) then
      ErrorReply(BadRequestStatus, ErrorBody(DuplicateMessage(err.keyValueKeys)))
    else if err.name == "ValidationError" then
      ErrorReply(BadRequestStatus, ErrorBody(Join(err.fieldMessages, ",")))
    else
      ErrorReply(StatusOrDefault(err.statusCode),
                 ErrorBody(if err.message != "" then err.message else GenericMessage))
  }

  /** `errorHandlerMiddleware`: a default reply, then two rules that each
      overwrite it, the later one last. */
  method HandleError(err: ErrorValue) returns (reply: ErrorReply)
    ensures reply == Reply(err)
  {
    var statusCode := StatusOrDefault(err.statusCode);
    var msg := if err.message != "" then err.message else GenericMessage;
    if err.name == "ValidationError" {
      statusCode := BadRequestStatus;
      msg := Join(err.fieldMessages, ",");
    }
    if err.code.Some? && err.code.value == DuplicateKeyCode {
      statusCode := BadRequestStatus;
      msg := DuplicateMessage(err.keyValueKeys);
    }
    reply := ErrorReply(statusCode, ErrorBody(msg));
  }

  /** The status is the error's own, 400, or 500: nothing else. The error's
      own status survives unless a rule applies. */
  lemma ReplyStatus(err: ErrorValue)
    ensures Reply(err).statusCode in {BadRequestStatus, InternalServerError}
            || (err.statusCode.Some? && Reply(err).statusCode == err.statusCode.value)
    ensures (err.code != Some(DuplicateKeyCode) && err.name != "ValidationError"
             && err.statusCode.Some? && err.statusCode.value != 0)
            ==> Reply(err).statusCode == err.statusCode.value
    ensures err.statusCode.None? ==> Reply(err).statusCode in {BadRequestStatus, InternalServerError}
    ensures (err.code != Some(DuplicateKeyCode) && err.name != "ValidationError"
             && (err.statusCode.None? || err.statusCode.value == 0))
            ==> Reply(err).statusCode == InternalServerError
  {
  }

  /** The duplicate-key rule runs last, so when it applies nothing else about
      the error matters: not its name, message, status or field messages. */
  lemma DuplicateKeyOverrides(err: ErrorValue, name: string, message: string,
                              statusCode: Option<int>, fieldMessages: seq<string>)
    requires err.code == Some(DuplicateKeyCode)
    ensures Reply(err) == Reply(err.(name := name, message := message, statusCode := statusCode,
                                     fieldMessages := fieldMessages))
    ensures Reply(err).statusCode == BadRequestStatus
  {
  }

  /** The client is always told something, except for a validation error
      whose field messages join to nothing (none, or a single empty one):
      otherwise the message is never empty. */
  lemma ReplyHasMessage(err: ErrorValue)
    requires err.name == "ValidationError" && err.code != Some(DuplicateKeyCode) ==>
               |err.fieldMessages| >= 2 || exists i :: 0 <= i < |err.fieldMessages| && err.fieldMessages[i] != ""
    ensures Reply(err).body.msg != ""
  {
    if err.code != Some(DuplicateKeyCode) && err.name == "ValidationError" {
      JoinNonEmpty(err.fieldMessages, ",");
    }
  }

  /** A join of two or more parts holds a separator; a join of parts one of
      which is non-empty holds that part. Either way it is not empty. */
  lemma {:induction false} JoinNonEmpty(parts: seq<string>, sep: string)
    requires sep != ""
    requires |parts| >= 2 || exists i :: 0 <= i < |parts| && parts[i] != ""
    ensures Join(parts, sep) != ""
  {
    if |parts| >= 2 {
      assert |Join(parts, sep)| >= |sep|;
    }
  }

  /** The validation message lists every field message, in order: when no
      field message contains a comma, splitting `msg` at the commas gives
      them back. */
  lemma ValidationMessageListsFields(err: ErrorValue)
    requires err.name == "ValidationError" && err.code != Some(DuplicateKeyCode)
    requires err.fieldMessages != []
    requires forall i :: 0 <= i < |err.fieldMessages| ==> ',' !in err.fieldMessages[i]
    ensures Reply(err).statusCode == BadRequestStatus
    ensures Split(Reply(err).body.msg, ',') == err.fieldMessages
  {
    SplitJoin(err.fieldMessages, ',');
  }

  /** Split undoes Join when no part contains the separator. */
  lemma {:induction false} SplitJoin(parts: seq<string>, sep: char)
    requires parts != []
    requires forall i :: 0 <= i < |parts| ==> sep !in parts[i]
    ensures Split(Join(parts, [sep]), sep) == parts
  {
    if |parts| == 1 {
      SplitWithoutSeparator(parts[0], sep);
    } else {
      SplitJoin(parts[1..], sep);
      SplitAtFirst(parts[0], Join(parts[1..], [sep]), sep);
      assert parts == [parts[0]] + parts[1..];
    }
  }

  lemma {:induction false} SplitWithoutSeparator(s: string, sep: char)
    requires sep !in s
    ensures Split(s, sep) == [s]
  {
    if s != [] {
      SplitWithoutSeparator(s[1..], sep);
      assert [s[0]] + s[1..] == s;
    }
  }

  lemma {:induction false} SplitAtFirst(a: string, b: string, sep: char)
    requires sep !in a
    ensures Split(a + [sep] + b, sep) == [a] + Split(b, sep)
  {
    var s := a + [sep] + b;
    if a == [] {
      assert s[0] == sep && s[1..] == b;
    } else {
      assert s[0] == a[0] && s[1..] == a[1..] + [sep] + b;
      SplitAtFirst(a[1..], b, sep);
      assert [a[0]] + a[1..] == a;
    }
  }

  /** The error object each controller error is thrown as. The project's
      own errors carry a status; the store's unique-index violation carries
      code 11000. */
  function Thrown(e: ApiError): ErrorValue
  {
    match e
    case BadRequest(m) => ErrorValue("Error", m, Some(BadRequestStatus), None, [], [])
    case NotFound(m) => ErrorValue("Error", m, Some(NotFoundStatus), None, [], [])
    case UnAuthenticated(m) => ErrorValue("Error", m, Some(UnauthorizedStatus), None, [], [])
    case DuplicateKey(keys) => ErrorValue("MongoServerError", "E11000 duplicate key error", None, Some(DuplicateKeyCode), [], keys)
    case Unexpected(name, m) => ErrorValue(name, m, None, None, [], [])
  }

  /** What the client sees for each controller error. */
  lemma ControllerErrorReplies(e: ApiError)
    ensures e.BadRequest? && e.message != "" ==> Reply(Thrown(e)) == ErrorReply(BadRequestStatus, ErrorBody(e.message))
    ensures e.NotFound? && e.message != "" ==> Reply(Thrown(e)) == ErrorReply(NotFoundStatus, ErrorBody(e.message))
    ensures e.UnAuthenticated? && e.message != "" ==> Reply(Thrown(e)) == ErrorReply(UnauthorizedStatus, ErrorBody(e.message))
    ensures e.DuplicateKey? ==> Reply(Thrown(e)) == ErrorReply(BadRequestStatus, ErrorBody(DuplicateMessage(e.keys)))
    ensures e.Unexpected? && e.name != "ValidationError" ==>
              Reply(Thrown(e)).statusCode == InternalServerError
              && Reply(Thrown(e)).body.msg == (if e.message != "" then e.message else GenericMessage)
  {
  }
}
