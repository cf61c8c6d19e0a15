/** The server action `calculateBondAction` (src/app/actions.ts) once the
    request itself is abstracted away: what the `fetch` call and the body
    parsing produced comes in as an `Outcome`, and the action's nested
    conditionals pick the `{ success, data }` or `{ success: false, error }`
    result from it. */
module Actions {
  import opened BondTypes
  import Decimal

  /** `errorData?.message` of a non-ok response, by the JavaScript value it
      holds. `Falsy` is a falsy non-string (false, 0, null, NaN); the empty
      string is `Str("")`, which is falsy too. */
  datatype MessageField =
    | Absent
    | Falsy
    | Str(s: string)
    | Arr(items: seq<string>)
    | OtherTruthy

  /** The body of a non-ok response: `response.json()` either failed (the
      `.catch(() => null)` gives null) or produced an object. */
  datatype ErrorBody = Unparseable | Parsed(message: MessageField)

  datatype Response =
    | Ok(data: BondCalculationResponse)
    | NotOk(status: nat, statusText: string, body: ErrorBody)

  /** A value thrown inside the `try`: a `TypeError`, another `Error`
      (both carry a message), or a thrown value that is not an `Error`. */
  datatype Thrown =
    | TypeError(message: string)
    | Error(message: string)
    | NonError

  /** How the `try` block ended: the awaited response came back (and, when
      ok, its body parsed), or something was thrown. */
  datatype Outcome = Returned(response: Response) | Raised(thrown: Thrown)

  /** The action's result union. */
  datatype ActionResult =
    | Success(data: BondCalculationResponse)
    | Failure(error: string)

  const ConnectionFailedText: string :=
    "Unable to connect to the server. Please ensure the backend is running."
  const UnexpectedText: string := "An unexpected error occurred"
  const FailedToCalculateText: string := "Failed to calculate bond metrics"

  /** JavaScript truthiness of the message field. */
  predicate Truthy(m: MessageField)
  {
    match m
    case Absent => false
    case Falsy => false
    case Str(s) => s != ""
    case Arr(_) => true
    case OtherTruthy => true
  }

  /** The `n` characters of `s` that start at position `i`. */
  function Window(s: string, i: nat, n: nat): (w: string)
    requires i + n <= |s|
    ensures |w| == n
  {
    s[i..i + n]
  }

  /** `s.includes(sub)`: tries each starting position in turn. It holds
      exactly when `sub` occurs at some position of `s`. */
  predicate Contains(s: string, sub: string)
    ensures Contains(s, sub) <==>
      exists i: nat :: i + |sub| <= |s| && Window(s, i, |sub|) == sub
  {
    if |sub| > |s| then false
    else if s[..|sub|] == sub then
      assert Window(s, 0, |sub|) == sub;
      true
    else
      assert forall i: nat :: 1 <= i && i + |sub| <= |s| ==>
        Window(s, i, |sub|) == Window(s[1..], i - 1, |sub|);
      assert forall j: nat :: j + |sub| <= |s| - 1 ==>
        Window(s[1..], j, |sub|) == Window(s, j + 1, |sub|);
      assert Window(s, 0, |sub|) != sub;
      Contains(s[1..], sub)
  }

  function TotalLength(items: seq<string>): (n: nat)
  {
    if items == [] then 0 else |items[0]| + TotalLength(items[1..])
  }

  /** `items.join(sep)`. */
  function Join(items: seq<string>, sep: string): (r: string)
    ensures items == [] ==> r == ""
    ensures |items| == 1 ==> r == items[0]
    ensures items != [] ==> |r| == TotalLength(items) + |sep| * (|items| - 1)
  {
    if items == [] then ""
    else if |items| == 1 then items[0]
    else items[0] + sep + Join(items[1..], sep)
  }

  /** Appending an item appends the separator and then the item: the
      items appear in their order, one separator between each pair. */
  lemma {:induction false} JoinAppend(items: seq<string>, x: string, sep: string)
    requires items != []
    ensures Join(items + [x], sep) == Join(items, sep) + sep + x
  {
    var longer := items + [x];
    assert longer[0] == items[0];
    if |items| > 1 {
      assert longer[1..] == items[1..] + [x];
      JoinAppend(items[1..], x, sep);
    }
  }

  /** Joining with a non-empty separator gives "" only for no items or one
      empty item. */
  lemma JoinEmpty(items: seq<string>, sep: string)
    requires sep != ""
    ensures Join(items, sep) == "" <==> items == [] || items == [""]
  {
    if |items| > 1 {
      assert |Join(items, sep)| >= |sep|;
    }
  }

  const ServerErrorPrefix: string := "Server error: "

  /** `Server error: ${response.status} ${response.statusText}`: after the
      prefix comes a run of digits that reads back as the status, then a
      space and the status text. */
  function ServerErrorText(status: nat, statusText: string): (r: string)
    ensures var p, d := |ServerErrorPrefix|, |Decimal.NatToString(status)|;
      |r| == p + d + 1 + |statusText| &&
      r[..p] == ServerErrorPrefix &&
      (forall i :: p <= i < p + d ==> Decimal.IsDigit(r[i])) &&
      Decimal.ParseDigits(r[p..p + d]) == status &&
      r[p + d] == ' ' &&
      r[p + d + 1..] == statusText
  {
    var digits := Decimal.NatToString(status);
    var r := ServerErrorPrefix + digits + " " + statusText;
    assert r[|ServerErrorPrefix|..|ServerErrorPrefix| + |digits|] == digits;
    Decimal.ParseNatToString(status);
    r
  }

  /** The error string of a non-ok response (the `if (!response.ok)`
      branch): an array message joined, a non-empty string verbatim,
      any other truthy message the generic text, and no usable message
      the status line. */
  function NotOkError(status: nat, statusText: string, body: ErrorBody): (r: string)
    ensures body.Parsed? && body.message.Arr? ==> r == Join(body.message.items, ", ")
    ensures body.Parsed? && body.message.Str? && body.message.s != "" ==> r == body.message.s
    ensures body.Parsed? && body.message.OtherTruthy? ==> r == FailedToCalculateText
    ensures body.Unparseable? || !Truthy(body.message) ==> r == ServerErrorText(status, statusText)
  {
    var errorMessage :=
      if body.Parsed? && Truthy(body.message) then body.message
      else Str(ServerErrorText(status, statusText));
    match errorMessage
    case Arr(items) => Join(items, ", ")
    case Str(s) => s
    case _ => FailedToCalculateText
  }

  /** The `catch` block's error string: the connection text for a
      `TypeError` that mentions "fetch", the message of any other `Error`,
      and the fixed fallback for a thrown non-`Error`. */
  function ThrownError(e: Thrown): (r: string)
    ensures e.TypeError? && Contains(e.message, "fetch") ==> r == ConnectionFailedText
    ensures !e.NonError? && !(e.TypeError? && Contains(e.message, "fetch")) ==> r == e.message
    ensures e.NonError? ==> r == UnexpectedText
  {
    match e
    case TypeError(m) => if Contains(m, "fetch") then ConnectionFailedText else m
    case Error(m) => m
    case NonError => UnexpectedText
  }

  /** `calculateBondAction`, from the outcome of its `try` block. */
  function CalculateBondResult(o: Outcome): (r: ActionResult)
    ensures r.Success? <==> o.Returned? && o.response.Ok?
  {
    match o
    case Returned(Ok(data)) => Success(data)
    case Returned(NotOk(status, statusText, body)) => Failure(NotOkError(status, statusText, body))
    case Raised(e) => Failure(ThrownError(e))
  }

  /** An ok response succeeds with the parsed body itself. */
  lemma OkIsSuccess(o: Outcome)
    requires o.Returned? && o.response.Ok?
    ensures CalculateBondResult(o) == Success(o.response.data)
  {
  }

  /** An array message is reported as its elements joined by ", "; an
      empty array is truthy, so it is reported as the empty string. */
  lemma ArrayMessageJoined(status: nat, statusText: string, items: seq<string>)
    ensures CalculateBondResult(Returned(NotOk(status, statusText, Parsed(Arr(items)))))
      == Failure(Join(items, ", "))
    ensures items == [] ==>
      CalculateBondResult(Returned(NotOk(status, statusText, Parsed(Arr(items))))) == Failure("")
  {
  }

  /** A non-empty string message is reported verbatim. */
  lemma StringMessageVerbatim(status: nat, statusText: string, s: string)
    requires s != ""
    ensures CalculateBondResult(Returned(NotOk(status, statusText, Parsed(Str(s))))) == Failure(s)
  {
  }

  /** With no usable message (body unparseable, message absent or falsy,
      the empty string included) the status line is reported. */
  lemma MissingMessageReportsStatus(status: nat, statusText: string, body: ErrorBody)
    requires body.Unparseable? || !Truthy(body.message)
    ensures CalculateBondResult(Returned(NotOk(status, statusText, body)))
      == Failure(ServerErrorText(status, statusText))
  {
  }

  /** A truthy message that is neither a string nor an array gives the
      generic failure text. */
  lemma OtherMessageGeneric(status: nat, statusText: string)
    ensures CalculateBondResult(Returned(NotOk(status, statusText, Parsed(OtherTruthy))))
      == Failure(FailedToCalculateText)
  {
  }

  /** A `TypeError` whose message mentions "fetch" is reported as the
      backend being unreachable. */
  lemma FetchTypeErrorUnreachable(m: string)
    requires Contains(m, "fetch")
    ensures CalculateBondResult(Raised(TypeError(m))) == Failure(ConnectionFailedText)
  {
  }

  /** Any other `Error`, including a `TypeError` that does not mention
      "fetch", is reported by its own message; a thrown non-`Error` by the
      fixed fallback text. */
  lemma OtherThrownReported(e: Thrown)
    requires !(e.TypeError? && Contains(e.message, "fetch"))
    ensures e.NonError? ==> CalculateBondResult(Raised(e)) == Failure(UnexpectedText)
    ensures !e.NonError? ==> CalculateBondResult(Raised(e)) == Failure(e.message)
  {
  }

  /** "fetch failed", the message of a refused connection, is recognised. */
  lemma FetchFailedRecognised()
    ensures CalculateBondResult(Raised(TypeError("fetch failed"))) == Failure(ConnectionFailedText)
  {
    assert "fetch failed"[..5] == "fetch";
  }

  /** The only failures whose error text is empty: an array message with no
      element or one empty element, or a thrown `Error` with an empty
      message. The status line and the fixed texts are never empty. */
  lemma EmptyErrorText(o: Outcome)
    ensures CalculateBondResult(o) == Failure("") <==>
      (o.Returned? && o.response.NotOk? && o.response.body.Parsed? &&
       o.response.body.message.Arr? &&
       (o.response.body.message.items == [] || o.response.body.message.items == [""])) ||
      (o.Raised? && !o.thrown.NonError? && o.thrown.message == "")
  {
    match o
    case Returned(NotOk(status, statusText, body)) =>
      if body.Parsed? && body.message.Arr? {
        JoinEmpty(body.message.items, ", ");
      }
    case Raised(e) =>
      if e.TypeError? && Contains(e.message, "fetch") {
        assert |ConnectionFailedText| > 0;
      }
    case _ =>
  }
}
