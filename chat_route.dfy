/** `POST /api/ai/chat` (app/api/ai/chat/route.ts): the checks it runs, in
    order, before it passes the sanitised message and the validated context
    to the model. */
module ChatRoute {
  import opened Json
  import opened JsString
  import opened Optional
  import opened Seqs
  import opened RouteChecks

  const MaxMessageLength: nat := 1000
  const MaxExpensesCount: nat := 500
  const MaxBudgetsCount: nat := 50

  const MessageRequired: string := "Message is required and must be a string"
  const MessageEmpty: string := "Message cannot be empty"
  const MessageTooLong: string := "Message must be less than 1000 characters"
  const ContextRequired: string := "Context is required"
  const ExpensesNotArray: string := "Expenses must be an array"
  const TooManyExpenses: string := "Too many expenses. Maximum allowed: 500"
  const BudgetsNotArray: string := "Budgets must be an array"
  const TooManyBudgets: string := "Too many budgets. Maximum allowed: 50"
  const ChatFailed: string := "Failed to process message"

  /** The call handed to `chatWithAI`. */
  datatype ChatCall = ChatCall(message: string, expenses: seq<Value>, budgets: seq<Value>, totalSpent: Number)

  /** The handler, for the caller's user id and the parsed body (`None` when
      the body is not JSON). */
  function Post(userId: Option<string>, body: Option<Value>): Outcome<ChatCall>
  {
    if !Authorized(userId) then Unauthorized
    else if !BodyReadable(body) then ServerError(ChatFailed)
    else
      var message := Get(body.value, "message");
      if !(Truthy(message) && message.Str?) then BadRequest(MessageRequired)
      else
        var trimmed := Trim(message.s);
        if |trimmed| == 0 then BadRequest(MessageEmpty)
        else if |trimmed| > MaxMessageLength then BadRequest(MessageTooLong)
        else CheckContext(trimmed, Get(body.value, "context"))
  }

  /** The checks after the message: the context, then its expenses array and
      size, then its budgets array and size. They answer with a 400 or accept. */
  function CheckContext(trimmed: string, context: Value): (r: Outcome<ChatCall>)
    ensures r.Accepted? || r.BadRequest?
  {
    if !(Truthy(context) && IsObjectType(context)) then BadRequest(ContextRequired)
    else
      var expenses := Get(context, "expenses");
      if !expenses.Arr? then BadRequest(ExpensesNotArray)
      else if |expenses.items| > MaxExpensesCount then BadRequest(TooManyExpenses)
      else
        var budgets := Get(context, "budgets");
        if !budgets.Arr? then BadRequest(BudgetsNotArray)
        else if |budgets.items| > MaxBudgetsCount then BadRequest(TooManyBudgets)
        else Accepted(ChatCall(Sanitize(trimmed, MaxMessageLength),
                               Filter(expenses.items, ValidExpense),
                               Filter(budgets.items, ValidBudget),
                               ClampTotal(Get(context, "totalSpent"))))
  }

  /** The authentication gate comes first: without a user id the answer is
      401 whatever the body, and an unreadable body is a 500. */
  lemma AuthFirst(userId: Option<string>, body: Option<Value>)
    ensures Post(userId, body) == Unauthorized <==> !Authorized(userId)
    ensures Authorized(userId) && !BodyReadable(body) ==> Post(userId, body) == ServerError(ChatFailed)
  {
  }

  /** The message checks: a missing, empty or non-string message is
      "required", an all-whitespace one "cannot be empty", and one whose
      trimmed length exceeds 1000 is too long; exactly 1000 passes, and a
      message that passes leaves the outcome to the context checks. */
  lemma MessageChecks(userId: Option<string>, body: Option<Value>)
    requires Authorized(userId) && BodyReadable(body)
    ensures var m := Get(body.value, "message");
            && (!m.Str? || m.s == "" ==> Post(userId, body) == BadRequest(MessageRequired))
            && (m.Str? && m.s != "" && AllWhitespace(m.s) ==> Post(userId, body) == BadRequest(MessageEmpty))
            && (m.Str? && !AllWhitespace(m.s) && |Trim(m.s)| > MaxMessageLength ==> Post(userId, body) == BadRequest(MessageTooLong))
            && (m.Str? && !AllWhitespace(m.s) && |Trim(m.s)| <= MaxMessageLength ==>
                  Post(userId, body) == CheckContext(Trim(m.s), Get(body.value, "context")))
  {
    var m := Get(body.value, "message");
    if m.Str? && m.s != "" {
      TrimEmptyIff(m.s);
      assert Truthy(m);
    }
  }

  /** After the message, the first failing context check decides the error:
      context, then the expenses array and its size, then the budgets array
      and its size. A valid message with a well-formed context is accepted. */
  lemma ContextChecks(userId: Option<string>, body: Option<Value>)
    requires Authorized(userId) && BodyReadable(body)
    requires var m := Get(body.value, "message"); m.Str? && !AllWhitespace(m.s) && |Trim(m.s)| <= MaxMessageLength
    ensures var c := Get(body.value, "context");
            var es, bs := Get(c, "expenses"), Get(c, "budgets");
            var r := Post(userId, body);
            && (!(c.Arr? || c.Obj?) ==> r == BadRequest(ContextRequired))
            && ((c.Arr? || c.Obj?) && !es.Arr? ==> r == BadRequest(ExpensesNotArray))
            && (c.Obj? && es.Arr? && |es.items| > MaxExpensesCount ==> r == BadRequest(TooManyExpenses))
            && (c.Obj? && es.Arr? && |es.items| <= MaxExpensesCount && !bs.Arr? ==> r == BadRequest(BudgetsNotArray))
            && (c.Obj? && es.Arr? && |es.items| <= MaxExpensesCount && bs.Arr? && |bs.items| > MaxBudgetsCount ==>
                  r == BadRequest(TooManyBudgets))
            && (c.Obj? && es.Arr? && |es.items| <= MaxExpensesCount && bs.Arr? && |bs.items| <= MaxBudgetsCount ==>
                  r.Accepted?)
  {
    var m := Get(body.value, "message");
    TrimEmptyIff(m.s);
    TruthyObject(Get(body.value, "context"));
  }

  /** What an accepted call carries: a non-empty message of at most 1000
      characters with no `<` or `>`, which is the trimmed message with the
      brackets removed (the truncation never cuts); only valid expenses and
      budgets, in their order, no more than the caps; and a total that is
      not negative and not NaN. */
  lemma AcceptedSpec(userId: Option<string>, body: Option<Value>)
    requires Post(userId, body).Accepted?
    ensures var call := Post(userId, body).call;
            var m := Get(body.value, "message");
            var c := Get(body.value, "context");
            && m.Str? && !AllWhitespace(m.s)
            && call.message == StripAngles(Trim(m.s))
            && |call.message| <= MaxMessageLength
            && (forall i :: 0 <= i < |call.message| ==> call.message[i] != '<' && call.message[i] != '>')
            && c.Obj? && Get(c, "expenses").Arr? && Get(c, "budgets").Arr?
            && call.expenses == Filter(Get(c, "expenses").items, ValidExpense)
            && |call.expenses| <= MaxExpensesCount
            && (forall i :: 0 <= i < |call.expenses| ==> ValidExpense(call.expenses[i]))
            && call.budgets == Filter(Get(c, "budgets").items, ValidBudget)
            && |call.budgets| <= MaxBudgetsCount
            && (forall i :: 0 <= i < |call.budgets| ==> ValidBudget(call.budgets[i]))
            && NonNegative(call.totalSpent)
  {
    var m := Get(body.value, "message");
    TrimEmptyIff(m.s);
    SanitizeSpec(Trim(m.s), MaxMessageLength);
  }
}
