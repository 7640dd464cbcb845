/** The chat widget (components/AIChat.tsx): the message log with its
    greeting, the guarded submit that appends the user's message and then
    exactly one assistant message, the context it sends, and when the
    suggested questions are shown. */
module AIChat {
  import opened Optional
  import opened JsString
  import opened SpendingContext

  datatype Role = User | Assistant

  /** `content` is missing when the route answered without a `response`
      field, as its error replies do. */
  datatype Message = Message(role: Role, content: Option<string>)

  /** The greeting as stored in the source, whose final emoji is mis-encoded
      as the four characters U+00F0 U+0178 U+2019 U+00B0. */
  const Greeting: Message := Message(Assistant, Some(
    "Hi! I'm your AI financial assistant. Ask me anything about your spending, budgets, or for money-saving tips! \U{00F0}\U{0178}\U{2019}\U{00B0}"))

  const Apology: string := "Sorry, I had trouble processing that. Please try again!"

  /** The route's answer: a parsed JSON body with its `response` field (if
      any), whatever the status; or a throw from `fetch` or `json()`. */
  datatype ChatReply = Answered(response: Option<string>) | Threw

  /** `getFinancialContext`: empty without a user or when a fetch throws.
      Query errors are not checked: a failed query's rows count as none. */
  method FinancialContext(signedIn: bool, threw: bool, expenses: seq<ExpenseData>, budgets: seq<BudgetRow>)
    returns (ctx: Context)
    ensures !signedIn || threw ==> ctx == EmptyContext
    ensures signedIn && !threw ==> ctx == ContextOf(expenses, budgets)
  {
    if !signedIn || threw {
      return EmptyContext;
    }
    ctx := BuildContext(expenses, budgets);
  }

  /** The assistant message appended when the request settles. */
  function ReplyMessage(reply: ChatReply): (m: Message)
    ensures m.role == Assistant
    ensures reply.Threw? ==> m.content == Some(Apology)
    ensures reply.Answered? ==> m.content == reply.response
  {
    match reply
    case Answered(response) => Message(Assistant, response)
    case Threw => Message(Assistant, Some(Apology))
  }

  class ChatWidget {
    var messages: seq<Message>
    var input: string
    var loading: bool

    constructor()
      ensures messages == [Greeting] && input == "" && !loading
      ensures ShowSuggestions()
    {
      messages, input, loading := [Greeting], "", false;
    }

    method SetInput(text: string)
      modifies this
      ensures input == text && messages == old(messages) && loading == old(loading)
    {
      input := text;
    }

    /** The first half of `handleSubmit`. Nothing happens when the trimmed
        input is empty or a request is in flight; otherwise the input is
        cleared, the trimmed text is appended as the user's message, loading
        starts, and that text is returned as the message to send. */
    method BeginSubmit() returns (sent: Option<string>)
      modifies this
      ensures Trim(old(input)) == "" || old(loading) ==>
                sent == None && messages == old(messages) && input == old(input) && loading == old(loading)
      ensures Trim(old(input)) != "" && !old(loading) ==>
                && sent == Some(Trim(old(input)))
                && input == "" && loading
                && messages == old(messages) + [Message(User, Some(Trim(old(input))))]
    {
      var text := Trim(input);
      if text == "" || loading {
        return None;
      }
      input := "";
      messages := messages + [Message(User, Some(text))];
      loading := true;
      sent := Some(text);
    }

    /** The second half: exactly one assistant message, the reply or the
        apology, and loading ends. */
    method Complete(reply: ChatReply)
      requires loading
      modifies this
      ensures messages == old(messages) + [ReplyMessage(reply)]
      ensures !loading && input == old(input)
    {
      messages := messages + [ReplyMessage(reply)];
      loading := false;
    }

    /** The suggested questions are offered until the first exchange is done. */
    predicate ShowSuggestions()
      reads this
    {
      |messages| <= 2
    }
  }

  /** A fresh widget offers the suggested questions. Submitting `text` and
      receiving `reply` hides them exactly when the submit goes through,
      that is when `text` is not blank; while the request is in flight
      they are still shown. */
  method FirstExchange(text: string, reply: ChatReply) returns (before: bool, during: bool, after: bool)
    ensures before && during
    ensures after <==> Trim(text) == ""
  {
    var w := new ChatWidget();
    before := w.ShowSuggestions();
    w.SetInput(text);
    var sent := w.BeginSubmit();
    during := w.ShowSuggestions();
    if sent.Some? {
      w.Complete(reply);
    }
    after := w.ShowSuggestions();
  }

  /** A message that submit sends is never blank, so it always passes the
      chat route's "required" and "cannot be empty" checks. */
  lemma SentMessageNotBlank(input: string)
    requires Trim(input) != ""
    ensures !AllWhitespace(Trim(input)) && Trim(Trim(input)) == Trim(input)
  {
    TrimEmptyIff(Trim(input));
    TrimIdempotent(input);
  }
}
