/** What the three AI routes have in common (app/api/ai/chat/route.ts,
    app/api/ai/insights/route.ts, app/api/ai/categorize/route.ts): the
    authentication gate, the outcomes they answer with, the element
    validators and the `totalSpent` clamp that the chat and insights routes
    both define, and the sanitiser for free text. */
module RouteChecks {
  import opened Json
  import opened JsString
  import opened Optional

  /** How a request ends: 401, 400 with a message, 500 with a message, or
      the validated call the route goes on to make. */
  datatype Outcome<T> = Unauthorized | BadRequest(error: string) | ServerError(error: string) | Accepted(call: T)

  function Status<T>(o: Outcome<T>): (code: nat)
    ensures o.Accepted? <==> code == 200
  {
    match o
    case Unauthorized => 401
    case BadRequest(_) => 400
    case ServerError(_) => 500
    case Accepted(_) => 200
  }

  /** `if (!userId)`: a user id must be present and non-empty. */
  predicate Authorized(userId: Option<string>)
  {
    userId.Some? && userId.value != ""
  }

  /** Destructuring the parsed body throws for `null` (and `request.json()`
      throws for a body that is not JSON, here `None`). */
  predicate BodyReadable(body: Option<Value>)
  {
    body.Some? && !body.value.Null? && !body.value.Undefined?
  }

  /** `validateExpenseData`. */
  predicate ValidExpense(v: Value)
  {
    && Truthy(v) && IsObjectType(v)
    && Get(v, "category").Str?
    && IsNumber(Get(v, "amount")) && NonNegative(Get(v, "amount").n)
    && Get(v, "date").Str?
  }

  /** `validateBudgetData`; the percentage may be any number, NaN included. */
  predicate ValidBudget(v: Value)
  {
    && Truthy(v) && IsObjectType(v)
    && Get(v, "category").Str?
    && IsNumber(Get(v, "amount")) && NonNegative(Get(v, "amount").n)
    && IsNumber(Get(v, "spent"))
    && Get(v, "percentage").Num?
  }

  /** The validators accept exactly the objects with a string category, a
      non-negative amount that is not NaN and a string date; a budget needs a
      non-NaN `spent` and a numeric `percentage` besides. */
  lemma ValidatorsSpec(v: Value)
    ensures ValidExpense(v) <==>
              v.Obj? && "category" in v.fields && v.fields["category"].Str? &&
              "amount" in v.fields && v.fields["amount"].Num? && NonNegative(v.fields["amount"].n) &&
              "date" in v.fields && v.fields["date"].Str?
    ensures ValidBudget(v) <==>
              v.Obj? && "category" in v.fields && v.fields["category"].Str? &&
              "amount" in v.fields && v.fields["amount"].Num? && NonNegative(v.fields["amount"].n) &&
              "spent" in v.fields && v.fields["spent"].Num? && !v.fields["spent"].n.NaN? &&
              "percentage" in v.fields && v.fields["percentage"].Num?
  {
    TruthyObject(v);
  }

  /** `typeof t === "number" && !isNaN(t) ? Math.max(0, t) : 0`. */
  function ClampTotal(t: Value): (r: Number)
    ensures NonNegative(r)
    ensures IsNumber(t) && NonNegative(t.n) ==> r == t.n
    ensures !IsNumber(t) || !NonNegative(t.n) ==> r == Finite(0.0)
  {
    if IsNumber(t) then MaxZero(t.n) else Finite(0.0)
  }

  /** `text.replace(/[<>]/g, "").substring(0, limit)`. */
  function Sanitize(text: string, limit: nat): (r: string)
  {
    Prefix(StripAngles(text), limit)
  }

  /** The sanitised text has no angle bracket, is at most `limit` long and no
      longer than its input; when the input already fits, the truncation
      removes nothing and every character other than `<` and `>` survives. */
  lemma SanitizeSpec(text: string, limit: nat)
    ensures var r := Sanitize(text, limit);
            && (forall i :: 0 <= i < |r| ==> r[i] != '<' && r[i] != '>')
            && |r| <= limit && |r| <= |text|
            && (|text| <= limit ==> r == StripAngles(text))
            && (|text| <= limit ==> forall c :: c != '<' && c != '>' ==> (c in text <==> c in r))
  {
    StripAnglesSpec(text);
  }
}
