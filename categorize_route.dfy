/** `POST /api/ai/categorize` (app/api/ai/categorize/route.ts): the checks
    on the posted description before it is sanitised and categorised. */
module CategorizeRoute {
  import opened Json
  import opened JsString
  import opened Optional
  import opened RouteChecks

  const MaxDescriptionLength: nat := 500
  const MinDescriptionLength: nat := 1

  const DescriptionRequired: string := "Description is required and must be a string"
  const DescriptionEmpty: string := "Description cannot be empty"
  const DescriptionTooLong: string := "Description must be less than 500 characters"
  const CategorizeFailed: string := "Failed to categorize expense"

  /** The outcome carries the sanitised description passed to `categorizeExpense`. */
  function Post(userId: Option<string>, body: Option<Value>): Outcome<string>
  {
    if !Authorized(userId) then Unauthorized
    else if !BodyReadable(body) then ServerError(CategorizeFailed)
    else
      var description := Get(body.value, "description");
      if !(Truthy(description) && description.Str?) then BadRequest(DescriptionRequired)
      else
        var trimmed := Trim(description.s);
        if |trimmed| < MinDescriptionLength then BadRequest(DescriptionEmpty)
        else if |trimmed| > MaxDescriptionLength then BadRequest(DescriptionTooLong)
        else Accepted(Sanitize(trimmed, MaxDescriptionLength))
  }

  /** The outcome by cases: 401 without a user, 500 for an unreadable body,
      then "required" for a missing or empty string, "cannot be empty" for
      whitespace only, "too long" past 500 trimmed characters (500 itself
      passes), and acceptance otherwise. */
  lemma Classification(userId: Option<string>, body: Option<Value>)
    ensures var r := Post(userId, body);
            && (r == Unauthorized <==> !Authorized(userId))
            && (Authorized(userId) && !BodyReadable(body) ==> r == ServerError(CategorizeFailed))
            && (Authorized(userId) && BodyReadable(body) ==>
                  var d := Get(body.value, "description");
                  && (!d.Str? || d.s == "" ==> r == BadRequest(DescriptionRequired))
                  && (d.Str? && d.s != "" && AllWhitespace(d.s) ==> r == BadRequest(DescriptionEmpty))
                  && (d.Str? && !AllWhitespace(d.s) && |Trim(d.s)| > MaxDescriptionLength ==>
                        r == BadRequest(DescriptionTooLong))
                  && (d.Str? && !AllWhitespace(d.s) && |Trim(d.s)| <= MaxDescriptionLength <==> r.Accepted?))
  {
    if Authorized(userId) && BodyReadable(body) {
      var d := Get(body.value, "description");
      if d.Str? && d.s != "" {
        TrimEmptyIff(d.s);
        assert Truthy(d);
      }
    }
  }

  /** The accepted description is the trimmed one with its angle brackets
      removed: non-empty input, at most 500 characters, no `<` or `>`. */
  lemma AcceptedSpec(userId: Option<string>, body: Option<Value>)
    requires Post(userId, body).Accepted?
    ensures var d := Get(body.value, "description");
            var r := Post(userId, body).call;
            && d.Str? && !AllWhitespace(d.s)
            && r == StripAngles(Trim(d.s))
            && |r| <= MaxDescriptionLength
            && (forall i :: 0 <= i < |r| ==> r[i] != '<' && r[i] != '>')
  {
    var d := Get(body.value, "description");
    TrimEmptyIff(d.s);
    SanitizeSpec(Trim(d.s), MaxDescriptionLength);
  }
}
