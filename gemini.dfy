/** The normalisation of the language model's answers (lib/gemini.ts). The
    call itself is foreign: its outcome is an input, either a thrown error
    or a response whose `text` may be missing. `JSON.parse` is a parameter
    too. */
module Gemini {
  import opened Optional
  import opened JsString

  /** `FinancialInsight`. */
  datatype Insight = Insight(kind: string, title: string, message: string, icon: string)

  /** What `generateContent` gave: it threw, or it answered with a `text`
      that may be `undefined`. */
  datatype ModelReply = Threw | Answered(text: Option<string>)

  /** The closed list of expense categories. */
  const Categories: seq<string> := ["Food", "Transport", "Entertainment", "Shopping", "Bills", "Health", "Other"]

  const InsightsFallback: Insight :=
    Insight("tip", "Track Your Spending",
            "Keep logging your expenses to get personalized AI insights about your spending habits.", "💡")

  const AnalysisFallback: string := "Keep tracking your expenses to unlock personalized insights!"

  const SavingsTipsFallback: seq<string> := [
    "Set a weekly spending limit for your top categories",
    "Look for discounts and deals before making purchases",
    "Review your subscriptions and cancel unused ones"
  ]

  const ChatEmptyFallback: string :=
    "I'm here to help with your finances! Try asking about your spending patterns or budget tips."

  const ChatErrorFallback: string := "I'm having trouble processing that right now. Please try again!"

  /** `text || fallback`: the text unless it is missing or empty. */
  function TextOr(text: Option<string>, fallback: string): (r: string)
    ensures text.Some? && text.value != "" ==> r == text.value
    ensures !(text.Some? && text.value != "") ==> r == fallback
  {
    if text.Some? && text.value != "" then text.value else fallback
  }

  /** `categorizeExpense`: the trimmed answer when it is one of the listed
      categories, "Other" in every other case. */
  function CategorizeExpense(reply: ModelReply): (c: string)
    ensures c in Categories
  {
    match reply
    case Threw => "Other"
    case Answered(text) =>
      var category := if text.Some? then TextOr(Some(Trim(text.value)), "Other") else "Other";
      if category in Categories then category else "Other"
  }

  /** The answer is kept exactly when its trim is a listed category, and
      then it is that trim; a failed call, a missing, blank or unlisted
      answer all give "Other". */
  lemma CategorizeExpenseSpec(reply: ModelReply)
    ensures reply.Answered? && reply.text.Some? && Trim(reply.text.value) in Categories ==>
              CategorizeExpense(reply) == Trim(reply.text.value)
    ensures !(reply.Answered? && reply.text.Some? && Trim(reply.text.value) in Categories) ==>
              CategorizeExpense(reply) == "Other"
  {
    assert "" !in Categories;
  }

  /** `s.replace(/pat\n?/g, "")` for a literal `pat`: scanning from the left,
      each occurrence is removed together with one newline right after it. */
  function RemoveAll(s: string, pat: string): (r: string)
    requires pat != []
    ensures |r| <= |s|
    decreases |s|
  {
    if s == [] then []
    else if pat <= s then
      var rest := s[|pat|..];
      if rest != [] && rest[0] == '\n' then RemoveAll(rest[1..], pat) else RemoveAll(rest, pat)
    else [s[0]] + RemoveAll(s[1..], pat)
  }

  /** The clean-up of a JSON answer: drop the "```json" and "```" fences,
      each with an optional newline, then trim. The result neither starts
      nor ends with whitespace. */
  function StripFences(text: string): (r: string)
    ensures r == [] || (!IsWhitespace(r[0]) && !IsWhitespace(r[|r| - 1]))
  {
    var unfenced := RemoveAll(RemoveAll(text, "```json"), "```");
    TrimHasNoEdgeWhitespace(unfenced);
    Trim(unfenced)
  }

  /** Text before which no pattern starting with a backtick can begin passes
      through unchanged. */
  lemma {:induction false} RemoveAllKeeps(a: string, b: string, pat: string)
    requires pat != [] && pat[0] == '`'
    requires '`' !in a
    ensures RemoveAll(a + b, pat) == a + RemoveAll(b, pat)
  {
    if a != [] {
      var s := a + b;
      assert s[0] == a[0] != '`';
      assert RemoveAll(s, pat) == [s[0]] + RemoveAll(s[1..], pat);
      assert s[1..] == a[1..] + b;
      RemoveAllKeeps(a[1..], b, pat);
      assert a + RemoveAll(b, pat) == [a[0]] + (a[1..] + RemoveAll(b, pat));
    } else {
      assert a + b == b;
    }
  }

  /** An answer without backticks is only trimmed. */
  lemma StripFencesPlain(text: string)
    requires '`' !in text
    ensures StripFences(text) == Trim(text)
  {
    RemoveAllKeeps(text, "", "```json");
    assert text + "" == text;
    RemoveAllKeeps(text, "", "```");
  }

  /** A fenced answer "```json\n" + body + "```" with a body free of
      backticks gives back the trimmed body. */
  lemma StripFencesFenced(body: string)
    requires '`' !in body
    ensures StripFences("```json\n" + body + "```") == Trim(body)
  {
    var json, fence := "```json", "```";
    var s := "```json\n" + body + "```";
    var tail := body + fence;
    assert s == json + ("\n" + tail);
    assert json <= s;
    assert s[|json|..] == "\n" + tail;
    assert RemoveAll(s, json) == RemoveAll(tail, json);
    RemoveAllKeeps(body, fence, json);
    assert RemoveAll(fence, json) == fence by {
      assert !(json <= fence);
      assert !(json <= fence[1..]);
      assert !(json <= fence[2..]);
    }
    RemoveAllKeeps(body, fence, fence);
    assert RemoveAll(fence, fence) == "" by {
      assert fence <= fence && fence[|fence|..] == [];
    }
    assert body + "" == body;
  }

  /** A JSON answer: cleaned and parsed, or the fallback when the call threw
      or the cleaned text does not parse (`parse` gives `None` where
      `JSON.parse` throws). */
  function ParsedOr<T>(reply: ModelReply, parse: string -> Option<T>, fallback: T): (r: T)
    ensures reply.Threw? ==> r == fallback
    ensures reply.Answered? && parse(StripFences(TextOr(reply.text, ""))).Some? ==>
              r == parse(StripFences(TextOr(reply.text, ""))).value
    ensures reply.Answered? && parse(StripFences(TextOr(reply.text, ""))).None? ==> r == fallback
  {
    match reply
    case Threw => fallback
    case Answered(text) =>
      match parse(StripFences(TextOr(text, "")))
      case Some(v) => v
      case None => fallback
  }

  /** `generateFinancialInsights`: on any failure, exactly one "tip" insight
      with the light-bulb icon. */
  function GenerateInsights(reply: ModelReply, parse: string -> Option<seq<Insight>>): (r: seq<Insight>)
    ensures reply.Threw? ==> r == [InsightsFallback] && r[0].kind == "tip" && r[0].icon == "💡"
  {
    ParsedOr(reply, parse, [InsightsFallback])
  }

  /** `generateSavingsTips`: on any failure, exactly the three fixed tips. */
  function GenerateSavingsTips(reply: ModelReply, parse: string -> Option<seq<string>>): (r: seq<string>)
    ensures reply.Threw? ==> r == SavingsTipsFallback && |r| == 3
  {
    ParsedOr(reply, parse, SavingsTipsFallback)
  }

  /** A failed parse gives the fallback whatever the text was, and the parser
      only ever sees text without edge whitespace. */
  lemma ParseFailureFallsBack(reply: ModelReply, insightsParse: string -> Option<seq<Insight>>,
                              tipsParse: string -> Option<seq<string>>)
    requires reply.Answered?
    ensures insightsParse(StripFences(TextOr(reply.text, ""))).None? ==> GenerateInsights(reply, insightsParse) == [InsightsFallback]
    ensures tipsParse(StripFences(TextOr(reply.text, ""))).None? ==> GenerateSavingsTips(reply, tipsParse) == SavingsTipsFallback
  {
  }

  /** `generateSpendingAnalysis`: the answer's text, or the fixed
      encouragement when it is missing, empty or the call threw. */
  function GenerateSpendingAnalysis(reply: ModelReply): (r: string)
    ensures r != ""
    ensures reply.Threw? ==> r == AnalysisFallback
    ensures reply.Answered? ==> (r == AnalysisFallback || (reply.text == Some(r)))
    ensures reply.Answered? && reply.text.Some? && reply.text.value != "" ==> r == reply.text.value
  {
    match reply
    case Threw => AnalysisFallback
    case Answered(text) => TextOr(text, AnalysisFallback)
  }

  /** `chatWithAI`: the answer's text; an empty answer and a thrown error
      have different fixed replies, and the reply is never empty. */
  function ChatWithAI(reply: ModelReply): (r: string)
    ensures r != ""
    ensures reply.Threw? ==> r == ChatErrorFallback
    ensures reply.Answered? && (reply.text.None? || reply.text.value == "") ==> r == ChatEmptyFallback
    ensures reply.Answered? && reply.text.Some? && reply.text.value != "" ==> r == reply.text.value
  {
    match reply
    case Threw => ChatErrorFallback
    case Answered(text) => TextOr(text, ChatEmptyFallback)
  }
}
