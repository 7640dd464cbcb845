/** The AI insights panel (components/AIInsights.tsx): what it sends to the
    insights route, the fixed tips it shows when there is nothing to send or
    the request fails, and how each insight is styled. */
module AIInsights {
  import opened Optional
  import opened SpendingContext
  import Gemini

  /** `FinancialInsight`. Its `kind` is "warning", "tip", "achievement" or
      "suggestion" as the model returns it; any other text is possible and
      is styled as a tip. */
  type Insight = Gemini.Insight

  const StartTracking: Insight :=
    Gemini.Insight("tip", "Start Tracking", "Add your first expense to unlock AI-powered financial insights!", "🚀")

  const TrackYourSpending: Insight :=
    Gemini.Insight("tip", "Track Your Spending", "Keep logging your expenses to get personalized AI insights.", "💡")

  const LoadError: string := "Unable to load AI insights"

  /** The route's answer: the insights of a successful JSON reply, or a
      failure (a non-ok status, a network error or an unreadable body). */
  datatype Reply = Delivered(insights: seq<Insight>) | Failed

  /** The panel's state. */
  class Panel {
    var insights: seq<Insight>
    var loading: bool
    var error: Option<string>

    constructor()
      ensures insights == [] && loading && error == None
    {
      insights, loading, error := [], true, None;
    }

    /** `fetchInsights`. The budgets are queried only after the expenses
        succeeded. `respond` is the insights route, called with the request
        body; the body sent, if any, is returned. */
    method FetchInsights(signedIn: bool, expenses: Fetch<ExpenseData>, budgets: Fetch<BudgetRow>,
                         respond: Context -> Reply)
      returns (sent: Option<Context>)
      modifies this
      ensures !signedIn ==> sent == None && insights == old(insights) && loading == old(loading) && error == old(error)
      ensures signedIn ==> !loading
      ensures signedIn && (expenses.QueryError? || budgets.QueryError?) ==>
                sent == None && error == Some(LoadError) && insights == [TrackYourSpending]
      ensures signedIn && expenses == Rows([]) && budgets.Rows? ==>
                sent == None && error == None && insights == [StartTracking]
      ensures signedIn && expenses.Rows? && expenses.rows != [] && budgets.Rows? ==>
                && sent == Some(ContextOf(expenses.rows, budgets.rows))
                && (respond(sent.value).Delivered? ==> error == None && insights == respond(sent.value).insights)
                && (respond(sent.value).Failed? ==> error == Some(LoadError) && insights == [TrackYourSpending])
    {
      sent := None;
      if !signedIn {
        return;
      }
      loading, error := true, None;
      if expenses.QueryError? || budgets.QueryError? {
        error, insights, loading := Some(LoadError), [TrackYourSpending], false;
        return;
      }
      var ctx := BuildContext(expenses.rows, budgets.rows);
      if |ctx.expenses| == 0 {
        insights, loading := [StartTracking], false;
        return;
      }
      sent := Some(ctx);
      match respond(ctx) {
        case Delivered(received) =>
          insights := received;
        case Failed =>
          error, insights := Some(LoadError), [TrackYourSpending];
      }
      loading := false;
    }
  }

  datatype IconName = Rocket | Lightbulb | AlertTriangle | Trophy | Target

  datatype Style = Style(bg: string, border: string, bgLight: string, icon: IconName)

  const DefaultStyle: Style := Style("from-indigo-500 to-purple-600", "border-indigo-200", "bg-indigo-50", Lightbulb)

  /** `getTypeStyles`: warning, achievement and suggestion have their own
      style; every other type gets the default (tip) style. */
  function TypeStyles(kind: string): (s: Style)
  {
    if kind == "warning" then Style("from-amber-500 to-orange-600", "border-amber-200", "bg-amber-50", AlertTriangle)
    else if kind == "achievement" then Style("from-emerald-500 to-green-600", "border-emerald-200", "bg-emerald-50", Trophy)
    else if kind == "suggestion" then Style("from-blue-500 to-cyan-600", "border-blue-200", "bg-blue-50", Target)
    else DefaultStyle
  }

  function StyleClass(kind: string): nat
  {
    if kind == "warning" then 1 else if kind == "achievement" then 2 else if kind == "suggestion" then 3 else 0
  }

  /** Two types share a style exactly when they fall in the same one of the
      four cases, and every type outside the three named ones is drawn as a
      tip. */
  lemma TypeStylesSpec(a: string, b: string)
    ensures TypeStyles(a) == TypeStyles(b) <==> StyleClass(a) == StyleClass(b)
    ensures StyleClass(a) == 0 ==> TypeStyles(a) == DefaultStyle && TypeStyles(a) == TypeStyles("tip")
  {
  }

  /** `iconMap`. */
  function IconFor(emoji: string): (r: Option<IconName>)
  {
    if emoji == "🚀" then Some(Rocket)
    else if emoji == "💡" then Some(Lightbulb)
    else if emoji == "⚠️" then Some(AlertTriangle)
    else if emoji == "🏆" then Some(Trophy)
    else if emoji == "🎯" then Some(Target)
    else None
  }

  /** `iconMap[insight.icon] || styles.icon`. */
  function DisplayIcon(i: Insight): (r: IconName)
    ensures IconFor(i.icon).Some? ==> r == IconFor(i.icon).value
    ensures IconFor(i.icon).None? ==> r == TypeStyles(i.kind).icon
  {
    match IconFor(i.icon)
    case Some(icon) => icon
    case None => TypeStyles(i.kind).icon
  }

  /** Every icon of the map is reachable, and the two fallback tips show the
      rocket and the light bulb. */
  lemma IconMapSpec()
    ensures forall n: IconName :: exists e :: IconFor(e) == Some(n)
    ensures DisplayIcon(StartTracking) == Rocket && DisplayIcon(TrackYourSpending) == Lightbulb
  {
    forall n: IconName
      ensures exists e :: IconFor(e) == Some(n)
    {
      match n
      case Rocket => assert IconFor("🚀") == Some(Rocket);
      case Lightbulb => assert IconFor("💡") == Some(Lightbulb);
      case AlertTriangle => assert IconFor("⚠️") == Some(AlertTriangle);
      case Trophy => assert IconFor("🏆") == Some(Trophy);
      case Target => assert IconFor("🎯") == Some(Target);
    }
  }
}
