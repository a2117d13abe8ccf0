/** `IdeaForm`: the four fields of a new idea, each with a minimum length,
    submitted only when all four pass and no analysis is running. */
module IdeaForm {
  import opened Domain

  const TitleMessage: string := "Title must be at least 2 characters."
  const ProblemMessage: string := "Problem description must be at least 10 characters."
  const SolutionMessage: string := "Solution description must be at least 10 characters."
  const MarketMessage: string := "Target market must be at least 2 characters."

  /** Every failing field's error, in the order of the fields. */
  function Errors(v: IdeaCore): (errs: seq<FieldError>)
    ensures FieldError("idea_title", TitleMessage) in errs <==> |v.title| < 2
    ensures FieldError("problem", ProblemMessage) in errs <==> |v.problem| < 10
    ensures FieldError("solution", SolutionMessage) in errs <==> |v.solution| < 10
    ensures FieldError("market", MarketMessage) in errs <==> |v.market| < 2
    ensures errs == [] <==> |v.title| >= 2 && |v.problem| >= 10 && |v.solution| >= 10 && |v.market| >= 2
    ensures |errs| <= 4
  {
    CheckMin("idea_title", v.title, 2, TitleMessage)
    + CheckMin("problem", v.problem, 10, ProblemMessage)
    + CheckMin("solution", v.solution, 10, SolutionMessage)
    + CheckMin("market", v.market, 2, MarketMessage)
  }

  /** The form's initial values. */
  const Defaults: IdeaCore := IdeaCore("", "", "", "")

  /** The untouched form cannot be submitted: all four fields fail. */
  lemma DefaultsFail()
    ensures |Errors(Defaults)| == 4
  {
  }

  /** The values handed to `onSubmit` when the user submits: none while an
      analysis is running (the button is disabled) or while a field fails. */
  function Submit(v: IdeaCore, isAnalyzing: bool): (sent: Option<IdeaCore>)
    ensures sent.Some? <==> !isAnalyzing && Errors(v) == []
    ensures sent.Some? ==> sent.value == v
  {
    if !isAnalyzing && Errors(v) == [] then Some(v) else None
  }
}
