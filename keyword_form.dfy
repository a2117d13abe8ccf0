/** `KeywordForm`: one topic of at least two characters, submitted only when
    it passes and no generation is running. */
module KeywordForm {
  import opened Domain

  const KeywordMessage: string := "Please enter a topic with at least 2 characters."

  function Errors(keyword: string): (errs: seq<FieldError>)
    ensures errs == [] <==> |keyword| >= 2
    ensures errs != [] ==> errs == [FieldError("keyword", KeywordMessage)]
  {
    CheckMin("keyword", keyword, 2, KeywordMessage)
  }

  /** The form's initial value. */
  const DefaultKeyword: string := ""

  lemma DefaultFails()
    ensures Errors(DefaultKeyword) == [FieldError("keyword", KeywordMessage)]
  {
  }

  /** The keyword handed to `onSubmit`: none while generating (the button
      is disabled) or while the keyword is too short. */
  function Submit(keyword: string, isGenerating: bool): (sent: Option<string>)
    ensures sent.Some? <==> !isGenerating && |keyword| >= 2
    ensures sent.Some? ==> sent.value == keyword
  {
    if !isGenerating && Errors(keyword) == [] then Some(keyword) else None
  }
}
