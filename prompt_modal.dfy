/** The behaviour the two AI dialogs share: a text box, one request to a language model at a time,
    and the answer or an error shown below; closing the dialog wipes it. */
module PromptModal {
  import opened Results
  import opened Text

  /** A dialog's four state fields: the text typed, the answer shown, whether a request is
      pending, and the error shown, if any. */
  datatype ModalState = ModalState(input: string, output: string, isLoading: bool, error: Option<string>)

  /** The state of a dialog that was never used or has been closed. */
  const Cleared := ModalState("", "", false, None)

  /** The submit handler up to the request: a blank text changes nothing; otherwise the request
      is pending, and the previous error and answer are gone. */
  function Begin(s: ModalState): (r: ModalState)
    ensures IsBlank(s.input) ==> r == s
    ensures !IsBlank(s.input) ==> r == ModalState(s.input, "", true, None)
  {
    if IsBlank(s.input) then s else s.(isLoading := true, error := None, output := "")
  }

  /** The submit handler after the request: the model's answer is shown, or, when the request
      failed, the dialog's fixed error message; either way nothing is pending any more. */
  function Complete(s: ModalState, answer: Option<string>, failure: string): (r: ModalState)
    ensures !r.isLoading && r.input == s.input
    ensures answer.Some? ==> r.output == answer.value && r.error == s.error
    ensures answer.None? ==> r.output == s.output && r.error == Some(failure)
  {
    match answer
    case Some(text) => s.(output := text, isLoading := false)
    case None => s.(error := Some(failure), isLoading := false)
  }

  /** The whole submit handler, with `answer` the outcome of the awaited request. */
  function Submit(s: ModalState, answer: Option<string>, failure: string): (r: ModalState)
    ensures IsBlank(s.input) ==> r == s
  {
    if IsBlank(s.input) then s else Complete(Begin(s), answer, failure)
  }

  /** The open-state handler: closing wipes all four fields, opening keeps them. */
  function OpenChange(s: ModalState, open: bool): (r: ModalState)
    ensures !open ==> r == Cleared
    ensures open ==> r == s
  {
    if open then s else Cleared
  }

  /** The submit button is disabled while a request is pending or the text is blank. */
  predicate SubmitDisabled(s: ModalState) {
    s.isLoading || IsBlank(s.input)
  }

  /** A submit of a non-blank text ends with nothing pending and exactly one of the two results:
      the answer with no error, or the fixed error with no answer. The text stays as typed. */
  lemma SubmitOutcome(s: ModalState, answer: Option<string>, failure: string)
    requires !IsBlank(s.input)
    ensures !Submit(s, answer, failure).isLoading
    ensures Submit(s, answer, failure).input == s.input
    ensures answer.Some? ==> Submit(s, answer, failure).output == answer.value
    ensures answer.Some? ==> Submit(s, answer, failure).error == None
    ensures answer.None? ==> Submit(s, answer, failure).output == ""
    ensures answer.None? ==> Submit(s, answer, failure).error == Some(failure)
  {
  }

  /** An enabled submit button always starts a request, and a started request disables it until
      the answer comes. */
  lemma EnabledSubmitStarts(s: ModalState)
    requires !SubmitDisabled(s)
    ensures Begin(s).isLoading && Begin(s) != s
    ensures SubmitDisabled(Begin(s))
  {
  }

  /** Whatever happened before, closing leaves the dialog as if it had never been used, and
      closing twice is closing once. */
  lemma CloseForgetsEverything(s: ModalState, t: ModalState)
    ensures OpenChange(s, false) == OpenChange(t, false) == Cleared
    ensures OpenChange(OpenChange(s, false), false) == OpenChange(s, false)
    ensures SubmitDisabled(OpenChange(s, false))
  {
    assert IsBlank("");
  }
}
