/** The boomer translator dialog: Gen Z slang in, plain English out. */
module BoomerTranslatorModal {
  import opened Results
  import opened Text
  import opened PromptModal

  /** The message shown when the translator fails. */
  const TranslationError := "Oops! Couldn't translate that. Please try again."

  /** The dialog component with its four state fields. */
  class Modal {
    var genZSlang: string
    var plainEnglish: string
    var isLoading: bool
    var error: Option<string>

    /** The state fields as one value. */
    function State(): ModalState
      reads this
    {
      ModalState(genZSlang, plainEnglish, isLoading, error)
    }

    /** A dialog with empty fields. */
    constructor()
      ensures State() == Cleared
    {
      genZSlang := "";
      plainEnglish := "";
      isLoading := false;
      error := None;
    }

    /** Typing replaces the slang. */
    method HandleInputChange(value: string)
      modifies this`genZSlang
      ensures genZSlang == value
    {
      genZSlang := value;
    }

    /** `handleTranslate` up to the `await`: a blank text sends nothing and changes nothing;
        otherwise the request is marked pending, the error and the previous plain-English text are
        cleared, and the slang goes to the translator as typed, untrimmed. */
    method BeginTranslate() returns (request: Option<string>)
      modifies this
      ensures State() == Begin(old(State()))
      ensures request.Some? <==> !IsBlank(old(genZSlang))
      ensures request.Some? ==> request.value == old(genZSlang)
    {
      if IsBlank(genZSlang) {
        return None;
      }
      isLoading := true;
      error := None;
      plainEnglish := "";
      request := Some(genZSlang);
    }

    /** `handleTranslate` after the `await`: the plain-English text, or the fixed error message when the
        translator failed; then nothing is pending. */
    method CompleteTranslate(answer: Option<string>)
      modifies this
      ensures State() == Complete(old(State()), answer, TranslationError)
    {
      if answer.Some? {
        plainEnglish := answer.value;
      } else {
        error := Some(TranslationError);
      }
      isLoading := false;
    }

    /** The whole `handleTranslate`, with the translator's outcome given as `answer`. */
    method HandleTranslate(answer: Option<string>) returns (request: Option<string>)
      modifies this
      ensures State() == Submit(old(State()), answer, TranslationError)
      ensures request.Some? <==> !IsBlank(old(genZSlang))
      ensures request.Some? ==> request.value == old(genZSlang)
    {
      request := BeginTranslate();
      if request.Some? {
        CompleteTranslate(answer);
      }
    }

    /** `handleModalChange`: closing wipes the four fields; the new open state is always passed
        on to the parent. */
    method HandleModalChange(open: bool) returns (forwarded: bool)
      modifies this
      ensures State() == OpenChange(old(State()), open)
      ensures forwarded == open
    {
      if !open {
        genZSlang := "";
        plainEnglish := "";
        error := None;
        isLoading := false;
      }
      forwarded := open;
    }

    /** The translate button is disabled while a request is pending or the slang is blank. */
    predicate TranslateDisabled()
      reads this
    {
      isLoading || IsBlank(genZSlang)
    }

    /** The text box is disabled while a request is pending. */
    predicate TextareaDisabled()
      reads this
    {
      isLoading
    }
  }

  /** The translate button is disabled exactly in the states the shared dialog behaviour calls
      disabled, and the text box is disabled whenever a request is pending. */
  lemma ControlsDisabled(m: Modal)
    ensures m.TranslateDisabled() <==> SubmitDisabled(m.State())
    ensures m.TextareaDisabled() <==> m.State().isLoading
  {
  }
}
