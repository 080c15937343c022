/** The slang generator dialog: a plain-English sentence in, a Gen Z rewording out. */
module SlangGeneratorModal {
  import opened Results
  import opened Text
  import opened PromptModal

  /** The message shown when the generator fails. */
  const GenerationError := "Yikes, couldn't generate slang for that. Maybe try different wording?"

  /** The dialog component with its four state fields. */
  class Modal {
    var plainEnglish: string
    var genZTranslation: string
    var isLoading: bool
    var error: Option<string>

    /** The state fields as one value. */
    function State(): ModalState
      reads this
    {
      ModalState(plainEnglish, genZTranslation, isLoading, error)
    }

    /** A dialog with empty fields. */
    constructor()
      ensures State() == Cleared
    {
      plainEnglish := "";
      genZTranslation := "";
      isLoading := false;
      error := None;
    }

    /** Typing replaces the sentence. */
    method HandleInputChange(value: string)
      modifies this`plainEnglish
      ensures plainEnglish == value
    {
      plainEnglish := value;
    }

    /** `handleGenerate` up to the `await`: a blank sentence sends nothing and changes nothing;
        otherwise the request is marked pending, the error and the previous translation are
        cleared, and the sentence goes to the generator as typed, untrimmed. */
    method BeginGenerate() returns (request: Option<string>)
      modifies this
      ensures State() == Begin(old(State()))
      ensures request.Some? <==> !IsBlank(old(plainEnglish))
      ensures request.Some? ==> request.value == old(plainEnglish)
    {
      if IsBlank(plainEnglish) {
        return None;
      }
      isLoading := true;
      error := None;
      genZTranslation := "";
      request := Some(plainEnglish);
    }

    /** `handleGenerate` after the `await`: the translation, or the fixed error message when the
        generator failed; then nothing is pending. */
    method CompleteGenerate(answer: Option<string>)
      modifies this
      ensures State() == Complete(old(State()), answer, GenerationError)
    {
      if answer.Some? {
        genZTranslation := answer.value;
      } else {
        error := Some(GenerationError);
      }
      isLoading := false;
    }

    /** The whole `handleGenerate`, with the generator's outcome given as `answer`. */
    method HandleGenerate(answer: Option<string>) returns (request: Option<string>)
      modifies this
      ensures State() == Submit(old(State()), answer, GenerationError)
      ensures request.Some? <==> !IsBlank(old(plainEnglish))
      ensures request.Some? ==> request.value == old(plainEnglish)
    {
      request := BeginGenerate();
      if request.Some? {
        CompleteGenerate(answer);
      }
    }

    /** `handleModalChange`: closing wipes the four fields; the new open state is always passed
        on to the parent. */
    method HandleModalChange(open: bool) returns (forwarded: bool)
      modifies this
      ensures State() == OpenChange(old(State()), open)
      ensures forwarded == open
    {
      if !open {
        plainEnglish := "";
        genZTranslation := "";
        error := None;
        isLoading := false;
      }
      forwarded := open;
    }

    /** The generate button is disabled while a request is pending or the sentence is blank. */
    predicate GenerateDisabled()
      reads this
    {
      isLoading || IsBlank(plainEnglish)
    }

    /** The text box is disabled while a request is pending. */
    predicate TextareaDisabled()
      reads this
    {
      isLoading
    }
  }

  /** The generate button is disabled exactly in the states the shared dialog behaviour calls
      disabled, and the text box is disabled whenever a request is pending. */
  lemma ControlsDisabled(m: Modal)
    ensures m.GenerateDisabled() <==> SubmitDisabled(m.State())
    ensures m.TextareaDisabled() <==> m.State().isLoading
  {
  }
}
