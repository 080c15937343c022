/** The search bar: a text field whose submitted term goes to the page trimmed, a clear button,
    and a microphone button that fills the field from speech. */
module SearchBar {
  import opened Results
  import opened Text

  /** The term `handleSearch` passes on: the trimmed term, and nothing when the term is blank. */
  function SearchRequest(term: string): (r: Option<string>)
    ensures r.Some? <==> !IsBlank(term)
    ensures r.Some? ==> r.value == Trim(term)
    ensures r.Some? ==> r.value != [] && !IsSpace(r.value[0]) && !IsSpace(r.value[|r.value| - 1])
  {
    var trimmed := Trim(term);
    if trimmed != [] then Some(trimmed) else None
  }

  /** Searching never passes on an empty term, so clearing is the only way the page receives
      one. */
  lemma SearchNeverForwardsEmpty(term: string)
    ensures SearchRequest(term) != Some("")
  {
  }

  /** The messages for the recognition error codes the bar knows. */
  const ErrorMessages: map<string, string> := map[
    "no-speech" := "No speech detected. Please try again.",
    "audio-capture" := "Couldn't access your microphone. Please check permissions.",
    "not-allowed" := "Microphone permission denied. Please enable it in your browser settings.",
    "network" := "Network error occurred. Please check your connection.",
    "aborted" := "Speech recognition was aborted.",
    "service-not-allowed" := "Speech recognition service not allowed."]

  /** The text of the generic message. */
  const GenericErrorPrefix := "Speech recognition error: "

  /** The error toast's text: the table's message when it has a non-empty one for the code,
      otherwise the generic message naming the code. */
  function ErrorMessage(code: string): (m: string)
    ensures m != []
    ensures code in ErrorMessages && ErrorMessages[code] != [] ==> m == ErrorMessages[code]
    ensures !(code in ErrorMessages && ErrorMessages[code] != []) ==> m == GenericErrorPrefix + code
  {
    if code in ErrorMessages && ErrorMessages[code] != [] then ErrorMessages[code]
    else GenericErrorPrefix + code
  }

  /** Every known code gets its own message, and any other code the generic one ending with it. */
  lemma ErrorMessageOfCode(code: string)
    ensures code in ErrorMessages ==> ErrorMessage(code) == ErrorMessages[code]
    ensures code !in ErrorMessages ==>
      && ErrorMessage(code)[..|GenericErrorPrefix|] == GenericErrorPrefix
      && ErrorMessage(code)[|GenericErrorPrefix|..] == code
  {
    if code in ErrorMessages {
      assert ErrorMessages[code] != [] by {
        assert forall k | k in ErrorMessages :: |ErrorMessages[k]| > 0;
      }
    }
  }

  /** What the bar asks of the speech recognizer, or the toast it shows instead. */
  datatype MicEffect = Start | Stop | Unavailable

  /** A microphone click: without a recognizer, the unavailability toast and no change; otherwise
      listening stops if it was on and starts if it was off. */
  function MicClick(isListening: bool, hasRecognizer: bool): (r: (bool, MicEffect))
    ensures !hasRecognizer ==> r == (isListening, Unavailable)
    ensures hasRecognizer ==> r.0 == !isListening
    ensures hasRecognizer ==> r.1 == if isListening then Stop else Start
  {
    if !hasRecognizer then (isListening, Unavailable)
    else if isListening then (false, Stop)
    else (true, Start)
  }

  /** With a recognizer, two clicks bring listening back to where it was, one start and one
      stop between them. */
  lemma MicClickTwice(isListening: bool)
    ensures MicClick(MicClick(isListening, true).0, true).0 == isListening
    ensures {MicClick(isListening, true).1, MicClick(MicClick(isListening, true).0, true).1} == {Start, Stop}
  {
  }

  /** The bar's state: the text in the field, whether speech is being listened for, and whether
      the browser offered a recognizer when the bar was set up. */
  class Bar {
    var searchTerm: string
    var isListening: bool
    var hasRecognizer: bool

    /** The field starts with the initial term, or empty when none is given; nothing is heard
        yet; the recognizer is there when the browser supports one. */
    constructor(initialTerm: Option<string>, recognitionSupported: bool)
      ensures searchTerm == (if initialTerm.Some? then initialTerm.value else "")
      ensures !isListening
      ensures hasRecognizer == recognitionSupported
    {
      searchTerm := if initialTerm.Some? then initialTerm.value else "";
      isListening := false;
      hasRecognizer := recognitionSupported;
    }

    /** A new `initialTerm` overwrites the field. */
    method SyncInitialTerm(initialTerm: string)
      modifies this`searchTerm
      ensures searchTerm == initialTerm
    {
      searchTerm := initialTerm;
    }

    /** Typing replaces the field's text and sends nothing. */
    method HandleInputChange(value: string)
      modifies this`searchTerm
      ensures searchTerm == value
    {
      searchTerm := value;
    }

    /** A submitted form searches for the field's text; the field itself is left as typed. */
    method HandleFormSubmit() returns (forwarded: Option<string>)
      ensures forwarded == SearchRequest(searchTerm)
    {
      forwarded := SearchRequest(searchTerm);
    }

    /** The clear button empties the field and passes the empty term on. */
    method ClearSearch() returns (forwarded: string)
      modifies this`searchTerm
      ensures searchTerm == "" && forwarded == ""
    {
      searchTerm := "";
      forwarded := "";
    }

    /** The microphone button. */
    method HandleMicClick() returns (effect: MicEffect)
      modifies this`isListening
      ensures (isListening, effect) == MicClick(old(isListening), hasRecognizer)
    {
      if !hasRecognizer {
        return Unavailable;
      }
      if isListening {
        effect := Stop;
        isListening := false;
      } else {
        effect := Start;
        isListening := true;
      }
    }

    /** A recognized phrase fills the field, is searched for, and ends listening. */
    method OnResult(transcript: string) returns (forwarded: Option<string>)
      modifies this`searchTerm, this`isListening
      ensures searchTerm == transcript && !isListening
      ensures forwarded == SearchRequest(transcript)
    {
      searchTerm := transcript;
      forwarded := SearchRequest(transcript);
      isListening := false;
    }

    /** A recognition error ends listening and yields the toast's message. */
    method OnError(code: string) returns (message: string)
      modifies this`isListening
      ensures !isListening
      ensures message == ErrorMessage(code)
    {
      isListening := false;
      message := ErrorMessage(code);
    }

    /** The end of recognition ends listening. */
    method OnEnd()
      modifies this`isListening
      ensures !isListening
    {
      isListening := false;
    }
  }
}
