/** The prompt box with a voice button, as both `frontend/pages/Index.tsx` and
    `frontend/pages/Dashboard.tsx` write it: a text input and an `isListening` flag driven by
    a speech recognizer that exists only when the browser provides one. The recognizer is not
    modelled beyond its presence and the number of times it was started; its three callbacks
    are methods here. */
module Speech {

  class PromptBox {
    /** The text of the input. */
    var inputValue: string
    /** Whether a capture is in progress. */
    var isListening: bool
    /** Whether the browser supplied a recognizer when the page was mounted. */
    const hasRecognizer: bool
    /** How often the recognizer's `start()` has been called. */
    ghost var starts: nat

    /** The flag is never raised on a page without a recognizer. */
    ghost predicate Valid()
      reads this
    {
      isListening ==> hasRecognizer
    }

    constructor(hasRecognizer: bool)
      ensures Valid()
      ensures inputValue == "" && !isListening && this.hasRecognizer == hasRecognizer && starts == 0
    {
      this.hasRecognizer := hasRecognizer;
      inputValue := "";
      isListening := false;
      starts := 0;
    }

    /** Typing, or picking a suggestion. */
    method SetInput(v: string)
      requires Valid()
      modifies this
      ensures Valid()
      ensures inputValue == v && isListening == old(isListening) && starts == old(starts)
    {
      inputValue := v;
    }

    /** The microphone button: starts a capture only when a recognizer exists and none is in
        progress; otherwise nothing happens. */
    method HandleListen()
      requires Valid()
      modifies this
      ensures Valid()
      ensures inputValue == old(inputValue)
      ensures hasRecognizer && !old(isListening) ==> isListening && starts == old(starts) + 1
      ensures !(hasRecognizer && !old(isListening)) ==> isListening == old(isListening) && starts == old(starts)
    {
      if hasRecognizer && !isListening {
        isListening := true;
        starts := starts + 1;
      }
    }

    /** `onresult`: the transcript replaces the input and the capture is over. */
    method OnResult(transcript: string)
      requires Valid()
      modifies this
      ensures Valid()
      ensures inputValue == transcript && !isListening && starts == old(starts)
    {
      inputValue := transcript;
      isListening := false;
    }

    /** `onerror`: the capture is over; the input is kept. */
    method OnError()
      requires Valid()
      modifies this
      ensures Valid()
      ensures inputValue == old(inputValue) && !isListening && starts == old(starts)
    {
      isListening := false;
    }

    /** `onend`: the capture is over; the input is kept. */
    method OnEnd()
      requires Valid()
      modifies this
      ensures Valid()
      ensures inputValue == old(inputValue) && !isListening && starts == old(starts)
    {
      isListening := false;
    }
  }
}
