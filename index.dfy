/** The landing page of `frontend/pages/Index.tsx`: a prompt box with a voice button whose
    send button opens the dashboard, handing it the typed prompt. */
module Index {
  import opened Text
  import opened Gemini
  import opened Speech

  /** A navigation to `path` carrying `initialPrompt` in its state. */
  datatype Navigation = Navigation(path: string, initialPrompt: string)

  const DashboardPath: string := "/dashboard"

  class Landing {
    const prompt: PromptBox

    constructor(hasRecognizer: bool)
      ensures fresh(prompt) && prompt.Valid()
      ensures prompt.inputValue == "" && !prompt.isListening && prompt.hasRecognizer == hasRecognizer
      ensures prompt.starts == 0
    {
      prompt := new PromptBox(hasRecognizer);
    }

    /** `handleSend`: navigates to the dashboard exactly when the input is not blank, with
        the input as typed (untrimmed) as the initial prompt. */
    method HandleSend() returns (nav: Option<Navigation>)
      ensures nav.Some? <==> !IsBlank(prompt.inputValue)
      ensures nav.Some? ==> nav.value == Navigation(DashboardPath, prompt.inputValue)
    {
      if !IsBlank(prompt.inputValue) {
        nav := Some(Navigation(DashboardPath, prompt.inputValue));
      } else {
        nav := None;
      }
    }
  }
}
