/** End-to-end sequences of the landing page, the dashboard and the chat together, whose
    outcomes are verified. The chat's transcript here is the controller's state; a reply
    that leaves the chat tab unmounts the chat before that transcript is displayed. */
module Scenarios {
  import opened Text
  import opened Gemini
  import opened Dashboard
  import opened ChatInterface
  import opened Index

  /** "Take me to the map": the reply navigates to the map and its text is appended to the
      controller's transcript. */
  method NavigateScenario(json: string) {
    var dash := new Dashboard(true, 0);
    var chat := new ChatController(None, Some(Session(1)));
    var d := Plain("navigate", "On the map.").(tab := Some("map"));
    var parse := (t: string) => Some(Value(d));
    var text := "Map";
    VisibleStartIsNotBlank(text);
    chat.HandleSend(text, "u1", None, Some(json), parse, "b1", "c1", dash);
    assert dash.activeTab == "map" && dash.charts == [];
    assert chat.messages[1..] == [Message("u1", text, User), Message("b1", "On the map.", Bot)];
    assert !chat.isLoading;
  }

  /** A bar chart for Kerala: one chart with the reply's type, location and title, and the
      analytics tab, when the reply came wrapped in a code fence. */
  method CreateChartScenario(inner: string) {
    var dash := new Dashboard(false, 0);
    var chat := new ChatController(Some("en"), Some(Session(1)));
    var d := Plain("create_chart", "Done.")
               .(chartType := Some("bar"), location := Some("Kerala"), title := Some("Rainfall"));
    var parse := (t: string) => if t == inner then Some(Value(d)) else None;
    GetAiResponseOfFenced(inner, parse);
    assert IsCompleteChart(d) && ChartOf(d, "17") == Chart("17", "bar", "Kerala", "Rainfall");
    var text := "Chart";
    VisibleStartIsNotBlank(text);
    chat.HandleSend(text, "u1", None, Some(OpenFence + inner + CloseFence), parse, "b1", "17", dash);
    assert dash.charts == [Chart("17", "bar", "Kerala", "Rainfall")];
    assert dash.activeTab == "analytics";
  }

  /** A reply that is not JSON: nothing on the dashboard changes, the client's apology is
      shown, and the chat is ready for the next turn. */
  method MalformedReplyScenario(prose: string) {
    var dash := new Dashboard(true, 0);
    var chat := new ChatController(None, Some(Session(1)));
    var parse := (t: string) => None;
    var text := "Hello";
    VisibleStartIsNotBlank(text);
    chat.HandleSend(text, "u1", None, Some(prose), parse, "b1", "c1", dash);
    assert dash.State() == DashState("chat", [], InteractiveMap.InitialMapState());
    assert chat.messages[|chat.messages| - 1] == Message("b1", FallbackText, Bot);
    assert !chat.isLoading;
  }

  /** A marker without popup text: no marker, but the map tab is shown anyway. */
  method MarkerWithoutPopupScenario(reply: string) {
    var dash := new Dashboard(true, 0);
    var chat := new ChatController(None, Some(Session(1)));
    var d := Plain("add_marker", "Added.").(lat := Some(13.0827), lng := Some(80.2707));
    var parse := (t: string) => Some(Value(d));
    var text := "Mark";
    VisibleStartIsNotBlank(text);
    chat.HandleSend(text, "u1", None, Some(reply), parse, "b1", "c1", dash);
    assert dash.mapState.markers == [] && dash.activeTab == "map";
    assert chat.messages[|chat.messages| - 1] == Message("b1", "Added.", Bot);
  }

  /** From the landing page to the dashboard: the typed prompt travels in the navigation,
      fills the dashboard's prompt box, and shows the remounted chat. */
  method LandingToDashboardScenario() {
    var typed := "Wells";
    VisibleStartIsNotBlank(typed);
    var landing := new Landing(true);
    landing.prompt.SetInput(typed);
    var nav := landing.HandleSend();
    assert nav == Some(Navigation(DashboardPath, typed));
    var dash := new Dashboard(true, 0);
    dash.ApplyInitialPrompt(Some(nav.value.initialPrompt), 42);
    assert dash.activeTab == "chat" && dash.chatKey == 42 && dash.prompt.inputValue == typed;
  }

  /** The remounted chat sends the initial prompt exactly once; a second send while the
      first reply is awaited is dropped, and the failed reply still ends loading. */
  method InitialPromptScenario() {
    var dash := new Dashboard(true, 0);
    var typed := "Wells";
    VisibleStartIsNotBlank(typed);
    var chat := new ChatController(None, Some(Session(7)));
    var pending := chat.OnInitialPrompt(Some(typed), "u1", None);
    assert pending && chat.isLoading && chat.processedPrompt == Some(typed);
    var again := chat.OnInitialPrompt(Some(typed), "u2", None);
    assert !again;
    var other := "More";
    VisibleStartIsNotBlank(other);
    var dropped := chat.BeginSend(other, "u3", None);
    assert !dropped && |chat.messages| == 2;
    chat.CompleteSend(None, (t: string) => None, "b1", "c1", dash);
    assert !chat.isLoading && chat.messages[2] == Message("b1", FallbackText, Bot);
  }

  /** The chat is mounted afresh whenever the chat tab is shown again, and the dashboard
      hands every mount its prompt box's text: the landing prompt is sent once per mount,
      not once per navigation. */
  method RemountResendsScenario() {
    var dash := new Dashboard(true, 0);
    var typed := "Wells";
    VisibleStartIsNotBlank(typed);
    dash.ApplyInitialPrompt(Some(typed), 1);
    var chat := new ChatController(None, Some(Session(1)));
    var first := chat.OnInitialPrompt(Some(dash.prompt.inputValue), "u1", None);
    assert first;
    // the reply to that request moves the dashboard to the map
    var d := Plain("show_on_map", "Here.").(location := Some("Tamil Nadu"));
    dash.HandleAiAction(d, "c1");
    assert dash.activeTab == "map" && dash.prompt.inputValue == typed;
    dash.SelectTab("chat");
    var remounted := new ChatController(None, Some(Session(2)));
    var again := remounted.OnInitialPrompt(Some(dash.prompt.inputValue), "u2", None);
    assert again && remounted.messages[1] == Message("u2", typed, User);
  }
}
