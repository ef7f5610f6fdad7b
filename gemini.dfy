/** The completion client of `frontend/services/geminiService.ts`: the action vocabulary the
    session's response schema declares, the reply descriptor as the dashboard receives it,
    and `getAiResponse`, which cleans the raw reply of a code fence, parses it and falls back
    to a fixed `text_only` descriptor whenever sending or parsing fails.

    The remote `sendMessage` call and `JSON.parse` are not modelled; their outcomes come in
    as an `Option` (the reply text, or `None` when the call threw) and as a total function
    from text to `Option<Parsed>` (`None` when the text is not JSON). */
module Gemini {
  import opened Text

  datatype Option<T> = None | Some(value: T)

  /** JavaScript truthiness of an optional string: present and not the empty string. */
  predicate Present(o: Option<string>) {
    o.Some? && o.value != ""
  }

  /** JavaScript truthiness of an optional number: present and not zero. */
  predicate NonZero(o: Option<real>) {
    o.Some? && o.value != 0.0
  }

  /** The enumerations of the response schema. */
  const Actions: set<string> := {"navigate", "show_on_map", "create_chart", "add_marker", "text_only"}
  const Tabs: set<string> := {"chat", "map", "analytics"}
  const Layers: set<string> := {"groundwater", "rainfall", "stress"}
  const ChartTypes: set<string> := {"bar", "line"}

  /** A reply descriptor as the client hands it on. The parsed JSON is cast, not checked, so
      every field holds whatever the reply carried: `None` stands for a field that is absent
      or JSON `null`, and the string fields are not restricted to the schema's enumerations. */
  datatype Descriptor = Descriptor(
    action: Option<string>,
    tab: Option<string>,
    location: Option<string>,
    layer: Option<string>,
    chartType: Option<string>,
    title: Option<string>,
    lat: Option<real>,
    lng: Option<real>,
    popup: Option<string>,
    responseText: Option<string>)

  /** What `JSON.parse` yields, seen through the cast: the literal `null` (on which reading a
      field throws), or a value whose fields are read as a descriptor. A number, string,
      boolean or array reads as a descriptor with every field absent. */
  datatype Parsed = Null | Value(d: Descriptor)

  /** An optional field conforms when it is absent or a member of its enumeration. */
  predicate InEnum(o: Option<string>, values: set<string>) {
    o.None? || o.value in values
  }

  /** The response schema: `action` and `responseText` are required, `action`, `tab`,
      `layer` and `chartType` are drawn from their enumerations, every other field is free. */
  predicate ConformsToSchema(d: Descriptor) {
    && d.action.Some? && d.action.value in Actions
    && d.responseText.Some?
    && InEnum(d.tab, Tabs)
    && InEnum(d.layer, Layers)
    && InEnum(d.chartType, ChartTypes)
  }

  /** A descriptor with only the two required fields. */
  function Plain(action: string, text: string): (d: Descriptor)
    ensures d.action == Some(action) && d.responseText == Some(text)
    ensures && d.tab.None? && d.location.None? && d.layer.None? && d.chartType.None?
            && d.title.None? && d.lat.None? && d.lng.None? && d.popup.None?
    ensures action in Actions ==> ConformsToSchema(d)
  {
    Descriptor(Some(action), None, None, None, None, None, None, None, None, Some(text))
  }

  const FallbackText: string := "I'm sorry, I encountered an error. Could you please rephrase your request?"

  /** The descriptor returned whenever sending or parsing fails. */
  function Fallback(): (d: Descriptor)
    ensures ConformsToSchema(d) && d.action == Some("text_only")
    ensures d.responseText == Some(FallbackText)
  {
    Plain("text_only", FallbackText)
  }

  /** The opening fence stripped by `/^```json\n/`. */
  const OpenFence: string := "```json\n"
  /** The closing fence stripped by `/\n```$/`. */
  const CloseFence: string := "\n```"

  /** The first anchored replacement: one opening fence, at the very start only. */
  function StripOpen(t: string): (r: string)
    ensures StartsWith(t, OpenFence) ==> t == OpenFence + r
    ensures !StartsWith(t, OpenFence) ==> r == t
  {
    if StartsWith(t, OpenFence) then t[|OpenFence|..] else t
  }

  /** The second anchored replacement: one closing fence, at the very end only. */
  function StripClose(t: string): (r: string)
    ensures EndsWith(t, CloseFence) ==> t == r + CloseFence
    ensures !EndsWith(t, CloseFence) ==> r == t
  {
    if EndsWith(t, CloseFence) then t[..|t| - |CloseFence|] else t
  }

  /** The cleanup applied to the raw reply before it is parsed. The result is what is left of
      the text after cutting at most one opening fence from its start and at most one
      closing fence from its end; the opening fence is cut exactly when the text starts
      with it, and the closing fence exactly when what is left after that ends with it. */
  function Clean(t: string): (r: string)
    ensures exists pre, post ::
              && (pre == [] || pre == OpenFence) && (post == [] || post == CloseFence)
              && (pre == OpenFence <==> StartsWith(t, OpenFence))
              && t == pre + r + post
              && (post == CloseFence <==> EndsWith(t[|pre|..], CloseFence))
  {
    var r := StripClose(StripOpen(t));
    var pre := if StartsWith(t, OpenFence) then OpenFence else [];
    var post := if EndsWith(StripOpen(t), CloseFence) then CloseFence else [];
    assert t == pre + StripOpen(t) && StripOpen(t) == r + post;
    assert t == pre + r + post;
    r
  }

  /** Round trip: a fenced JSON text is cleaned back to exactly the text inside the fences,
      whatever that text is (including one that itself starts or ends with a fence). */
  lemma CleanFenced(j: string)
    ensures Clean(OpenFence + j + CloseFence) == j
  {
    var t := OpenFence + j + CloseFence;
    assert t[..|OpenFence|] == OpenFence;
    assert StripOpen(t) == j + CloseFence;
    var u := j + CloseFence;
    assert u[|u| - |CloseFence|..] == CloseFence;
    assert u[..|u| - |CloseFence|] == j;
  }

  /** A text without either fence reaches the parser unchanged. */
  lemma CleanUnfenced(t: string)
    requires !StartsWith(t, OpenFence) && !EndsWith(t, CloseFence)
    ensures Clean(t) == t
  {
  }

  /** The start of the text is touched only when it is an opening fence: otherwise the
      cleaned text is a prefix of the original. */
  lemma CleanKeepsUnfencedStart(t: string)
    requires !StartsWith(t, OpenFence)
    ensures StartsWith(t, Clean(t))
  {
    var r := StripClose(t);
    if EndsWith(t, CloseFence) {
      assert t == r + CloseFence;
      assert t[..|r|] == r;
    }
  }

  /** The end of the text is touched only when it is a closing fence: otherwise the cleaned
      text is a suffix of the original. */
  lemma CleanKeepsUnfencedEnd(t: string)
    requires !EndsWith(t, CloseFence)
    ensures EndsWith(t, Clean(t))
  {
    var u := StripOpen(t);
    if StartsWith(t, OpenFence) {
      assert t[|t| - |u|..] == u;
    }
  }

  /** One opening fence is removed, not more: after a doubled opening fence the text still
      starts with one, provided the rest does not end in a closing fence. */
  lemma CleanStripsOneOpenFence(x: string)
    requires !EndsWith(OpenFence + x, CloseFence)
    ensures Clean(OpenFence + OpenFence + x) == OpenFence + x
  {
    var t := OpenFence + OpenFence + x;
    assert t[..|OpenFence|] == OpenFence;
    assert t[|OpenFence|..] == OpenFence + x;
  }

  /** One closing fence is removed, not more: before a doubled closing fence the text still
      ends with one, provided the whole does not start with an opening fence. */
  lemma CleanStripsOneCloseFence(x: string)
    requires !StartsWith(x + CloseFence + CloseFence, OpenFence)
    ensures Clean(x + CloseFence + CloseFence) == x + CloseFence
  {
    var t := x + CloseFence + CloseFence;
    assert t[|t| - |CloseFence|..] == CloseFence;
    assert t[..|t| - |CloseFence|] == x + CloseFence;
  }

  /** `getAiResponse`: the parsed reply when a reply came back and its cleaned text parsed;
      the fallback descriptor when either step failed. It never fails itself. */
  function GetAiResponse(reply: Option<string>, parse: string -> Option<Parsed>): (r: Parsed)
    ensures reply.None? ==> r == Value(Fallback())
    ensures reply.Some? && parse(Clean(reply.value)).None? ==> r == Value(Fallback())
    ensures reply.Some? && parse(Clean(reply.value)).Some? ==> r == parse(Clean(reply.value)).value
  {
    match reply
    case None => Value(Fallback())
    case Some(text) =>
      match parse(Clean(text))
      case None => Value(Fallback())
      case Some(p) => p
  }

  /** A reply wrapped in a code fence parses exactly as the text inside the fence. */
  lemma GetAiResponseOfFenced(j: string, parse: string -> Option<Parsed>)
    requires parse(j).Some?
    ensures GetAiResponse(Some(OpenFence + j + CloseFence), parse) == parse(j).value
  {
    CleanFenced(j);
  }

  /** Whenever the client substitutes its own answer, that answer conforms to the schema,
      so a failure never reaches the dashboard as anything but a `text_only` reply. */
  lemma FailureYieldsTextOnly(reply: Option<string>, parse: string -> Option<Parsed>)
    requires reply.None? || parse(Clean(reply.value)).None?
    ensures GetAiResponse(reply, parse).Value?
    ensures ConformsToSchema(GetAiResponse(reply, parse).d)
    ensures GetAiResponse(reply, parse).d.action == Some("text_only")
  {
  }
}
