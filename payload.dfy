/** The `generateContent` request body the handler in
    netlify/functions/chat.js assembles: the mapped transcript, the system
    instruction in its own slot, the generation settings and the safety
    settings. */
module Payload {
  import opened Optional
  import opened Instruction

  /** One turn of the caller's transcript, as the browser sends it. */
  datatype Message = Message(role: string, text: string)

  /** One text part of a content entry. */
  datatype Part = Part(text: string)

  /** One content entry of the request: a role and its parts. */
  datatype Content = Content(role: string, parts: seq<Part>)

  datatype GenerationConfig = GenerationConfig(
    temperature: real, topP: real, topK: int, maxOutputTokens: int)

  datatype SafetySetting = SafetySetting(category: string, threshold: string)

  datatype GeminiPayload = GeminiPayload(
    contents: seq<Content>,
    systemInstruction: Content,
    generationConfig: GenerationConfig,
    safetySettings: seq<SafetySetting>)

  const BlockMediumAndAbove: string := "BLOCK_MEDIUM_AND_ABOVE"

  /** The harm categories, in the order the request lists them. */
  const HarmCategories: seq<string> := [
    "HARM_CATEGORY_HATE_SPEECH",
    "HARM_CATEGORY_DANGEROUS_CONTENT",
    "HARM_CATEGORY_HARASSMENT",
    "HARM_CATEGORY_SEXUALLY_EXPLICIT"
  ]

  /** The fixed safety settings: every category at one threshold. */
  const SafetySettings: seq<SafetySetting> := [
    SafetySetting(HarmCategories[0], BlockMediumAndAbove),
    SafetySetting(HarmCategories[1], BlockMediumAndAbove),
    SafetySetting(HarmCategories[2], BlockMediumAndAbove),
    SafetySetting(HarmCategories[3], BlockMediumAndAbove)
  ]

  /** Role rewriting: `'assistant'` becomes `'model'`, every other role,
      whatever it is, becomes `'user'`. */
  function UpstreamRole(role: string): (r: string)
    ensures r == "model" <==> role == "assistant"
    ensures r == "user" <==> role != "assistant"
  {
    if role == "assistant" then "model" else "user"
  }

  /** `chatHistory.map(...)`: one content entry per message, in order, each
      with the rewritten role and the message text as its single part. */
  function MapTranscript(history: seq<Message>): (contents: seq<Content>)
    ensures |contents| == |history|
    ensures forall i :: 0 <= i < |history| ==>
      contents[i].role == UpstreamRole(history[i].role) && contents[i].parts == [Part(history[i].text)]
  {
    if history == [] then []
    else [Content(UpstreamRole(history[0].role), [Part(history[0].text)])] + MapTranscript(history[1..])
  }

  /** Mapping a transcript is mapping its parts one after the other: no turn
      is dropped, duplicated or moved. */
  lemma {:induction false} MapTranscriptAppend(a: seq<Message>, b: seq<Message>)
    ensures MapTranscript(a + b) == MapTranscript(a) + MapTranscript(b)
    decreases |a|
  {
    if a != [] {
      assert (a + b)[1..] == a[1..] + b;
      MapTranscriptAppend(a[1..], b);
    }
  }

  /** Reading a transcript back from content entries: `'model'` is the
      assistant, any other role the user, the first part the text. */
  function TranscriptOf(contents: seq<Content>): seq<Message>
  {
    if contents == [] then []
    else
      var c := contents[0];
      [Message(if c.role == "model" then "assistant" else "user",
               if |c.parts| > 0 then c.parts[0].text else "")]
      + TranscriptOf(contents[1..])
  }

  /** The transcript with every role other than `'assistant'` read as
      `'user'`. */
  function NormalizeRoles(history: seq<Message>): (normalized: seq<Message>)
    ensures |normalized| == |history|
    ensures forall i :: 0 <= i < |history| ==> normalized[i].text == history[i].text
    ensures forall i :: 0 <= i < |history| ==>
      normalized[i].role == (if history[i].role == "assistant" then "assistant" else "user")
  {
    if history == [] then []
    else
      [Message(if history[0].role == "assistant" then "assistant" else "user", history[0].text)]
      + NormalizeRoles(history[1..])
  }

  /** The mapping loses nothing but the distinction between non-assistant
      roles: reading the contents back gives the transcript with those roles
      normalised to `'user'`. */
  lemma {:induction false} TranscriptRoundTrip(history: seq<Message>)
    ensures TranscriptOf(MapTranscript(history)) == NormalizeRoles(history)
    decreases |history|
  {
    if history != [] {
      TranscriptRoundTrip(history[1..]);
      assert MapTranscript(history)[1..] == MapTranscript(history[1..]);
    }
  }

  /** A transcript using only the two roles the browser sends comes back
      unchanged. */
  lemma {:induction false} TwoRoleTranscriptRoundTrip(history: seq<Message>)
    requires forall i :: 0 <= i < |history| ==> history[i].role in {"assistant", "user"}
    ensures TranscriptOf(MapTranscript(history)) == history
  {
    TranscriptRoundTrip(history);
    NormalizeKeepsTwoRoles(history);
  }

  lemma {:induction false} NormalizeKeepsTwoRoles(history: seq<Message>)
    requires forall i :: 0 <= i < |history| ==> history[i].role in {"assistant", "user"}
    ensures NormalizeRoles(history) == history
    decreases |history|
  {
    if history != [] {
      NormalizeKeepsTwoRoles(history[1..]);
    }
  }

  /** `userName ? 0.6 : 0.2`. */
  function Temperature(userName: Option<string>): (t: real)
    ensures t == 0.6 <==> Truthy(userName)
    ensures t == 0.2 <==> !Truthy(userName)
  {
    if Truthy(userName) then 0.6 else 0.2
  }

  /** The request body: the transcript in `contents`, the instruction alone
      in the `system` slot, settings constant except for the temperature. */
  function BuildPayload(history: seq<Message>, userName: Option<string>): (p: GeminiPayload)
    ensures p.contents == MapTranscript(history)
    ensures forall i :: 0 <= i < |p.contents| ==> p.contents[i].role != "system"
    ensures p.systemInstruction == Content("system", [Part(BuildSystemInstruction(userName))])
    ensures p.generationConfig.temperature == (if Truthy(userName) then 0.6 else 0.2)
    ensures p.generationConfig.topP == 0.9
    ensures p.generationConfig.topK == 40
    ensures p.generationConfig.maxOutputTokens == 400
    ensures |p.safetySettings| == 4
    ensures forall i :: 0 <= i < 4 ==>
      p.safetySettings[i] == SafetySetting(HarmCategories[i], BlockMediumAndAbove)
  {
    GeminiPayload(
      MapTranscript(history),
      Content("system", [Part(BuildSystemInstruction(userName))]),
      GenerationConfig(Temperature(userName), 0.9, 40, 400),
      SafetySettings)
  }

  /** The temperature and the instruction always describe the same mode:
      0.2 exactly when the name-capture text is sent, 0.6 exactly when the
      counsellor text is. */
  lemma ModeAndTemperatureAgree(history: seq<Message>, userName: Option<string>)
    ensures var p := BuildPayload(history, userName);
      && (p.generationConfig.temperature == 0.2 <==> p.systemInstruction.parts[0].text == NameCaptureInstruction)
      && (p.generationConfig.temperature == 0.6 <==> p.systemInstruction.parts[0].text != NameCaptureInstruction)
  {
  }
}
