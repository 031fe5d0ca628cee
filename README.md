# Dr. Supremo chat relay — Dafny model

A model of the Netlify function `netlify/functions/chat.js`, which relays a
browser's chat transcript to the Gemini `generateContent` endpoint and sends
the reply back. The handler's decisions are modelled as pure functions:

- **Dialogue mode** (`Instruction`): a falsy `userName` selects the fixed
  name-capture instruction; any other name selects the counsellor
  instruction with the name interpolated twice. Both texts are the source's
  template literals, character for character (their line breaks are `\n`:
  JavaScript template literals normalise the file's CRLF line endings).
- **Request payload** (`Payload`): the transcript mapped turn by turn
  (`assistant` → `model`, every other role → `user`, the text as a single
  part), the instruction alone in the `system` slot, the generation settings
  (temperature 0.6 or 0.2, topP 0.9, topK 40, maxOutputTokens 400) and the
  four fixed safety settings.
- **Reply extraction** (`Extraction`): the first candidate's part texts,
  each defaulting to `""`, joined with `"\n"`; every missing link in
  `data?.candidates?.[0]?.content?.parts` gives `""`.
- **Handler outcome** (`Handler`): 405 `Method Not Allowed` for anything but
  POST; the single generic 500 body for an unparseable body, a missing API
  key, a missing chat history, an unreachable or non-ok upstream, or a
  non-JSON upstream body; otherwise 200 with `{responseText}`. The API key
  and the upstream reply are parameters; the result also records the payload
  sent upstream, so "no call was made" is a statement about the model.

Supporting string facts (`Text`): `Join` models JavaScript's
`Array.prototype.join`. `Split` is not called by the handler: it is a
reference definition (JavaScript's `String.prototype.split` on one
character) used to state what the join does, and the two are proved inverse
to each other.

`userName` and the API key are `Option<string>`; JavaScript truthiness is
`Optional.Truthy` (`None` and `Some("")` are both falsy). Temperatures are
exact `real` constants.

## Model

| member | source | states |
|---|---|---|
| `Text.JoinSplit` | netlify/functions/chat.js:68 | joining the pieces of any string, split at a character, with that character gives the string back |
| `Text.SplitJoin` | netlify/functions/chat.js:68 | for a non-empty list of pieces none of which contains the separator, splitting the join recovers the list |
| `Text.Join` | netlify/functions/chat.js:68 | `.join`: an empty list gives `""`; otherwise the first piece is a prefix and the length is the pieces' total plus one separator between each neighbouring pair |
| `Text.JoinAppend` | netlify/functions/chat.js:68 | appending a piece to a non-empty list appends the separator and that piece, whatever the pieces hold |
| `Instruction.CounselorInstruction` | netlify/functions/chat.js:95-109 | the counsellor text contains the interpolated name and the `[PURCHASE_BUTTON]` sentinel |
| `Instruction.BuildSystemInstruction` | netlify/functions/chat.js:86-110 | a falsy name gives exactly the name-capture text; a truthy name gives exactly `CounselorInstruction` of that name, which differs from the name-capture text and contains the name and the sentinel |
| `Instruction.CounselorDiffersFromNameCapture` | netlify/functions/chat.js:86-110 | no name makes the counsellor text equal to the name-capture text |
| `Instruction.CounselorInstructionInjective` | netlify/functions/chat.js:95-97 | different names give different counsellor instructions |
| `Payload.UpstreamRole` | netlify/functions/chat.js:29 | the role becomes `model` exactly when it is `assistant`, and `user` for every other role |
| `Payload.MapTranscript` | netlify/functions/chat.js:28-31 | same length as the transcript; entry i has message i's rewritten role and exactly one part holding its text |
| `Payload.MapTranscriptAppend` | netlify/functions/chat.js:28-31 | mapping distributes over concatenation, so turn order is preserved |
| `Payload.NormalizeRoles` | netlify/functions/chat.js:29 | normalising roles keeps the length and every text, and turns each role into `assistant` if it was `assistant` and `user` otherwise |
| `Payload.TranscriptRoundTrip` | netlify/functions/chat.js:28-31 | reading the contents back yields the transcript with non-assistant roles read as `user` |
| `Payload.TwoRoleTranscriptRoundTrip` | netlify/functions/chat.js:28-31 | a transcript with only `assistant`/`user` roles is recovered exactly from the contents |
| `Payload.Temperature` | netlify/functions/chat.js:40 | 0.6 exactly when `userName` is truthy, 0.2 exactly when it is falsy |
| `Payload.BuildPayload` | netlify/functions/chat.js:33-51 | contents are the mapped transcript with no `system` entry; the instruction sits alone in a `system` slot with one part; temperature 0.6/0.2 by name truthiness; topP 0.9, topK 40, maxOutputTokens 400; four safety settings, all `BLOCK_MEDIUM_AND_ABOVE`, in the listed category order |
| `Payload.ModeAndTemperatureAgree` | netlify/functions/chat.js:26-40 | temperature is 0.2 exactly when the name-capture text is sent and 0.6 exactly when it is not |
| `Extraction.FirstCandidateParts` | netlify/functions/chat.js:67 | the first candidate's parts when candidates, the first candidate, its content and its parts are all present; no parts otherwise |
| `Extraction.PartText` | netlify/functions/chat.js:68 | a part's text, or `""` when it has none |
| `Extraction.PartTexts` | netlify/functions/chat.js:68 | one text per part, in order |
| `Extraction.ExtractText` | netlify/functions/chat.js:67-68 | no first-candidate parts gives `""`; a single part gives exactly that part's text |
| `Extraction.ExtractWithoutParts` | netlify/functions/chat.js:67 | missing or empty candidates, content or parts each give `""` |
| `Extraction.ExtractReadsFirstCandidateOnly` | netlify/functions/chat.js:67 | candidates after the first never change the text |
| `Extraction.ExtractSinglePart` | netlify/functions/chat.js:67-68 | a first candidate with one part gives exactly its text, whatever it holds (blank lines, the sentinel line) and whatever candidates follow |
| `Extraction.ExtractAppendsPart` | netlify/functions/chat.js:67-68 | one more part in a first candidate with at least one part appends `"\n"` and that part's text (or `""`), for any texts |
| `Extraction.ExtractSplitsIntoParts` | netlify/functions/chat.js:67-68 | when the first candidate has at least one part and no part text holds a newline, splitting the result at `"\n"` gives exactly the part texts |
| `Extraction.ExtractExamples` | netlify/functions/chat.js:67-68 | no candidates gives `""`; parts `A`,`B` give `"A\nB"`; a part without text gives an empty line |
| `Handler.Handle` | netlify/functions/chat.js:7-84 | non-POST gives 405 with no call; a call is made exactly for a POST with a parsed body, chat history and truthy key, and sends `BuildPayload`; 200 exactly when such a call answers ok with JSON, carrying the extracted text; every other response is the one generic 500 |
| `Handler.NoCallIgnoresReply` | netlify/functions/chat.js:9-28 | when no call is made the upstream reply cannot affect the outcome |
| `Handler.MissingKeyFails` | netlify/functions/chat.js:18-21 | a POST without a truthy key gives the generic 500 and no call |
| `Handler.UpstreamFailureIsGeneric` | netlify/functions/chat.js:54-83 | an unreachable, non-ok or non-JSON upstream reply gives the generic 500, so no reply text leaks |
| `Handler.SuccessPassesSinglePartThrough` | netlify/functions/chat.js:66-75 | an ok reply whose first candidate has one part gives 200 with exactly that text, whatever it holds |
| `Handler.SuccessCarriesParts` | netlify/functions/chat.js:66-75 | when the first candidate has at least one part and no part text holds a newline, an ok reply gives 200 whose text splits back into those part texts |
| `Handler.ModeFollowsUserName` | netlify/functions/chat.js:26-40 | the payload sent carries the name-capture text and 0.2 for a falsy name, and otherwise exactly the counsellor text for the name, which holds the name and sentinel, with 0.6 |

## Left out

- The HTTP call itself (`node-fetch`, async/await, headers, the URL built with the key): network I/O; its result is the `UpstreamReply` parameter.
- `JSON.parse`, `JSON.stringify` and `apiResponse.json()`: library calls; parsed values are datatypes, and a parse failure is `None`.
- Reading `process.env.GEMINI_API_KEY`: ambient environment; the key is a parameter.
- `console.error` logging and the error message texts thrown inside the `try`: side effects that never reach the caller.
- The natural-language rules inside the prompts (message count and length, ending with a question, chapter citations, purchase-intent detection): the upstream model is asked to follow them; the code never checks them.
- Non-string or missing JSON values for `userName`, `role` or `text` (numbers, booleans, objects; a `chatHistory` entry without `text` gives a part `{}` after serialising, and the call is still made) and `null` entries in `chatHistory` or `parts` (which throw and so end in the generic 500): the model types these fields as strings and records.
- Floating-point temperatures: the values are exact constants.
- `Extraction.ExtractText`: its own contract states only the empty and single-part cases; several parts are covered by `ExtractAppendsPart` for any texts, and by `ExtractSplitsIntoParts` when no part text holds a newline.
