/** Reading the reply text out of a `generateContent` response:
    `data?.candidates?.[0]?.content?.parts || []`, then each part's `text`
    (or `''`) joined with `'\n'`, as netlify/functions/chat.js does. Every
    field the optional chaining walks through may be missing. */
module Extraction {
  import opened Optional
  import opened Text

  datatype ResponsePart = ResponsePart(text: Option<string>)

  datatype CandidateContent = CandidateContent(parts: Option<seq<ResponsePart>>)

  datatype Candidate = Candidate(content: Option<CandidateContent>)

  /** The parsed response body; a `null` body reads like one without
      candidates. */
  datatype GenerateResponse = GenerateResponse(candidates: Option<seq<Candidate>>)

  /** Every link of `data?.candidates?.[0]?.content?.parts` is present. */
  predicate HasFirstCandidateParts(data: GenerateResponse)
  {
    && data.candidates.Some?
    && |data.candidates.value| > 0
    && data.candidates.value[0].content.Some?
    && data.candidates.value[0].content.value.parts.Some?
  }

  /** `data?.candidates?.[0]?.content?.parts || []`: the first candidate's
      parts when the whole chain is present, and no parts otherwise. */
  function FirstCandidateParts(data: GenerateResponse): (parts: seq<ResponsePart>)
    ensures HasFirstCandidateParts(data) ==> parts == data.candidates.value[0].content.value.parts.value
    ensures !HasFirstCandidateParts(data) ==> parts == []
  {
    if data.candidates.None? || |data.candidates.value| == 0 then []
    else
      var first := data.candidates.value[0];
      if first.content.None? || first.content.value.parts.None? then []
      else first.content.value.parts.value
  }

  /** `p.text || ''`. */
  function PartText(p: ResponsePart): (text: string)
    ensures p.text.Some? ==> text == p.text.value
    ensures p.text.None? ==> text == ""
  {
    if p.text.Some? then p.text.value else ""
  }

  /** `parts.map((p) => p.text || '')`. */
  function PartTexts(parts: seq<ResponsePart>): (texts: seq<string>)
    ensures |texts| == |parts|
    ensures forall i :: 0 <= i < |parts| ==> texts[i] == PartText(parts[i])
  {
    if parts == [] then [] else [PartText(parts[0])] + PartTexts(parts[1..])
  }

  /** The reply text: the first candidate's part texts joined by newlines. */
  function ExtractText(data: GenerateResponse): (text: string)
    ensures FirstCandidateParts(data) == [] ==> text == ""
    ensures |FirstCandidateParts(data)| == 1 ==> text == PartText(FirstCandidateParts(data)[0])
  {
    Join(PartTexts(FirstCandidateParts(data)), "\n")
  }

  /** A missing or empty candidate list, or a first candidate without
      parts, gives the empty string. */
  lemma ExtractWithoutParts(data: GenerateResponse)
    requires || data.candidates.None?
             || data.candidates.value == []
             || data.candidates.value[0].content.None?
             || data.candidates.value[0].content.value.parts.None?
             || data.candidates.value[0].content.value.parts.value == []
    ensures ExtractText(data) == ""
  {
  }

  /** Only the first candidate is read: the ones after it never change the
      text. */
  lemma ExtractReadsFirstCandidateOnly(first: Candidate, others1: seq<Candidate>, others2: seq<Candidate>)
    ensures ExtractText(GenerateResponse(Some([first] + others1)))
         == ExtractText(GenerateResponse(Some([first] + others2)))
  {
  }

  /** Splitting the text at newlines gives back each part's text, in order,
      whenever the first candidate has parts and none of their texts holds a
      newline. */
  lemma ExtractSplitsIntoParts(data: GenerateResponse)
    requires FirstCandidateParts(data) != []
    requires forall i :: 0 <= i < |FirstCandidateParts(data)| ==>
      '\n' !in PartText(FirstCandidateParts(data)[i])
    ensures Split(ExtractText(data), '\n') == PartTexts(FirstCandidateParts(data))
  {
    SplitJoin(PartTexts(FirstCandidateParts(data)), '\n');
  }

  /** A first candidate with a single part passes that part's text through
      unchanged, whatever it holds: blank lines, the purchase sentinel on its
      own line, anything. */
  lemma ExtractSinglePart(text: string, others: seq<Candidate>)
    ensures ExtractText(GenerateResponse(Some(
              [Candidate(Some(CandidateContent(Some([ResponsePart(Some(text))]))))] + others)))
         == text
  {
    var data := GenerateResponse(Some(
              [Candidate(Some(CandidateContent(Some([ResponsePart(Some(text))]))))] + others));
    assert FirstCandidateParts(data) == [ResponsePart(Some(text))];
  }

  /** One more part in the first candidate adds a newline and that part's
      text (or nothing, when it has none) to the end of the text, whatever
      the texts hold. */
  lemma ExtractAppendsPart(parts: seq<ResponsePart>, last: ResponsePart, others: seq<Candidate>)
    requires |parts| >= 1
    ensures var extended := GenerateResponse(Some([Candidate(Some(CandidateContent(Some(parts + [last]))))] + others));
            var base := GenerateResponse(Some([Candidate(Some(CandidateContent(Some(parts))))] + others));
            ExtractText(extended) == ExtractText(base) + "\n" + PartText(last)
  {
    assert PartTexts(parts + [last]) == PartTexts(parts) + [PartText(last)];
    JoinAppend(PartTexts(parts), "\n", PartText(last));
  }

  /** Two parts "A" and "B" give "A\nB"; a part without text contributes an
      empty line. */
  lemma ExtractExamples()
    ensures ExtractText(GenerateResponse(Some([])))
         == ""
    ensures ExtractText(GenerateResponse(Some([Candidate(Some(CandidateContent(Some(
              [ResponsePart(Some("A")), ResponsePart(Some("B"))]))))])))
         == "A\nB"
    ensures ExtractText(GenerateResponse(Some([Candidate(Some(CandidateContent(Some(
              [ResponsePart(Some("A")), ResponsePart(None), ResponsePart(Some("B"))]))))])))
         == "A\n\nB"
  {
  }
}
