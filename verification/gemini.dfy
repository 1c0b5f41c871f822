/** `generatePitch` (src/service/googlegemini.js): build a prompt, ask the
    remote model, take the brace span of the reply and parse it; on any failure
    on the way, return the fallback pitch instead. Nothing is validated and no
    error reaches the caller. */
module Gemini {
  import opened JsValues
  import opened Text
  import opened BraceSpan
  import opened Fallback

  /** What `model.generateContent(prompt)` followed by `response.text()`
      yields: the reply text, or the error either of them throws. */
  datatype RemoteResult = Reply(text: string) | Failed(message: string)

  /** The remote model: given a model id and a prompt, a result. */
  type Remote = (string, string) -> RemoteResult

  /** The model this service asks for. */
  const ModelId: string := "gemini-1.5-flash"

  /** The fixed lines of the prompt template, with the template literal's
      line breaks and indentation. */
  const PromptLead: string := "\n      Generate a JSON startup pitch for:\n      Idea: "
  const IndustryLabel: string := "\n      Industry: "
  const ToneLabel: string := "\n      Tone: "
  const PromptEnd: string := "\n    "

  /** The prompt: idea, industry and tone each embedded verbatim, at offsets
      fixed by the lengths of what comes before them. */
  function Prompt(idea: string, industry: string, tone: string): (p: string)
    ensures |p| == |PromptLead| + |idea| + |IndustryLabel| + |industry| + |ToneLabel| + |tone| + |PromptEnd|
    ensures OccursAt(p, PromptLead, 0)
    ensures OccursAt(p, idea, |PromptLead|)
    ensures OccursAt(p, industry, |PromptLead| + |idea| + |IndustryLabel|)
    ensures OccursAt(p, tone, |PromptLead| + |idea| + |IndustryLabel| + |industry| + |ToneLabel|)
  {
    FillOccurs(PromptLead, idea, IndustryLabel, industry, ToneLabel, tone, PromptEnd);
    PromptLead + idea + IndustryLabel + industry + ToneLabel + tone + PromptEnd
  }

  /** The fallback result for these inputs, as the object the caller sees. */
  function FallbackResult(idea: string, industry: string, tone: string): Json
  {
    ToJson(GenerateFallbackPitch(IdeaData(idea, industry, tone)))
  }

  /** `generatePitch(idea, industry, tone)`, with the remote model and
      `JSON.parse` passed in. The result is the parse of the reported brace
      span of the reply when there is a reply, it has a span, and the span
      parses; in every other case it is the fallback pitch. */
  function GeneratePitch(idea: string, industry: string, tone: string,
                         remote: Remote, parse: JsonParser): (r: Json)
    ensures var reply := remote(ModelId, Prompt(idea, industry, tone));
      reply.Failed? ==> r == FallbackResult(idea, industry, tone)
    ensures var reply := remote(ModelId, Prompt(idea, industry, tone));
      reply.Reply? && NoMatch(reply.text) ==> r == FallbackResult(idea, industry, tone)
    ensures var reply := remote(ModelId, Prompt(idea, industry, tone));
      forall a, b :: reply.Reply? && IsReportedMatch(reply.text, a, b) ==>
        r == match parse(reply.text[a..b])
             case Some(v) => v
             case None => FallbackResult(idea, industry, tone)
  {
    var reply := remote(ModelId, Prompt(idea, industry, tone));
    var fallback := FallbackResult(idea, industry, tone);
    match reply
    case Failed(_) => fallback
    case Reply(text) =>
      assert forall a, b :: IsReportedMatch(text, a, b) ==> Extract(text) == Some(text[a..b]) by {
        forall a, b | IsReportedMatch(text, a, b) ensures Extract(text) == Some(text[a..b]) {
          ExtractIsReportedMatch(text, a, b);
        }
      }
      match Extract(text)
      case None => fallback
      case Some(span) =>
        match parse(span)
        case Some(v) => v
        case None => fallback
  }

  /** A reply without any `{` is treated exactly like a failed call: both give
      the fallback pitch. */
  lemma ReplyWithoutBraceIsLikeFailure(idea: string, industry: string, tone: string,
                                       text: string, message: string, parse: JsonParser)
    requires '{' !in text
    ensures GeneratePitch(idea, industry, tone, (_, _) => Reply(text), parse)
         == GeneratePitch(idea, industry, tone, (_, _) => Failed(message), parse)
  {
    assert NoMatch(text) by {
      forall a, b ensures !IsMatch(text, a, b) {
        if 0 <= a < |text| {
          assert text[a] in text;
        }
      }
    }
  }

  /** No input validation: with an empty idea and a failing call, the caller
      still gets a pitch, whose name is empty. */
  lemma EmptyIdeaIsNotRejected(industry: string, tone: string, remote: Remote, parse: JsonParser)
    requires remote(ModelId, Prompt("", industry, tone)).Failed?
    ensures StringField(GeneratePitch("", industry, tone, remote, parse), "startupName") == Some("")
  {
    StartupNameOfOneWord("");
  }

  /** The fallback is never used when the span parses: the caller gets the
      parsed value itself, whatever it is. */
  lemma ParsedSpanReturnedUnchanged(idea: string, industry: string, tone: string,
                                    remote: Remote, parse: JsonParser, text: string, v: Json)
    requires remote(ModelId, Prompt(idea, industry, tone)) == Reply(text)
    requires Extract(text).Some? && parse(Extract(text).value) == Some(v)
    ensures GeneratePitch(idea, industry, tone, remote, parse) == v
  {
  }
}
