/** `main` of the idea form (src/pages/PitchInputForm.jsx): the empty-idea
    guard, the prompt, the remote call, the three-stage reading of the reply,
    the save, and the `loading` / `output` state around them. A run is
    modelled as the list of effects it performs, in order, and the form state
    those effects leave behind. */
module PitchForm {
  import opened JsValues
  import opened Text
  import opened BraceSpan
  import Gemini

  /** The component's state: the three inputs, the displayed pitch (`null`
      at first) and the loading flag. */
  datatype FormState = FormState(idea: string, tone: string, industry: string,
                                 output: Json, loading: bool)

  /** What a run of `main` does, in the order it does it. */
  datatype Effect =
    | Alert(message: string)
    | SetLoading(on: bool)
    | Request(model: string, prompt: string)
    | Save(collection: string, data: Json, createdAtMs: int)
    | LogError
    | SetOutput(value: Json)

  /** The model the form asks for. */
  const ModelId: string := "gemini-2.5-flash"

  /** The collection the pitch is saved in. */
  const Collection: string := "pitches"

  const EmptyIdeaAlert: string := "\U{26A0}\U{FE0F} Please enter your startup idea!"
  const FailureAlert: string := "Something went wrong. Try again!"

  /** The fixed parts of the prompt template, line breaks and indentation
      included; the inputs go between them, each inside double quotes. */
  const PromptLead: string :=
    "\n      Tum ek AI startup partner ho jiska naam PitchCraft hai.\n      User ka idea: \""
  const ToneLabel: string := "\"\n      Tone: \""
  const IndustryLabel: string := "\"\n      Industry: \""
  const PromptTail: string :=
    "\"\n\n      Roman Urdu + English mix mein creative aur helpful answer do.\n"
    + "      Output structured JSON mein do:\n"
    + "      {\n"
    + "        \"name\": \"\",\n"
    + "        \"tagline\": \"\",\n"
    + "        \"summary\": \"3-line short pitch\",\n"
    + "        \"problem\": \"\",\n"
    + "        \"solution\": \"\",\n"
    + "        \"audience\": \"\",\n"
    + "        \"landing_copy\": \"\"\n"
    + "      }\n"
    + "      "

  /** The prompt: idea, tone and industry embedded verbatim, in that order, at
      offsets fixed by the lengths of what comes before them. */
  function Prompt(idea: string, tone: string, industry: string): (p: string)
    ensures |p| == |PromptLead| + |idea| + |ToneLabel| + |tone| + |IndustryLabel| + |industry| + |PromptTail|
    ensures OccursAt(p, idea, |PromptLead|)
    ensures OccursAt(p, tone, |PromptLead| + |idea| + |ToneLabel|)
    ensures OccursAt(p, industry, |PromptLead| + |idea| + |ToneLabel| + |tone| + |IndustryLabel|)
  {
    FillOccurs(PromptLead, idea, ToneLabel, tone, IndustryLabel, industry, PromptTail);
    PromptLead + idea + ToneLabel + tone + IndustryLabel + industry + PromptTail
  }

  /** The object `{ summary: text }` built when the reply holds no JSON. */
  function SummaryOnly(text: string): (r: Json)
    ensures StringField(r, "summary") == Some(text)
    ensures forall key :: key != "summary" ==> StringField(r, key) == None
  {
    JObject(map["summary" := JString(text)])
  }

  /** The reading of the reply: parse the whole reply; failing that, parse its brace span;
      failing to find a span, wrap the raw text as a summary. `None` means the
      parse of the span threw, and the error leaves this block. */
  function ParseReply(text: string, parse: JsonParser): (r: Option<Json>)
    ensures parse(text).Some? ==> r == parse(text)
    ensures parse(text).None? && NoMatch(text) ==> r == Some(SummaryOnly(text))
    ensures forall a, b :: parse(text).None? && IsReportedMatch(text, a, b) ==> r == parse(text[a..b])
  {
    assert forall a, b :: IsReportedMatch(text, a, b) ==> Extract(text) == Some(text[a..b]) by {
      forall a, b | IsReportedMatch(text, a, b) ensures Extract(text) == Some(text[a..b]) {
        ExtractIsReportedMatch(text, a, b);
      }
    }
    match parse(text)
    case Some(v) => Some(v)
    case None =>
      match Extract(text)
      case Some(span) => parse(span)
      case None => Some(SummaryOnly(text))
  }

  /** The state change one effect makes: only the two setters touch state. */
  function Apply(s: FormState, e: Effect): FormState
  {
    match e
    case SetLoading(on) => s.(loading := on)
    case SetOutput(v) => s.(output := v)
    case _ => s
  }

  /** The state a list of effects leaves behind, applied in order. */
  function Replay(s: FormState, effects: seq<Effect>): FormState
    decreases |effects|
  {
    if |effects| == 0 then s else Replay(Apply(s, effects[0]), effects[1..])
  }

  /** The effects of a run whose request or reading failed: the error is
      logged, the user alerted, and loading switched off. */
  function FailedRun(prompt: string): seq<Effect>
  {
    [SetLoading(true), Request(ModelId, prompt), LogError, Alert(FailureAlert), SetLoading(false)]
  }

  /** The effects of a run whose save of `v` failed. */
  function FailedSaveRun(prompt: string, v: Json, now: int): seq<Effect>
  {
    [SetLoading(true), Request(ModelId, prompt), Save(Collection, v, now),
     LogError, Alert(FailureAlert), SetLoading(false)]
  }

  /** The effects of a run that saved and showed `v`. */
  function SavedRun(prompt: string, v: Json, now: int): seq<Effect>
  {
    [SetLoading(true), Request(ModelId, prompt), Save(Collection, v, now),
     SetOutput(v), SetLoading(false)]
  }

  /** Replaying the three kinds of run from `s`: each leaves loading off,
      and only the saved run changes the displayed pitch. */
  lemma ReplayRuns(s: FormState, prompt: string, v: Json, now: int)
    ensures Replay(s, FailedRun(prompt)) == s.(loading := false)
    ensures Replay(s, FailedSaveRun(prompt, v, now)) == s.(loading := false)
    ensures Replay(s, SavedRun(prompt, v, now)) == s.(output := v, loading := false)
  {
    ReplayFailedRun(s, prompt);
    ReplayFailedSaveRun(s, prompt, v, now);
    ReplaySavedRun(s, prompt, v, now);
  }

  lemma ReplayFailedRun(s: FormState, prompt: string)
    ensures Replay(s, FailedRun(prompt)) == s.(loading := false)
  {
    var on := s.(loading := true);
    var f := FailedRun(prompt);
    calc {
      Replay(s, f);
      Replay(on, f[1..]);
      Replay(on, f[2..]);
      Replay(on, f[3..]);
      Replay(on, f[4..]);
      Replay(s.(loading := false), f[5..]);
    }
  }

  lemma ReplayFailedSaveRun(s: FormState, prompt: string, v: Json, now: int)
    ensures Replay(s, FailedSaveRun(prompt, v, now)) == s.(loading := false)
  {
    var on := s.(loading := true);
    var g := FailedSaveRun(prompt, v, now);
    calc {
      Replay(s, g);
      Replay(on, g[1..]);
      Replay(on, g[2..]);
      Replay(on, g[3..]);
      Replay(on, g[4..]);
      Replay(on, g[5..]);
      Replay(s.(loading := false), g[6..]);
    }
  }

  lemma ReplaySavedRun(s: FormState, prompt: string, v: Json, now: int)
    ensures Replay(s, SavedRun(prompt, v, now)) == s.(output := v, loading := false)
  {
    var on := s.(loading := true);
    var h := SavedRun(prompt, v, now);
    calc {
      Replay(s, h);
      Replay(on, h[1..]);
      Replay(on, h[2..]);
      Replay(on, h[3..]);
      Replay(on.(output := v), h[4..]);
      Replay(s.(output := v, loading := false), h[5..]);
    }
  }

  /** Every `SetOutput` in `effects` comes right after the save of the same
      value. */
  ghost predicate OutputFollowsSave(effects: seq<Effect>, now: int)
  {
    forall k :: 0 <= k < |effects| && effects[k].SetOutput? ==>
      1 <= k && effects[k - 1] == Save(Collection, effects[k].value, now)
  }

  /** Only the saved run sets the output, and it does so right after saving. */
  lemma RunsShowOnlySavedPitches(prompt: string, v: Json, now: int)
    ensures OutputFollowsSave(SavedRun(prompt, v, now), now)
    ensures forall k :: 0 <= k < |FailedRun(prompt)| ==> !FailedRun(prompt)[k].SetOutput?
    ensures forall k :: 0 <= k < |FailedSaveRun(prompt, v, now)| ==> !FailedSaveRun(prompt, v, now)[k].SetOutput?
  {
    var h := SavedRun(prompt, v, now);
    forall k | 0 <= k < |h| && h[k].SetOutput?
      ensures 1 <= k && h[k - 1] == Save(Collection, h[k].value, now)
    {
      assert k == 3;
    }
  }

  /** The `try` block of `main` once the reply has been read: `parsed` is
      what the reading produced, `None` when the call or the reading threw. */
  function Attempt(s: FormState, prompt: string, parsed: Option<Json>,
                   saveSucceeds: bool, now: int): (r: Run)
    ensures r.state == Replay(s, r.effects)
    ensures |r.effects| >= 4
    ensures r.effects[0] == SetLoading(true) && r.effects[1] == Request(ModelId, prompt)
    ensures r.effects[|r.effects| - 1] == SetLoading(false) && !r.state.loading
    ensures OutputFollowsSave(r.effects, now)
    ensures !saveSucceeds ==> forall k :: 0 <= k < |r.effects| ==> !r.effects[k].SetOutput?
    ensures r.state.output != s.output ==> saveSucceeds && Save(Collection, r.state.output, now) in r.effects
    ensures r.state.idea == s.idea && r.state.tone == s.tone && r.state.industry == s.industry
    ensures parsed.Some? ==> Save(Collection, parsed.value, now) in r.effects
    ensures parsed.Some? && saveSucceeds ==> r.state.output == parsed.value
    ensures parsed.None? ==> forall k :: 0 <= k < |r.effects| ==> !r.effects[k].Save?
    ensures forall v :: Save(Collection, v, now) in r.effects ==> parsed == Some(v)
  {
    var shown := if parsed.Some? then parsed.value else JNull;
    ReplayRuns(s, prompt, shown, now);
    RunsShowOnlySavedPitches(prompt, shown, now);
    RunsSaveOnlyTheirValue(prompt, shown, now);
    FailedRunShape(prompt);
    match parsed
    case None =>
      Run(s.(loading := false), FailedRun(prompt))
    case Some(v) =>
      if saveSucceeds then
        var effects := SavedRun(prompt, v, now);
        assert effects[2] == Save(Collection, v, now);
        Run(s.(output := v, loading := false), effects)
      else
        var effects := FailedSaveRun(prompt, v, now);
        assert effects[2] == Save(Collection, v, now);
        Run(s.(loading := false), effects)
  }

  /** The runs that reach the save save exactly their own value. */
  lemma RunsSaveOnlyTheirValue(prompt: string, v: Json, now: int)
    ensures forall w :: Save(Collection, w, now) in SavedRun(prompt, v, now) ==> w == v
    ensures forall w :: Save(Collection, w, now) in FailedSaveRun(prompt, v, now) ==> w == v
  {
    var h := SavedRun(prompt, v, now);
    var g := FailedSaveRun(prompt, v, now);
    forall w | Save(Collection, w, now) in h ensures w == v {
      var k :| 0 <= k < |h| && h[k] == Save(Collection, w, now);
      assert k == 2;
    }
    forall w | Save(Collection, w, now) in g ensures w == v {
      var k :| 0 <= k < |g| && g[k] == Save(Collection, w, now);
      assert k == 2;
    }
  }

  /** What the remote call and the reading of its reply produce: the value
      to save, or `None` when either threw. */
  function ReadReply(reply: Gemini.RemoteResult, parse: JsonParser): (r: Option<Json>)
    ensures reply.Failed? ==> r == None
    ensures reply.Reply? ==> r == ParseReply(reply.text, parse)
  {
    match reply
    case Failed(_) => None
    case Reply(text) => ParseReply(text, parse)
  }

  /** One run of `main`, given the remote model, `JSON.parse`, whether the
      save succeeds, and the clock reading used as the saved `createdAt`. */
  function Submit(s: FormState, remote: Gemini.Remote, parse: JsonParser,
                  saveSucceeds: bool, now: int): (r: Run)
    ensures r.state == Replay(s, r.effects)
    ensures AllWhiteSpace(s.idea) <==> r.effects == [Alert(EmptyIdeaAlert)]
    ensures AllWhiteSpace(s.idea) ==> r.state == s
    ensures !AllWhiteSpace(s.idea) ==>
      && |r.effects| >= 4
      && r.effects[0] == SetLoading(true)
      && r.effects[1] == Request(ModelId, Prompt(s.idea, s.tone, s.industry))
      && r.effects[|r.effects| - 1] == SetLoading(false)
      && !r.state.loading
    ensures OutputFollowsSave(r.effects, now)
    ensures !saveSucceeds ==> forall k :: 0 <= k < |r.effects| ==> !r.effects[k].SetOutput?
    ensures r.state.output != s.output ==>
      saveSucceeds && Save(Collection, r.state.output, now) in r.effects
    ensures r.state.idea == s.idea && r.state.tone == s.tone && r.state.industry == s.industry
    ensures forall v :: Save(Collection, v, now) in r.effects ==>
      ReadReply(remote(ModelId, Prompt(s.idea, s.tone, s.industry)), parse) == Some(v)
    ensures var read := ReadReply(remote(ModelId, Prompt(s.idea, s.tone, s.industry)), parse);
      !AllWhiteSpace(s.idea) && read.Some? ==>
        && Save(Collection, read.value, now) in r.effects
        && (saveSucceeds ==> r.state.output == read.value)
  {
    if Trim(s.idea) == "" then
      Run(s, [Alert(EmptyIdeaAlert)])
    else
      var prompt := Prompt(s.idea, s.tone, s.industry);
      Attempt(s, prompt, ReadReply(remote(ModelId, prompt), parse), saveSucceeds, now)
  }

  /** The result of a run: the state it leaves and what it did. */
  datatype Run = Run(state: FormState, effects: seq<Effect>)

  /** When the call or the reading throws, the run is a failed run, whatever
      else holds. */
  lemma FailedReadGivesFailedRun(s: FormState, remote: Gemini.Remote, parse: JsonParser,
                                 saveSucceeds: bool, now: int)
    requires !AllWhiteSpace(s.idea)
    requires ReadReply(remote(ModelId, Prompt(s.idea, s.tone, s.industry)), parse) == None
    ensures Submit(s, remote, parse, saveSucceeds, now)
         == Run(s.(loading := false), FailedRun(Prompt(s.idea, s.tone, s.industry)))
  {
  }

  /** A brace span that fails to parse is not recovered: nothing is saved, the
      displayed pitch stays as it was, and the user sees the failure alert. */
  lemma SpanParseFailureIsNotRecovered(s: FormState, remote: Gemini.Remote, parse: JsonParser,
                                       saveSucceeds: bool, now: int, text: string, a: int, b: int)
    requires !AllWhiteSpace(s.idea)
    requires remote(ModelId, Prompt(s.idea, s.tone, s.industry)) == Gemini.Reply(text)
    requires parse(text).None?
    requires IsReportedMatch(text, a, b) && parse(text[a..b]).None?
    ensures var r := Submit(s, remote, parse, saveSucceeds, now);
      && (forall k :: 0 <= k < |r.effects| ==> !r.effects[k].Save?)
      && r.state.output == s.output
      && Alert(FailureAlert) in r.effects
      && !r.state.loading
  {
    assert ParseReply(text, parse) == None;
    FailedReadGivesFailedRun(s, remote, parse, saveSucceeds, now);
    FailedRunShape(Prompt(s.idea, s.tone, s.industry));
  }

  /** A failed run saves nothing and alerts the user. */
  lemma FailedRunShape(prompt: string)
    ensures forall k :: 0 <= k < |FailedRun(prompt)| ==> !FailedRun(prompt)[k].Save?
    ensures Alert(FailureAlert) in FailedRun(prompt)
  {
    var f := FailedRun(prompt);
    assert f[3] == Alert(FailureAlert);
  }

  /** A reply that reads as `v` and a save that succeeds: the run saves `v`,
      then shows it, then clears the loading flag. */
  lemma SuccessfulRun(s: FormState, remote: Gemini.Remote, parse: JsonParser,
                      now: int, text: string, v: Json)
    requires !AllWhiteSpace(s.idea)
    requires remote(ModelId, Prompt(s.idea, s.tone, s.industry)) == Gemini.Reply(text)
    requires ParseReply(text, parse) == Some(v)
    ensures var r := Submit(s, remote, parse, true, now);
      && r.effects == [SetLoading(true), Request(ModelId, Prompt(s.idea, s.tone, s.industry)),
                       Save(Collection, v, now), SetOutput(v), SetLoading(false)]
      && r.state == s.(output := v, loading := false)
  {
  }

  /** Only the idea is checked: an empty industry does not stop the request. */
  lemma IndustryIsNotChecked(s: FormState, remote: Gemini.Remote, parse: JsonParser,
                             saveSucceeds: bool, now: int)
    requires !AllWhiteSpace(s.idea) && s.industry == ""
    ensures Submit(s, remote, parse, saveSucceeds, now).effects[1].Request?
  {
  }
}
