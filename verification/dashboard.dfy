/** The dashboard (src/pages/Dashboard.jsx): every stored pitch is shown as a
    card with placeholders for missing fields, and can be downloaded as a PDF
    that lists eight fields top to bottom under a moving vertical cursor. */
module Dashboard {
  import opened JsValues
  import Fallback
  import PitchForm

  /** A stored pitch document as the dashboard reads it: the seven text
      fields (missing unless stored as a string) and the seconds of the
      `createdAt` timestamp, when there is one. */
  datatype SavedPitch = SavedPitch(
    name: Option<string>,
    tagline: Option<string>,
    summary: Option<string>,
    problem: Option<string>,
    solution: Option<string>,
    audience: Option<string>,
    landingCopy: Option<string>,
    createdAtSeconds: Option<int>)

  /** The document is an object whose property `key` is the string `t`. */
  predicate HoldsString(data: Json, key: string, t: string)
  {
    data.JObject? && key in data.members && data.members[key] == JString(t)
  }

  /** The fields of a stored document, under the keys the generation prompt
      asks the model for. */
  function FromDocument(data: Json, createdAtSeconds: Option<int>): (p: SavedPitch)
    ensures forall t :: p.name == Some(t) <==> HoldsString(data, "name", t)
    ensures forall t :: p.tagline == Some(t) <==> HoldsString(data, "tagline", t)
    ensures forall t :: p.summary == Some(t) <==> HoldsString(data, "summary", t)
    ensures forall t :: p.problem == Some(t) <==> HoldsString(data, "problem", t)
    ensures forall t :: p.solution == Some(t) <==> HoldsString(data, "solution", t)
    ensures forall t :: p.audience == Some(t) <==> HoldsString(data, "audience", t)
    ensures forall t :: p.landingCopy == Some(t) <==> HoldsString(data, "landing_copy", t)
    ensures p.createdAtSeconds == createdAtSeconds
  {
    SavedPitch(
      StringField(data, "name"), StringField(data, "tagline"), StringField(data, "summary"),
      StringField(data, "problem"), StringField(data, "solution"), StringField(data, "audience"),
      StringField(data, "landing_copy"), createdAtSeconds)
  }

  /** The seconds of the timestamp stored for a `Date` of `ms` milliseconds
      since the epoch: whole seconds, rounded down. */
  function StoredSeconds(ms: int): int
  {
    ms / 1000
  }

  const UnnamedStartup: string := "Unnamed Startup"
  const NoTagline: string := "No tagline"
  const NoSummary: string := "No summary available."
  /** The em dash shown for a missing problem, solution, audience or PDF field. */
  const Dash: string := "\U{2014}"
  const JustNow: string := "Just now"

  /** The text a card shows. */
  datatype Card = Card(name: string, tagline: string, summary: string,
                       problem: string, solution: string, audience: string,
                       createdAt: string)

  /** The creation time as displayed: `createdAt?.seconds` is falsy when the
      timestamp or its seconds are missing and when they are zero, and then
      the text is "Just now"; otherwise the locale formatter (a parameter)
      gets the time in milliseconds. */
  function CreatedAtLabel(seconds: Option<int>, format: int -> string): (r: string)
    ensures seconds == None || seconds == Some(0) ==> r == JustNow
    ensures seconds.Some? && seconds.value != 0 ==> r == format(seconds.value * 1000)
  {
    match seconds
    case Some(s) => if s != 0 then format(s * 1000) else JustNow
    case None => JustNow
  }

  /** The label of a pitch saved `now` milliseconds after the epoch: the
      save time rounded down to the whole second, except that a save within
      the first second after the epoch stores zero seconds and reads
      "Just now". */
  lemma SavedTimeLabel(now: int, format: int -> string)
    ensures 0 <= now < 1000 ==> CreatedAtLabel(Some(StoredSeconds(now)), format) == JustNow
    ensures !(0 <= now < 1000) ==>
      CreatedAtLabel(Some(StoredSeconds(now)), format) == format(now - now % 1000)
  {
    assert StoredSeconds(now) * 1000 == now - now % 1000;
  }

  /** One card: each stored text when it is non-empty, its placeholder
      otherwise. No text field of a card is ever blank. */
  function CardView(p: SavedPitch, format: int -> string): (c: Card)
    ensures c.name != "" && c.tagline != "" && c.summary != ""
    ensures c.problem != "" && c.solution != "" && c.audience != ""
    ensures p.name.Some? && p.name.value != "" ==> c.name == p.name.value
    ensures p.tagline.Some? && p.tagline.value != "" ==> c.tagline == p.tagline.value
    ensures p.summary.Some? && p.summary.value != "" ==> c.summary == p.summary.value
    ensures p.problem.Some? && p.problem.value != "" ==> c.problem == p.problem.value
    ensures p.solution.Some? && p.solution.value != "" ==> c.solution == p.solution.value
    ensures p.audience.Some? && p.audience.value != "" ==> c.audience == p.audience.value
    ensures p.name == None || p.name == Some("") ==> c.name == UnnamedStartup
    ensures p.tagline == None || p.tagline == Some("") ==> c.tagline == NoTagline
    ensures p.summary == None || p.summary == Some("") ==> c.summary == NoSummary
    ensures p.problem == None || p.problem == Some("") ==> c.problem == Dash
    ensures p.solution == None || p.solution == Some("") ==> c.solution == Dash
    ensures p.audience == None || p.audience == Some("") ==> c.audience == Dash
    ensures c.createdAt == CreatedAtLabel(p.createdAtSeconds, format)
  {
    Card(Or(p.name, UnnamedStartup), Or(p.tagline, NoTagline), Or(p.summary, NoSummary),
         Or(p.problem, Dash), Or(p.solution, Dash), Or(p.audience, Dash),
         CreatedAtLabel(p.createdAtSeconds, format))
  }

  /** A placeholder is shown exactly when the value is missing, empty, or the
      placeholder text itself: a reader of the card cannot tell those apart. */
  lemma PlaceholderShownIff(field: Option<string>, placeholder: string)
    requires placeholder != ""
    ensures Or(field, placeholder) == placeholder
        <==> field == None || field == Some("") || field == Some(placeholder)
  {
  }

  /** The card of a reply that held no JSON: the whole reply is the summary,
      and every other field shows its placeholder. */
  lemma ProseReplyCard(text: string, now: int, format: int -> string)
    ensures var c := CardView(FromDocument(PitchForm.SummaryOnly(text), Some(StoredSeconds(now))), format);
      && c.name == UnnamedStartup && c.tagline == NoTagline
      && c.problem == Dash && c.solution == Dash && c.audience == Dash
      && (text != "" ==> c.summary == text)
      && (text == "" ==> c.summary == NoSummary)
  {
    var doc := PitchForm.SummaryOnly(text);
    assert StringField(doc, "name") == None;
    assert StringField(doc, "tagline") == None;
    assert StringField(doc, "problem") == None;
    assert StringField(doc, "solution") == None;
    assert StringField(doc, "audience") == None;
  }

  /** The fallback pitch names its startup under `startupName`, a key the
      dashboard does not read: stored as is, its card would be unnamed. */
  lemma FallbackPitchShowsUnnamed(pitch: Fallback.Pitch, seconds: Option<int>, format: int -> string)
    ensures CardView(FromDocument(Fallback.ToJson(pitch), seconds), format).name == UnnamedStartup
  {
  }

  /** A step of the PDF document: the bold heading, a field title, a field's
      wrapped lines, or saving under a file name. Coordinates are `(x, y)`. */
  datatype PdfOp =
    | Heading(text: string, x: int, y: int)
    | Title(text: string, x: int, y: int)
    | Body(lines: seq<string>, x: int, y: int)
    | SaveAs(fileName: string)

  /** `splitTextToSize(text, 170)`: jsPDF's line wrapping, a parameter. */
  type Wrap = string -> seq<string>

  const PdfHeading: string := "PitchCraft - AI Generated Pitch"
  const Margin: int := 20
  const FirstFieldY: int := 40
  const LineHeight: int := 7
  const FieldGap: int := 10
  const PdfSuffix: string := "_PitchCraft.pdf"

  /** The eight field titles, in the order they are drawn. */
  const Titles: seq<string> := [
    "\U{1F3F7}\U{FE0F} Startup Name:",
    "\U{1F4AC} Tagline:",
    "\U{1F9E0} Summary:",
    "\U{1F6A7} Problem:",
    "\U{1F4A1} Solution:",
    "\U{1F465} Audience:",
    "\U{1F310} Landing Copy:",
    "\U{1F552} Created At:"
  ]

  /** The contents of the eight fields, in the order of `Titles`. The last is
      the creation-time text, which is never missing. */
  function PdfContents(p: SavedPitch, format: int -> string): (cs: seq<Option<string>>)
    ensures |cs| == |Titles|
  {
    [p.name, p.tagline, p.summary, p.problem, p.solution, p.audience, p.landingCopy,
     Some(CreatedAtLabel(p.createdAtSeconds, format))]
  }

  /** `content || "—"`: the text a field's body is wrapped from. */
  function Content(c: Option<string>): (r: string)
    ensures c.Some? && c.value != "" ==> r == c.value
    ensures c == None || c == Some("") ==> r == Dash
  {
    Or(c, Dash)
  }

  /** Where field `k` starts: the cursor begins at 40 and each field moves it
      down by seven units per wrapped line plus a gap of ten. */
  function Cursor(contents: seq<Option<string>>, wrap: Wrap, k: nat): int
    requires k <= |contents|
  {
    if k == 0 then FirstFieldY
    else Cursor(contents, wrap, k - 1) + |wrap(Content(contents[k - 1]))| * LineHeight + FieldGap
  }

  /** The cursor only moves down, by at least the gap per field, so no two
      titles share a line. */
  lemma {:induction false} CursorMonotone(contents: seq<Option<string>>, wrap: Wrap, j: nat, k: nat)
    requires j <= k <= |contents|
    ensures Cursor(contents, wrap, k) >= Cursor(contents, wrap, j) + FieldGap * (k - j)
    decreases k - j
  {
    if j < k {
      CursorMonotone(contents, wrap, j, k - 1);
    }
  }

  /** Field `k` of the document: its title at the cursor, and its wrapped
      content six units below. */
  ghost predicate FieldDrawn(ops: seq<PdfOp>, contents: seq<Option<string>>, wrap: Wrap, k: nat)
    requires k < |contents| && k < |Titles|
  {
    && 2 + 2 * k < |ops|
    && ops[1 + 2 * k] == Title(Titles[k], Margin, Cursor(contents, wrap, k))
    && ops[2 + 2 * k] == Body(wrap(Content(contents[k])), Margin, Cursor(contents, wrap, k) + 6)
  }

  /** The download name: the startup name when it is non-empty, "Pitch"
      otherwise, followed by `_PitchCraft.pdf`. The name can be read back
      from the file name. */
  function FileName(name: Option<string>): (r: string)
    ensures |r| > |PdfSuffix| && r[|r| - |PdfSuffix|..] == PdfSuffix
    ensures name.Some? && name.value != "" ==> r[..|r| - |PdfSuffix|] == name.value
    ensures name == None || name == Some("") ==> r[..|r| - |PdfSuffix|] == "Pitch"
  {
    var stem := Or(name, "Pitch");
    var r := stem + PdfSuffix;
    assert r[..|stem|] == stem && r[|stem|..] == PdfSuffix;
    r
  }

  /** An unnamed pitch and one named "Pitch" download under the same name. */
  lemma UnnamedFileNameCollides()
    ensures FileName(None) == FileName(Some("")) == FileName(Some("Pitch"))
  {
  }

  /** `handleDownloadPDF(pitch)`: the heading, then the eight fields in their
      fixed order, each title at the running cursor and its body six units
      below, then the save. `y` is where the cursor ends. */
  method DownloadPdf(p: SavedPitch, wrap: Wrap, format: int -> string)
    returns (ops: seq<PdfOp>, y: int)
    ensures |ops| == 2 * |Titles| + 2
    ensures ops[0] == Heading(PdfHeading, Margin, 20)
    ensures forall k :: 0 <= k < |Titles| ==> FieldDrawn(ops, PdfContents(p, format), wrap, k)
    ensures ops[|ops| - 1] == SaveAs(FileName(p.name))
    ensures y == Cursor(PdfContents(p, format), wrap, |Titles|)
    ensures y >= FirstFieldY + FieldGap * |Titles|
  {
    var contents := PdfContents(p, format);
    ops := [Heading(PdfHeading, Margin, 20)];
    y := FirstFieldY;
    var i := 0;
    while i < |Titles|
      invariant 0 <= i <= |Titles|
      invariant |ops| == 1 + 2 * i
      invariant ops[0] == Heading(PdfHeading, Margin, 20)
      invariant y == Cursor(contents, wrap, i)
      invariant forall k :: 0 <= k < i ==> FieldDrawn(ops, contents, wrap, k)
    {
      var lines := wrap(Content(contents[i]));
      var next := ops + [Title(Titles[i], Margin, y), Body(lines, Margin, y + 6)];
      forall k | 0 <= k < i ensures FieldDrawn(next, contents, wrap, k) {
        assert FieldDrawn(ops, contents, wrap, k);
        assert next[1 + 2 * k] == ops[1 + 2 * k] && next[2 + 2 * k] == ops[2 + 2 * k];
      }
      ops := next;
      y := y + |lines| * LineHeight + FieldGap;
      i := i + 1;
    }
    var saved := ops + [SaveAs(FileName(p.name))];
    forall k | 0 <= k < |Titles| ensures FieldDrawn(saved, contents, wrap, k) {
      assert FieldDrawn(ops, contents, wrap, k);
      assert saved[1 + 2 * k] == ops[1 + 2 * k] && saved[2 + 2 * k] == ops[2 + 2 * k];
    }
    ops := saved;
    CursorMonotone(contents, wrap, 0, |Titles|);
  }
}
