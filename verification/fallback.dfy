/** `generateFallbackPitch` (src/service/googlegemini.js): the deterministic,
    network-free pitch built from the idea alone when generation fails. */
module Fallback {
  import opened JsValues
  import opened Text

  /** The `ideaData` object: `{ description: idea, industry, tone }`. */
  datatype IdeaData = IdeaData(description: string, industry: string, tone: string)

  /** The object `generateFallbackPitch` returns. */
  datatype Pitch = Pitch(startupName: string, tagline: string, elevatorPitch: string)

  const ProfessionalTagline: string := "Innovation Meets Excellence"

  /** The `taglines` table, keyed by tone. */
  const Taglines: map<string, string> := map[
    "professional" := ProfessionalTagline,
    "casual" := "Making Life Better",
    "innovative" := "Tomorrow's Solutions Today"
  ]

  /** The fixed words of the elevator-pitch template. */
  const TransformingWords: string := " is transforming the "
  const IndustryWords: string := " industry by "

  /** `description.split(" ").slice(0, 2).join("")`. */
  function StartupName(description: string): (r: string)
    ensures ' ' !in r
  {
    var words := Split(description, ' ');
    SplitDecomposes(description, ' ');
    var name := Take(words, 2);
    assert |name| == 1 ==> name[0] == words[0];
    assert |name| == 2 ==> name[0] == words[0] && name[1] == words[1];
    assert |name| == 2 ==> Concat(name) == name[0] + "" + Join(name[1..], "");
    Concat(name)
  }

  /** Whatever the space-separated words of the description are, the name is
      the first one alone when there is one word, and the first two run
      together otherwise. Empty words count: `"a  b"` has words `a`, ``, `b`. */
  lemma {:induction false} StartupNameOfWords(description: string, words: seq<string>)
    requires |words| >= 1
    requires SeparatorFree(words, ' ')
    requires Join(words, " ") == description
    ensures |words| == 1 ==> StartupName(description) == words[0]
    ensures |words| >= 2 ==> StartupName(description) == words[0] + words[1]
  {
    assert " " == [' '];
    SplitUnique(description, ' ', words);
    var name := Take(words, 2);
    if |words| >= 2 {
      assert name == [words[0], words[1]];
      assert name[1..] == [words[1]];
      assert Join(name[1..], "") == words[1];
      assert Concat(name) == words[0] + "" + words[1];
    }
  }

  /** A description without a space is its own name; in particular the empty
      description gives the empty name. */
  lemma StartupNameOfOneWord(description: string)
    requires ' ' !in description
    ensures StartupName(description) == description
  {
    StartupNameOfWords(description, [description]);
  }

  /** A description made of spaces only is not empty, but its name is: the
      code does not reject such an idea. */
  lemma SpacesOnlyGiveEmptyName()
    ensures StartupName(" ") == ""
  {
    StartupNameOfWords(" ", ["", ""]);
  }

  /** `taglines[tone] || taglines.professional`. */
  function Tagline(tone: string): (r: string)
    ensures tone in Taglines ==> r == Taglines[tone]
    ensures tone !in Taglines ==> r == ProfessionalTagline
  {
    var entry := if tone in Taglines then Some(Taglines[tone]) else None;
    Or(entry, Taglines["professional"])
  }

  /** The tagline of every tone the application knows of. The input form also
      offers "fun" and "motivational", which the table lacks, so they get the
      professional tagline. */
  lemma TaglineByTone(tone: string)
    ensures tone == "professional" ==> Tagline(tone) == "Innovation Meets Excellence"
    ensures tone == "casual" ==> Tagline(tone) == "Making Life Better"
    ensures tone == "innovative" ==> Tagline(tone) == "Tomorrow's Solutions Today"
    ensures tone == "fun" || tone == "motivational" ==> Tagline(tone) == "Innovation Meets Excellence"
    ensures Tagline(tone) in Taglines.Values
  {
    assert "fun" !in Taglines && "motivational" !in Taglines;
    assert "professional" in Taglines;
  }

  /** The template sentence `${startupName} is transforming the ${industry}
      industry by ${description}.`: each input sits verbatim at a position
      fixed by the lengths of the inputs before it. */
  function ElevatorPitch(name: string, industry: string, description: string): (r: string)
    ensures |r| == |name| + |TransformingWords| + |industry| + |IndustryWords| + |description| + 1
    ensures OccursAt(r, name, 0)
    ensures OccursAt(r, TransformingWords, |name|)
    ensures OccursAt(r, industry, |name| + |TransformingWords|)
    ensures OccursAt(r, IndustryWords, |name| + |TransformingWords| + |industry|)
    ensures OccursAt(r, description, |name| + |TransformingWords| + |industry| + |IndustryWords|)
    ensures r[|r| - 1] == '.'
  {
    SixPiecesOccur(name, TransformingWords, industry, IndustryWords, description, ".");
    name + TransformingWords + industry + IndustryWords + description + "."
  }

  /** `generateFallbackPitch(ideaData)`: total and deterministic; it never
      fails, whatever the strings are. */
  function GenerateFallbackPitch(idea: IdeaData): (p: Pitch)
    ensures p.startupName == StartupName(idea.description)
    ensures p.tagline == Tagline(idea.tone)
    ensures ' ' !in p.startupName
    ensures p.tagline in Taglines.Values
    ensures p.elevatorPitch == ElevatorPitch(p.startupName, idea.industry, idea.description)
    ensures OccursAt(p.elevatorPitch, idea.description, |p.elevatorPitch| - 1 - |idea.description|)
  {
    var name := StartupName(idea.description);
    TaglineByTone(idea.tone);
    Pitch(name, Tagline(idea.tone), ElevatorPitch(name, idea.industry, idea.description))
  }

  /** The plain object the JavaScript returns, as a JSON value. Reading its
      properties back gives the three fields; it has no `name` property, the
      key the dashboard displays. */
  function ToJson(p: Pitch): (r: Json)
    ensures StringField(r, "startupName") == Some(p.startupName)
    ensures StringField(r, "tagline") == Some(p.tagline)
    ensures StringField(r, "elevatorPitch") == Some(p.elevatorPitch)
    ensures StringField(r, "name") == None
  {
    JObject(map[
      "startupName" := JString(p.startupName),
      "tagline" := JString(p.tagline),
      "elevatorPitch" := JString(p.elevatorPitch)
    ])
  }

  /** Only the first two words matter: whatever follows the second space
      is dropped. */
  lemma StartupNameOfTwoWords(w0: string, w1: string, tail: string)
    requires ' ' !in w0 && ' ' !in w1
    ensures StartupName(w0 + " " + w1 + " " + tail) == w0 + w1
  {
    assert " " == [' '];
    var rest := Split(tail, ' ');
    SplitAfterFirstSeparator(w1, tail, ' ');
    assert w0 + " " + w1 + " " + tail == w0 + [' '] + (w1 + [' '] + tail);
    SplitAfterFirstSeparator(w0, w1 + [' '] + tail, ' ');
    var words := [w0] + ([w1] + rest);
    assert Take(words, 2) == [w0, w1];
    assert [w0, w1][1..] == [w1];
    assert Join([w1], "") == w1;
    assert Concat([w0, w1]) == w0 + "" + Join([w1], "");
  }

  /** The name of the worked example: its first two words, "app" and "for". */
  lemma WorkedName(description: string)
    requires description == "app for student mentors"
    ensures StartupName(description) == "appfor"
  {
    WorkedIdeaWords();
    StartupNameOfTwoWords("app", "for", "student mentors");
  }

  /** The worked example's idea, cut at its first two spaces. */
  lemma WorkedIdeaWords()
    ensures "app" + " " + "for" + " " + "student mentors" == "app for student mentors"
  {
  }

  /** The worked example's sentence, built up piece by piece: each step is
      one concatenation of literals, kept apart so that no single proof has
      to compare the whole sentence at once. */
  lemma WorkedSentence1()
    ensures "appfor" + TransformingWords == "appfor is transforming the "
  {
  }

  lemma WorkedSentence2()
    ensures "appfor is transforming the " + "Education" == "appfor is transforming the Education"
  {
  }

  lemma WorkedSentence3()
    ensures "appfor is transforming the Education" + IndustryWords
         == "appfor is transforming the Education industry by "
  {
  }

  lemma WorkedSentence4()
    ensures "appfor is transforming the Education industry by " + "app for student mentors"
         == "appfor is transforming the Education industry by app for student mentors"
  {
  }

  lemma WorkedSentence5()
    ensures "appfor is transforming the Education industry by app for student mentors" + "."
         == "appfor is transforming the Education industry by app for student mentors."
  {
  }

  /** The sentence of the worked example. */
  lemma WorkedSentence()
    ensures ElevatorPitch("appfor", "Education", "app for student mentors")
         == "appfor is transforming the Education industry by app for student mentors."
  {
    WorkedSentence1();
    WorkedSentence2();
    WorkedSentence3();
    WorkedSentence4();
    WorkedSentence5();
  }

  /** The worked example: the first two words run together for the name, the
      casual tagline, and the template sentence. */
  lemma WorkedExample(description: string)
    requires description == "app for student mentors"
    ensures GenerateFallbackPitch(IdeaData(description, "Education", "casual"))
         == Pitch("appfor", "Making Life Better",
                  "appfor is transforming the Education industry by app for student mentors.")
  {
    WorkedName(description);
    WorkedSentence();
    TaglineByTone("casual");
  }
}
