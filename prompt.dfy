/**
 * The prompt sent to the language model: a fixed introduction, one line per
 * field of the brief (a placeholder standing in for every field left empty),
 * then fixed style rules and the JSON schema the answer must follow.
 */
module Prompt {
  import opened Wrappers
  import opened PyText

  /** What the user asked for. A text field is `None` when not given; `Some("")` is an empty entry. */
  datatype Brief = Brief(
    genre: Option<string>,
    mood: Option<string>,
    topic: Option<string>,
    key: Option<string>,
    tempo: Option<int>,
    language: Option<string>,
    structure: Option<string>,
    rhyme: Option<string>,
    syllables: Option<string>)

  /** Python's `x or placeholder` for an optional string. */
  function ShowText(x: Option<string>, placeholder: string): string
  {
    if x.Some? && x.value != [] then x.value else placeholder
  }

  /** Python's `tempo or "best fit"`: a tempo of 0 counts as not given. */
  function ShowTempo(t: Option<int>): string
  {
    if t.Some? && t.value != 0 then IntToStr(t.value) else "best fit"
  }

  /** The structure assumed when the brief names none. */
  const DefaultStructure := "verse, chorus, verse, chorus, bridge, chorus"

  /** The lines that list the brief, in their fixed order. */
  function BriefLines(b: Brief): seq<string>
  {
    [ "- Genre: " + ShowText(b.genre, "any"),
      "- Mood: " + ShowText(b.mood, "any"),
      "- Topic: " + ShowText(b.topic, "surprise me"),
      "- Language: " + ShowText(b.language, "English"),
      "- Key: " + ShowText(b.key, "best fit"),
      "- Tempo (BPM): " + ShowTempo(b.tempo),
      "- Structure: " + ShowText(b.structure, DefaultStructure),
      "- Rhyme scheme: " + ShowText(b.rhyme, "flexible"),
      "- Syllable count (target): " + ShowText(b.syllables, "flexible") ]
  }

  /** The text before the brief, up to and including the line "Brief:". */
  const PromptIntro: string :=
    "You are an award-winning songwriter and music theorist.\n"
    + "Write a cohesive *song package* based on the brief. The output **must be valid JSON** matching the schema below.\n"
    + "\n"
    + "Brief:\n"

  /** The text after the brief: style rules, the chord notation to use and the JSON schema. */
  const PromptRules: string :=
    "\n"
    + "\n"
    + "Rules:\n"
    + "- Keep it singable. Natural phrasing. Avoid forced rhymes.\n"
    + "- Ensure the chord progression matches the specified (or chosen) key.\n"
    + "- If chords imply modal interchange or borrowed chords, keep it tasteful.\n"
    + "- Write lyrics section-by-section following the structure. Avoid placeholders.\n"
    + "- Provide melodic guidance as a simple contour or solfege phrase (e.g., \"mi fa so la so\").\n"
    + "- JSON only. No backticks, no commentary.\n"
    + "- - Only return chords in **Music21-compatible notation**:\n"
    + "    - Minor: use 'm' (e.g., Dm, Em7)\n"
    + "    - Major triads: just the note letter (e.g., C, G)\n"
    + "    - Seventh chords: use 7 (e.g., C7, G7, Em7)\n"
    + "    - Sus, diminished, augmented chords are allowed as: sus2, sus4, dim, aug\n"
    + "    - Avoid words like 'min', 'maj', or any modifiers Music21 cannot parse\n"
    + "- Do NOT include section labels or commentary in chord names.\n"
    + "- Use | to separate chords in the progression.\n"
    + "\n"
    + "JSON schema (keys and types must match exactly):\n"
    + "{\n"
    + "  \"title\": \"string\",\n"
    + "  \"logline\": \"string\",\n"
    + "  \"meta\": {\n"
    + "    \"genre\": \"string\",\n"
    + "    \"mood\": \"string\",\n"
    + "    \"topic\": \"string\",\n"
    + "    \"language\": \"string\",\n"
    + "    \"key\": \"string\",\n"
    + "    \"tempo_bpm\": \"integer\",\n"
    + "    \"structure\": \"string\"\n"
    + "  },\n"
    + "  \"lyrics\": {\n"
    + "    \"intro\": \"string (optional, can be empty)\",\n"
    + "    \"verse_1\": \"string\",\n"
    + "    \"pre_chorus_1\": \"string (optional, can be empty)\",\n"
    + "    \"chorus\": \"string\",\n"
    + "    \"verse_2\": \"string (optional, can be empty)\",\n"
    + "    \"pre_chorus_2\": \"string (optional, can be empty)\",\n"
    + "    \"bridge\": \"string (optional, can be empty)\",\n"
    + "    \"outro\": \"string (optional, can be empty)\"\n"
    + "  },\n"
    + "  \"musical_ideas\": {\n"
    + "    \"chord_progression\": \"string (e.g., C | Am | F | G)\",\n"
    + "    \"strumming_pattern\": \"string (e.g., D D U U D U, or \"4 on the floor\")\",\n"
    + "    \"melodic_hint\": \"string (solfege or contour like ^1-^3-^4-^5)\"\n"
    + "  },\n"
    + "  \"production_notes\": \"string\"\n"
    + "}\n"

  /** The prompt text for a brief. */
  function BuildPrompt(b: Brief): string
  {
    PromptIntro + Join(BriefLines(b), "\n") + PromptRules
  }

  /** A text field shows its placeholder exactly when it is missing or empty, or is itself the
      placeholder text. */
  lemma ShowTextIsPlaceholder(x: Option<string>, placeholder: string)
    ensures ShowText(x, placeholder) == placeholder <==> (x.None? || x.value == [] || x.value == placeholder)
  {
  }

  /** The tempo shows "best fit" exactly when it is missing or 0: a number never prints as those words. */
  lemma ShowTempoIsBestFit(t: Option<int>)
    ensures ShowTempo(t) == "best fit" <==> (t.None? || t.value == 0)
  {
    if t.Some? && t.value != 0 {
      var s := IntToStr(t.value);
      assert IsDigit(s[0]) || s[0] == '-';
    }
  }

  /** The labelled line of a field reads "label: placeholder" exactly when the field shows its placeholder. */
  lemma LabelledLine(head: string, shown: string, placeholder: string)
    ensures head + shown == head + placeholder <==> shown == placeholder
  {
    if head + shown == head + placeholder {
      assert shown == (head + shown)[|head|..];
    }
  }

  /** The brief lines for genre, mood and topic show the placeholder exactly where the field is falsy (or is
      literally the placeholder). */
  lemma BriefPlaceholdersWhat(b: Brief)
    ensures BriefLines(b)[0] == "- Genre: any"
            <==> (b.genre.None? || b.genre.value == "" || b.genre.value == "any")
    ensures BriefLines(b)[1] == "- Mood: any"
            <==> (b.mood.None? || b.mood.value == "" || b.mood.value == "any")
    ensures BriefLines(b)[2] == "- Topic: surprise me"
            <==> (b.topic.None? || b.topic.value == "" || b.topic.value == "surprise me")
  {
    LabelledLine("- Genre: ", ShowText(b.genre, "any"), "any");
    ShowTextIsPlaceholder(b.genre, "any");
    LabelledLine("- Mood: ", ShowText(b.mood, "any"), "any");
    ShowTextIsPlaceholder(b.mood, "any");
    LabelledLine("- Topic: ", ShowText(b.topic, "surprise me"), "surprise me");
    ShowTextIsPlaceholder(b.topic, "surprise me");
  }

  /** The brief lines for language, key and tempo show the placeholder exactly where the field is falsy (or is
      literally the placeholder). */
  lemma BriefPlaceholdersHow(b: Brief)
    ensures BriefLines(b)[3] == "- Language: English"
            <==> (b.language.None? || b.language.value == "" || b.language.value == "English")
    ensures BriefLines(b)[4] == "- Key: best fit"
            <==> (b.key.None? || b.key.value == "" || b.key.value == "best fit")
    ensures BriefLines(b)[5] == "- Tempo (BPM): best fit" <==> (b.tempo.None? || b.tempo.value == 0)
  {
    LabelledLine("- Language: ", ShowText(b.language, "English"), "English");
    ShowTextIsPlaceholder(b.language, "English");
    LabelledLine("- Key: ", ShowText(b.key, "best fit"), "best fit");
    ShowTextIsPlaceholder(b.key, "best fit");
    TempoLine(b);
  }

  lemma TempoLine(b: Brief)
    ensures BriefLines(b)[5] == "- Tempo (BPM): best fit" <==> (b.tempo.None? || b.tempo.value == 0)
  {
    LabelledLine("- Tempo (BPM): ", ShowTempo(b.tempo), "best fit");
    ShowTempoIsBestFit(b.tempo);
  }

  /** The brief lines for structure, rhyme scheme and syllable target show the placeholder exactly where the field is falsy (or is
      literally the placeholder). */
  lemma BriefPlaceholdersForm(b: Brief)
    ensures BriefLines(b)[6] == "- Structure: " + DefaultStructure
            <==> (b.structure.None? || b.structure.value == "" || b.structure.value == DefaultStructure)
    ensures BriefLines(b)[7] == "- Rhyme scheme: flexible"
            <==> (b.rhyme.None? || b.rhyme.value == "" || b.rhyme.value == "flexible")
    ensures BriefLines(b)[8] == "- Syllable count (target): flexible"
            <==> (b.syllables.None? || b.syllables.value == "" || b.syllables.value == "flexible")
  {
    LabelledLine("- Structure: ", ShowText(b.structure, DefaultStructure), DefaultStructure);
    ShowTextIsPlaceholder(b.structure, DefaultStructure);
    LabelledLine("- Rhyme scheme: ", ShowText(b.rhyme, "flexible"), "flexible");
    ShowTextIsPlaceholder(b.rhyme, "flexible");
    LabelledLine("- Syllable count (target): ", ShowText(b.syllables, "flexible"), "flexible");
    ShowTextIsPlaceholder(b.syllables, "flexible");
  }
}
