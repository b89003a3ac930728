# Song writing helper: verified model of its text core

The song writing helper asks a language model for a *song package*. The package is a JSON object
with a title, a logline, metadata, lyrics sections, musical ideas and production notes. Two files
are modelled here:

- `songwriter.py`:
  - builds the prompt from the user's brief;
  - recovers the JSON object from the model's answer, re-parsing the brace span once when the strict
    parse fails;
  - fills in the metadata the answer left out;
  - renders the package as Markdown.
- `writer_ui.py`:
  - filters the chord progression down to valid chord names;
  - lays those chords out as piano notes, one 2-second slot per chord;
  - turns a title into a file name;
  - formats the lyrics for display;
  - cuts the Lyrics section out of the Markdown.

The modules follow that split:

| module | what it models |
|---|---|
| `Wrappers` | `Option` and `Result` |
| `PyText` | the Python `str` operations the code relies on (ASCII): `strip`, `split`, `find`/`rfind`, `title`, `capitalize`, `replace`, `str(int)` |
| `JsonValue` | values as `json.loads` returns them, with Python truthiness, `dict.get` and `str()`; a dict is an ordered list of entries, so insertion order is kept |
| `Prompt` | `build_prompt` |
| `Normalizer` | `try_parse` and the `setdefault` block of `generate_package`; the dicts updated in place are a class `Dict` |
| `Markdown` | `to_markdown`, as a method that grows `parts`, proved equal to a functional rendering whose properties are lemmas |
| `ChordFilter` | the chord-token comprehension and the checks before a MIDI export |
| `MidiLayout` | the note loop over the tokens, appending to a piano track (a class) |
| `UiText` | `clean_filename`, the lyrics display loop and the Lyrics-stripping substitution |

Behaviour of the code worth knowing, as the model states it:

- `Normalizer.TryParse`: when the strict parse fails and the brace span also fails to parse, the
  error raised inside the `except` block escapes, so the caller sees the *second* decode error.
- `Normalizer.MetaDefaults` fills seven keys, in this order: genre, mood, topic, language, key,
  tempo_bpm and structure.
- `Normalizer.WithDefault`: `setdefault` fills a key only when it is *absent*. A present key with an
  empty or `null` value is kept.
- `UiText.SectionToEnd`: in `re.sub(r'## Lyrics[\s\S]*?(?=## Production Notes|$)', ...)` without
  MULTILINE, `$` also matches just before a final newline. A Lyrics section that runs to the end
  therefore leaves that final `"\n"` in place.
- `MidiLayout.SlotNote`: note times are pretty_midi seconds; the code's comment calls each 2-unit
  slot "2 beats".

## Model

Rows marked (definition) state what a Python primitive does; other rows prove what follows
from it.

| member | source | states |
|---|---|---|
| PyText.Strip | writer_ui.py:144 | the result is the slice of the input between leading and trailing white space, which is all that is removed; the result neither starts nor ends with white space |
| PyText.StripEmptyIffAllSpace | writer_ui.py:31 | `s.strip()` is empty exactly when every character of `s` is white space |
| PyText.StripIdempotent | writer_ui.py:96 | stripping a stripped string changes nothing |
| PyText.Find | songwriter.py:143 | `find` gives -1 exactly when the character is absent, otherwise the index of its first occurrence |
| PyText.RFind | songwriter.py:144 | `rfind` gives -1 exactly when the character is absent, otherwise the index of its last occurrence |
| PyText.Split | writer_ui.py:40 | `split` never returns an empty list, no piece holds the separator, and joining the pieces with it gives the input back |
| PyText.SplitJoin | writer_ui.py:40 | splitting a join of separator-free pieces gives the pieces back |
| PyText.SplitAround | writer_ui.py:40 | the pieces of `a + sep + b` are the pieces of `a` followed by those of `b` |
| PyText.TitleAfterExact | songwriter.py:29 | character i of `str.title` is lower-cased right after a letter and upper-cased otherwise |
| PyText.TitleLower | songwriter.py:51 | `str.title` changes only the case of letters |
| PyText.Capitalize | writer_ui.py:146 | `str.capitalize` keeps the length and the letters, the first character is not lower-case, and no later character is upper-case |
| PyText.ReplaceChar | writer_ui.py:96 | `replace` keeps the length, puts the new character exactly where the old one stood, and leaves every other character alone |
| PyText.IntToStr | songwriter.py:68 | `str(i)` is non-empty and made of decimal digits after an optional `-`; it starts with `-` exactly when `i` is negative, and reading the digits back (negated after a `-`) gives `i`; there is no leading zero except in `"0"` itself, so the text is the one `str(i)` gives |
| PyText.NatToStrRoundTrip | songwriter.py:68 | reading the decimal digits of `str(n)` gives `n` back |
| JsonValue.Lookup | songwriter.py:27 | a lookup finds a value exactly when the key is among the dict's keys |
| JsonValue.LookupFirst | songwriter.py:27 | a present key has a first entry, and the value found is that entry's value |
| JsonValue.Get | songwriter.py:27 | (definition) `d.get(k, default)` is the default for an absent key and the stored value for a present one |
| JsonValue.ReprString | songwriter.py:22 | `repr` of a string is wrapped in one kind of quote, the same at both ends, and that quote is `"` exactly when the string holds a `'` and no `"` |
| JsonValue.EscapeCharShape | songwriter.py:22 | a character is printed as it is exactly when it is plain; any other character is printed as a backslash escape, and the chosen quote appears only as the `\'` or `\"` escape |
| JsonValue.EscapeCharRoundTrip | songwriter.py:22 | each character's escape reads back as that character |
| JsonValue.EscapeRoundTrip | songwriter.py:22 | the escaped text of a string reads back as the string |
| JsonValue.ReprRoundTrip | songwriter.py:22 | the inside of `repr(s)`'s quotes reads back as `s` |
| JsonValue.QuoteEscaped | songwriter.py:22 | inside the quotes, the chosen quote appears only right after a backslash, so it never closes the literal early |
| JsonValue.ReprStringPlain | songwriter.py:22 | a string with no quote, backslash or escaped character is shown between single quotes unchanged |
| JsonValue.EscapeAppend | songwriter.py:22 | `repr` escapes character by character: the escape of `a + b` is the escape of `a` followed by that of `b` |
| JsonValue.ReprControl | songwriter.py:22 | a title `["\x01"]` is shown as `['\x01']`, with the control character written as a `\xNN` escape |
| Prompt.ShowTextIsPlaceholder | songwriter.py:63-71 | `x or placeholder` shows the placeholder exactly when `x` is missing, empty, or the placeholder itself |
| Prompt.ShowTempoIsBestFit | songwriter.py:68 | the tempo line reads "best fit" exactly when the tempo is missing or 0, because a number never prints as those words |
| Prompt.BriefPlaceholdersWhat | songwriter.py:63-65 | the genre, mood and topic lines show "any", "any" and "surprise me" exactly when the field is falsy or equals the placeholder |
| Prompt.BriefPlaceholdersHow | songwriter.py:66-68 | the language, key and tempo lines show "English", "best fit" and "best fit" exactly when the field is falsy, equals the placeholder, or is a tempo of 0 |
| Prompt.BriefPlaceholdersForm | songwriter.py:69-71 | the structure, rhyme and syllable lines show the default structure and "flexible" exactly when the field is falsy or equals the placeholder |
| Normalizer.BraceSpan | songwriter.py:143-146 | there is no span exactly when there is no `{`, or no `}` after the first `{`; otherwise the span is the slice from the first `{` to the last `}` inclusive, and no `}` follows it |
| Normalizer.TryParse | songwriter.py:138-147 | a strict parse that succeeds is returned as is; with no brace span the strict error escapes; otherwise the brace span's parse is returned, its error escaping when it fails; any success comes from the strict parse or from the brace span |
| Normalizer.TryParseRecovers | songwriter.py:138-147 | noise with no `{` before the payload and no `}` after it is dropped: the result is exactly the payload's own parse, success or error |
| Normalizer.WithDefault | songwriter.py:151 | (definition) `setdefault` leaves a dict that has the key unchanged and otherwise appends the key with the default |
| Normalizer.WithDefaultLookup | songwriter.py:151 | after `setdefault` the key is bound (to its old value if it had one), every other key is bound as before, and existing entries keep their order |
| Normalizer.Assign | songwriter.py:152-159 | the metadata dict, updated through its alias `m`, is bound under `meta`: the key gets the new value, every other binding is kept, and the key order is kept when the key was present |
| Normalizer.MetaDefaultsKeys | songwriter.py:153-159 | the defaults table names exactly the seven metadata keys, in fill order, each once |
| Normalizer.FillFromKeeps | songwriter.py:153-159 | a key already present keeps its value, even a falsy one, and a key the table does not name is untouched |
| Normalizer.FillFromExtends | songwriter.py:153-159 | existing entries keep their place, and at most one entry per table row is appended |
| Normalizer.FillFromComplete | songwriter.py:153-159 | after filling, every key of the table is present, and a key that was missing holds the table's value |
| Normalizer.FillFromNothingMissing | songwriter.py:153-159 | a dict that already has every key of the table is returned unchanged |
| Normalizer.FillMetaComplete | songwriter.py:153-159 | after defaulting, all seven keys are present; a missing one holds the brief's value when it is truthy and the fixed default ("unspecified", "English", "TBD", 0, "V-C-V-C-B-C") otherwise; everything else is kept |
| Normalizer.FillMetaIdempotent | songwriter.py:153-159 | defaulting twice, even from another brief, gives the same metadata as defaulting once |
| Normalizer.NormalizeErrors | songwriter.py:151-153 | defaulting fails exactly when the parsed value is not an object, or its `meta` is present but not an object, and names the type that lacks `setdefault` |
| Normalizer.NormalizeResult | songwriter.py:151-160 | on success `meta` holds the filled-in metadata and every other top-level key keeps its value |
| Normalizer.NormalizeIdempotent | songwriter.py:151-160 | defaulting a defaulted package, from any brief, gives it back unchanged |
| Normalizer.NormalizeFolkExample | songwriter.py:151-160 | an answer holding only a title keeps its title and gains `meta` filled in from scratch |
| Normalizer.FolkMetaFromBrief | songwriter.py:153-158 | for a folk brief at 90 BPM, genre and tempo come from the brief |
| Normalizer.FolkMetaDefaults | songwriter.py:154-157 | for the same brief, mood and key take "unspecified" and "TBD" |
| Normalizer.Dict.SetDefault | songwriter.py:151 | the dict becomes its `setdefault` update, and the value returned is the one now stored under the key |
| Normalizer.Dict.Put | songwriter.py:152-159 | the package dict becomes its update with the filled metadata under `meta` |
| Normalizer.FillMetaInPlace | songwriter.py:153-159 | the seven in-place `setdefault` calls leave the metadata dict equal to the functional defaulting of its old contents |
| Normalizer.SetDefaultRow | songwriter.py:153-159 | each call moves the dict one row further along the defaults table |
| Normalizer.GeneratePackage | songwriter.py:138-160 | parse, then default in place: the result equals the functional model, errors included |
| Markdown.ToMarkdown | songwriter.py:20-55 | the imperative rendering returns exactly the functional rendering, or the same exception |
| Markdown.CollectDetails | songwriter.py:25-30 | the loop over the seven keys yields exactly the functional Details lines |
| Markdown.AppendIdeas | songwriter.py:39-45 | appends exactly the Musical Ideas block |
| Markdown.AppendLyrics | songwriter.py:49-51 | appends exactly the Lyrics heading and one entry per section |
| Markdown.MarkdownErrors | songwriter.py:24-54 | `to_markdown` raises exactly when `meta` is not a dict, a truthy logline or production notes value is not a string, or truthy musical ideas or lyrics are not a dict |
| Markdown.MarkdownOrder | songwriter.py:21-54 | the first part is the title, and the parts are grouped by section in the fixed order |
| Markdown.MarkdownSections | songwriter.py:31-54 | each section is present exactly when its source is truthy (Details: some metadata value is truthy); the Musical Ideas and Lyrics headings appear whenever their mapping is non-empty, even with no line under them |
| Markdown.DetailsPresent | songwriter.py:31-32 | the Details block is there exactly when some metadata value is truthy |
| Markdown.DetailLinesExact | songwriter.py:26-30 | Details has a line for each truthy metadata value and no other line, and is empty exactly when no value is truthy (so a tempo of 0 is never listed) |
| Markdown.DetailLinesInOrder | songwriter.py:26-30 | the Details lines are, in this order, those of genre, mood, topic, key, tempo_bpm, language and structure, each present exactly when its value is truthy |
| Markdown.DetailLinesAppend | songwriter.py:26-30 | the loop over the keys lists lines in key order: keys `a` then `b` give the lines of `a` followed by those of `b` |
| Markdown.DetailLabels | songwriter.py:29 | the labels are "Genre", "Mood", "Topic", "Key", "Tempo Bpm", "Language" and "Structure" |
| Markdown.TempoLabel | songwriter.py:29 | `tempo_bpm` is labelled "Tempo Bpm" |
| Markdown.LabelOf | songwriter.py:29 | a key's label is the title-casing of the key with `_` turned into spaces |
| Markdown.LyricsEntriesExact | songwriter.py:50-51 | one `### ` entry per lyrics section, in mapping order, built from that section's name and text |
| Markdown.Fallbacks | songwriter.py:22 | "Untitled" and "?" appear only for an absent title or key; an empty one is shown empty |
| Markdown.LyricsDefault | songwriter.py:47-48 | `pkg.get("lyrics", {})` and `pkg.get("lyrics")` agree on truthiness and, when truthy, on the value |
| ChordFilter.UnifySeparators | writer_ui.py:40 | (definition) `|`, `;` and `&` become `,` and nothing else changes |
| ChordFilter.Clean | writer_ui.py:39 | only word characters, `#` and `b` remain, every such character of the input is still there, and nothing is added |
| ChordFilter.CleanOne | writer_ui.py:39 | a single character is kept exactly when it is a word character, `#` or `b` |
| ChordFilter.CleanAppend | writer_ui.py:39 | cleaning `a + b` is cleaning `a` followed by cleaning `b`, so the kept characters stay in order |
| ChordFilter.MatchesChordIff | writer_ui.py:37 | the left-to-right reading of `VALID_CHORD_RE` accepts exactly the grammar: a root A-G, an optional `#`/`b`, an optional quality, then digits, all ignoring case |
| ChordFilter.QualityStarts | writer_ui.py:37 | no quality begins with `#` or `b`, so an accidental after the root is always taken |
| ChordFilter.KeepChords | writer_ui.py:38-42 | never more tokens than pieces |
| ChordFilter.KeepChordsSound | writer_ui.py:38-42 | each token is a non-blank piece, stripped and cleaned, that reads as a chord name |
| ChordFilter.KeepChordsAppend | writer_ui.py:38-42 | the filter works piece by piece, so order is preserved |
| ChordFilter.ChordTokensSound | writer_ui.py:38-42 | every token is in the chord grammar and made of kept characters; there are at most as many tokens as pieces |
| ChordFilter.SeparatorsActLikeComma | writer_ui.py:40 | writing a `,` in place of a `|`, `;` or `&` changes no token |
| ChordFilter.ChordTokensAppend | writer_ui.py:40 | the tokens of `a,b` are the tokens of `a` followed by those of `b` |
| ChordFilter.ChordTokensAround | writer_ui.py:40 | the same for any of the four separators |
| ChordFilter.SinglePiece | writer_ui.py:39-41 | a piece without separators gives at most one token: itself, stripped and cleaned, when that is a chord |
| ChordFilter.PaddedChord | writer_ui.py:39-41 | a clean chord name padded with spaces gives itself as its one token |
| ChordFilter.RootThenDigits | writer_ui.py:37-41 | a root letter A-G followed only by digits, padded with spaces, is one token |
| ChordFilter.ExampleProgression | writer_ui.py:38-42 | "C \| Am \| Xz9 \| G7", with any separator in each place, gives ["C", "Am", "G7"] |
| ChordFilter.ProgressionRender | writer_ui.py:31-47 | a string progression is exported exactly when it has a valid chord, and then with exactly its tokens, each in the grammar |
| ChordFilter.ExportDecisionRender | writer_ui.py:25-47 | the export goes ahead exactly when there is a package whose musical ideas are a dict holding a string progression with at least one valid chord |
| ChordFilter.BlankHasNoTokens | writer_ui.py:31 | a blank progression has no token, so that check only changes the message |
| MidiLayout.SlotNote | writer_ui.py:69-74 | (definition) the note of slot n starts at 2n, ends at 2n + 2, has velocity 100 and the given pitch |
| MidiLayout.ChordNotes | writer_ui.py:67-75 | a chord adds at most one note per note name |
| MidiLayout.AddChords | writer_ui.py:64-77 | the loop appends exactly the layout of the tokens from slot 0 and leaves the program alone |
| MidiLayout.AddToken | writer_ui.py:65-77 | one pass appends the token's notes, or nothing when the chord library rejects the name |
| MidiLayout.AddChordNotes | writer_ui.py:67-75 | the note loop appends one note per name up to the first name that cannot be numbered |
| MidiLayout.RenderPiano | writer_ui.py:60-77 | a fresh track with program 0 ("Acoustic Grand Piano") holding exactly the layout |
| MidiLayout.ChordNotesOnSlot | writer_ui.py:69-74 | every note of a chord lies on its slot [2n, 2n + 2) at velocity 100 |
| MidiLayout.ChordNotesComplete | writer_ui.py:67-75 | when every name can be numbered, note i has the pitch of name i |
| MidiLayout.LayoutAppend | writer_ui.py:64 | laying out `a + b` is laying out `a`, then `b` from the slots after `a` |
| MidiLayout.RejectedToken | writer_ui.py:76-77 | a rejected token adds nothing and later tokens keep their slot index |
| MidiLayout.LayoutSlots | writer_ui.py:64-75 | every note belongs to one token and lies on that token's slot |
| MidiLayout.LayoutOrdered | writer_ui.py:64-75 | start times never decrease, and every note lies within the slots of the tokens |
| UiText.CollapseRuns | writer_ui.py:95 | no forbidden character survives, and the text never grows |
| UiText.CollapseRun | writer_ui.py:95 | a run of forbidden characters becomes a single `_` |
| UiText.CollapseAppend | writer_ui.py:95 | text split where no run is cut is collapsed part by part |
| UiText.MaximalRun | writer_ui.py:95 | a maximal run between other characters becomes one `_`, and the text around it is collapsed on its own |
| UiText.CollapseClean | writer_ui.py:95 | text without forbidden characters is left alone |
| UiText.CleanFilenameClean | writer_ui.py:94-96 | a cleaned name has no forbidden character, no space, and no white space at either end |
| UiText.CleanFixed | writer_ui.py:94-96 | a name that is already clean is its own clean name |
| UiText.CleanIdempotent | writer_ui.py:94-96 | cleaning twice equals cleaning once |
| UiText.ShowLyrics | writer_ui.py:140-148 | the display is the section loop for a dict and `str(lyrics)` otherwise, as the functional model says |
| UiText.ShowSections | writer_ui.py:143-146 | the loop's text, or its first exception, equals the functional model |
| UiText.Then | writer_ui.py:143-146 | (definition) two steps in sequence succeed exactly when both do, the texts concatenate, and the first exception wins |
| UiText.SectionsShownAppend | writer_ui.py:143-146 | sections are shown in mapping order: the display of `a + b` is that of `a` followed by that of `b` |
| UiText.OneSection | writer_ui.py:144-146 | a section shows as `capitalize(name) + ":\n" + stripped text + "\n\n"`, or as nothing when its text is blank |
| UiText.BlankSectionSkipped | writer_ui.py:144-145 | a blank section leaves the display as if it were not there |
| UiText.SectionsShownError | writer_ui.py:144 | the loop raises exactly when some section's text is not a string, with the AttributeError of the first such section |
| UiText.SectionEnd | writer_ui.py:154 | the lazy match stops at the first place from which `## Production Notes` or the end follows |
| UiText.CopiedUntil | writer_ui.py:153-158 | text with no Lyrics heading in it is copied unchanged |
| UiText.NoHeadingUnchanged | writer_ui.py:153-158 | Markdown without a Lyrics heading is shown whole |
| UiText.SectionRemoved | writer_ui.py:153-158 | when no second Lyrics heading follows the Production Notes heading, the text from the first Lyrics heading (any case) up to that notes heading is cut; the text before it and the notes are kept |
| UiText.SectionToEnd | writer_ui.py:153-158 | with no Production Notes heading after it, the Lyrics section is cut to the end, except for a final newline |

## Left out

- `call_openai`: a network call. The model's answer is an arbitrary input string.
- `json.loads` and `json.dumps`: the JSON parser is a function-typed parameter (`Normalizer.Parser`),
  and the serialiser is not modelled. JSON numbers with a fraction or exponent (floats) are not
  part of `JsonValue.Value`.
- `safe_write`, `timestamp`, `main`, argparse, and every file write: file system, clock and command
  line.
- The tkinter widgets, `reset_form`, `generate_song` and its thread, and the module globals `pkg`
  and `tempo`. The export check takes the package as an argument (`ChordFilter.ExportDecision`).
  The messages written to the text widget become the `Export` outcomes.
- The composition of `display_text` and the title and chord lines shown with it: plain
  concatenation of the modelled pieces.
- pychord's `Chord(...).components_with_pitch` and pretty_midi's `note_name_to_number`: foreign
  libraries. Both are the `MidiLayout.Renderer` parameter, a partial function each.
- The `PrettyMIDI` object, its tempo, the save dialog and the MIDI file.
- The `print` when a chord cannot be voiced: only its effect is modelled. A token the chord library
  rejects adds no notes; a note name that cannot be numbered ends that chord, and the notes already
  added for it stay.
- `clean_filename` on a title that is not a string: `re.sub` would raise a TypeError. The model
  takes a string.
- `PyText.Title`, `PyText.Capitalize` and `ChordFilter.IsWordChar`: ASCII rules stand in for
  Python's Unicode case mapping and Unicode `\w`/`\d`. White space (`PyText.IsSpace`) is Python's
  full `str.isspace` set.
- `UiText.OccursAt` and `ChordFilter.IsRoot`: `re.IGNORECASE` is modelled by ASCII case folding.
  Python also matches U+0131 and U+0130 to `i`, U+017F to `s` and U+212A (Kelvin sign) to `k`, so
  a heading such as `## Lyr\u0131cs` is cut by the code and kept by the model.
- `JsonValue.Lookup`: a dict here can hold the same key twice, which `json.loads` never produces
  (the last duplicate wins there). The lookup reads the first entry with the key; no property of the
  model depends on that choice.
- `JsonValue.ReprString`: characters up to U+00FF are escaped as Python does. Above U+00FF, Python
  also writes the non-printable ones (format, separator, private-use and unassigned characters) as
  `\uNNNN` or `\UNNNNNNNN`; that needs the Unicode character database, and the model copies them
  unchanged.
- `Normalizer.GeneratePackage`: the alias between `pkg["meta"]` and `m` is modelled by writing `m`
  back into `pkg` at the end. A `meta` that itself aliases another part of the package is not
  modelled.
- `ChordFilter.ExampleProgression`: the separators are parameters, so one statement covers every
  separator in every place.
- `Markdown.DetailLabels`: checked for the seven fixed keys only. The general rule is
  `Markdown.LabelOf`.
