/**
 * The text helpers of the desktop front end: the file name made from a song title, the lyrics
 * shown after a song is generated, and the Markdown with its Lyrics section cut out.
 */
module UiText {
  import opened Wrappers
  import opened PyText
  import opened JsonValue

  // ---- clean_filename ----

  /** The characters of the class `[\\/:"*?<>|]`. */
  predicate IsForbidden(c: char)
  {
    c == '\\' || c == '/' || c == ':' || c == '"' || c == '*' || c == '?' || c == '<' || c == '>' || c == '|'
  }

  /** `re.sub(r'[\\/:"*?<>|]+', '_', s)`: every maximal run of forbidden characters becomes one `_`.
      Each character gives what `Emit` says, so a run yields a single `_` for its last character. */
  function CollapseRuns(s: string): (r: string)
    ensures forall i :: 0 <= i < |r| ==> !IsForbidden(r[i])
    ensures |r| <= |s|
  {
    if s == [] then [] else Emit(s[0], s[1..]) + CollapseRuns(s[1..])
  }

  /** What character `c`, followed by `rest`, contributes: nothing when it is forbidden and so is the
      next one, `_` when it ends a forbidden run, and itself otherwise. */
  function Emit(c: char, rest: string): (r: string)
    ensures |r| <= 1 && forall i :: 0 <= i < |r| ==> !IsForbidden(r[i])
  {
    if IsForbidden(c) && rest != [] && IsForbidden(rest[0]) then []
    else [if IsForbidden(c) then '_' else c]
  }

  /** `clean_filename`: collapse the forbidden runs, strip the white space at both ends, and turn every
      remaining space into `_`. */
  function CleanFilename(name: string): string
  {
    ReplaceChar(Strip(CollapseRuns(name)), ' ', '_')
  }

  /** A cleaned name holds no forbidden character and no space, and has no white space at its ends. */
  lemma CleanFilenameClean(name: string)
    ensures IsCleanName(CleanFilename(name))
  {
    var stripped := Strip(CollapseRuns(name));
    StrippedClean(CollapseRuns(name));
    ReplacedClean(stripped);
  }

  lemma StrippedClean(collapsed: string)
    requires forall i :: 0 <= i < |collapsed| ==> !IsForbidden(collapsed[i])
    ensures forall i :: 0 <= i < |Strip(collapsed)| ==> !IsForbidden(Strip(collapsed)[i])
  {
    var k := StripStart(collapsed);
    var stripped := Strip(collapsed);
    assert k + |stripped| <= |collapsed| && stripped == collapsed[k..k + |stripped|];
    forall i | 0 <= i < |stripped| ensures !IsForbidden(stripped[i]) {
      assert k + i < |collapsed| && stripped[i] == collapsed[k + i];
    }
  }

  lemma ReplacedClean(stripped: string)
    requires forall i :: 0 <= i < |stripped| ==> !IsForbidden(stripped[i])
    requires stripped == [] || (!IsSpace(stripped[0]) && !IsSpace(stripped[|stripped| - 1]))
    ensures IsCleanName(ReplaceChar(stripped, ' ', '_'))
  {
    var r := ReplaceChar(stripped, ' ', '_');
    forall i | 0 <= i < |r| ensures !IsForbidden(r[i]) && r[i] != ' ' {
      if stripped[i] != ' ' {
        assert r[i] == stripped[i];
      }
    }
  }

  /** No forbidden character, no space, and no white space at either end. */
  predicate IsCleanName(name: string)
  {
    (forall i :: 0 <= i < |name| ==> !IsForbidden(name[i]) && name[i] != ' ')
    && (name == [] || (!IsSpace(name[0]) && !IsSpace(name[|name| - 1])))
  }

  /** A string free of forbidden characters is left as it is by the collapsing. */
  lemma {:induction false} CollapseClean(s: string)
    requires forall i :: 0 <= i < |s| ==> !IsForbidden(s[i])
    ensures CollapseRuns(s) == s
  {
    if s != [] {
      assert forall i :: 0 <= i < |s| - 1 ==> s[1..][i] == s[i + 1];
      CollapseClean(s[1..]);
    }
  }

  /** A non-empty run of forbidden characters collapses to a single `_`. */
  lemma {:induction false} CollapseRun(run: string)
    requires run != [] && forall c :: c in run ==> IsForbidden(c)
    ensures CollapseRuns(run) == "_"
  {
    if |run| >= 2 {
      assert forall c :: c in run[1..] ==> c in run;
      assert run[1] in run;
      CollapseRun(run[1..]);
    }
  }

  /** Collapsing works run by run: where `a` and `b` do not meet inside a run, the two are collapsed
      apart. */
  lemma {:induction false} CollapseAppend(a: string, b: string)
    requires a == [] || b == [] || !IsForbidden(a[|a| - 1]) || !IsForbidden(b[0])
    ensures CollapseRuns(a + b) == CollapseRuns(a) + CollapseRuns(b)
  {
    if a == [] {
      assert a + b == b;
    } else {
      assert (a + b)[0] == a[0] && (a + b)[1..] == a[1..] + b;
      CollapseAppend(a[1..], b);
      if a[1..] != [] {
        assert (a[1..] + b)[0] == a[1..][0];
      }
      var e := Emit(a[0], a[1..]);
      assert Emit(a[0], a[1..] + b) == e;
      calc {
        CollapseRuns(a + b);
        e + CollapseRuns(a[1..] + b);
        e + (CollapseRuns(a[1..]) + CollapseRuns(b));
        (e + CollapseRuns(a[1..])) + CollapseRuns(b);
      }
    }
  }

  /** A maximal run between two other characters becomes one `_`, and the text around it is
      collapsed on its own. */
  lemma MaximalRun(a: string, run: string, b: string)
    requires run != [] && forall c :: c in run ==> IsForbidden(c)
    requires a == [] || !IsForbidden(a[|a| - 1])
    requires b == [] || !IsForbidden(b[0])
    ensures CollapseRuns(a + run + b) == CollapseRuns(a) + "_" + CollapseRuns(b)
  {
    CollapseAppend(run, b);
    CollapseRun(run);
    assert CollapseRuns(run + b) == "_" + CollapseRuns(b);
    assert a + run + b == a + (run + b);
    assert run + b != [] && (run + b)[0] == run[0] && run[0] in run;
    CollapseAppend(a, run + b);
  }

  /** A string that starts and ends with a non-space character strips to itself. */
  lemma StripKeeps(s: string)
    requires s == [] || (!IsSpace(s[0]) && !IsSpace(s[|s| - 1]))
    ensures Strip(s) == s
  {
    assert LStrip(s) == s;
  }

  /** A file name that is already clean is its own clean name. */
  lemma CleanFixed(name: string)
    requires IsCleanName(name)
    ensures CleanFilename(name) == name
  {
    CollapseClean(name);
    StripKeeps(name);
    assert Strip(CollapseRuns(name)) == name;
    ReplaceAbsent(name, ' ', '_');
  }

  /** Replacing a character that does not occur changes nothing. */
  lemma ReplaceAbsent(s: string, from: char, to: char)
    requires forall i :: 0 <= i < |s| ==> s[i] != from
    ensures ReplaceChar(s, from, to) == s
  {
  }

  /** Cleaning a clean name changes nothing. */
  lemma CleanIdempotent(name: string)
    ensures CleanFilename(CleanFilename(name)) == CleanFilename(name)
  {
    CleanFilenameClean(name);
    CleanFixed(CleanFilename(name));
  }

  // ---- the lyrics shown after a song is generated ----

  /** One section as it is shown: the capitalized section name, a colon, and the stripped text. */
  function SectionBlock(name: string, text: string): string
  {
    Capitalize(name) + ":\n" + Strip(text) + "\n\n"
  }

  /** What one `(section, text)` pair adds: nothing for blank text, and an AttributeError for text
      that is not a string (`text.strip()`). */
  function SectionShown(f: Field): Result<string, PyError>
  {
    if !f.value.String? then Err(NoAttribute(f.value, "strip"))
    else if Strip(f.value.s) == [] then Ok("")
    else Ok(SectionBlock(f.key, f.value.s))
  }

  /** The text the loop over `lyrics.items()` builds, or the first exception it raises. */
  function SectionsShown(fields: seq<Field>): Result<string, PyError>
  {
    if fields == [] then Ok("")
    else Then(SectionShown(fields[0]), SectionsShown(fields[1..]))
  }

  /** Two pieces of text produced one after the other: the first exception stops everything. */
  function Then(first: Result<string, PyError>, second: Result<string, PyError>): (r: Result<string, PyError>)
    ensures r.Ok? <==> first.Ok? && second.Ok?
    ensures r.Ok? ==> r.value == first.value + second.value
    ensures first.Err? ==> r == first
    ensures first.Ok? && second.Err? ==> r == second
  {
    match first
    case Err(e) => Err(e)
    case Ok(x) =>
      match second
      case Err(e) => Err(e)
      case Ok(y) => Ok(x + y)
  }

  /** `lyrics_str` for `lyrics = pkg.get("lyrics", {})`: the sections of a dict, `str(lyrics)` for
      anything else. */
  function LyricsShown(pkg: seq<Field>): Result<string, PyError>
  {
    var lyrics := Get(pkg, "lyrics", Object([]));
    if lyrics.Object? then SectionsShown(lyrics.fields) else Ok(ToStr(lyrics))
  }

  /** The display step of `generate_song_thread`: a dict of sections is shown by the loop, anything
      else by `str()`. */
  method ShowLyrics(pkg: seq<Field>) returns (r: Result<string, PyError>)
    ensures r == LyricsShown(pkg)
  {
    var lyrics := Get(pkg, "lyrics", Object([]));
    if lyrics.Object? {
      r := ShowSections(lyrics.fields);
    } else {
      r := Ok(ToStr(lyrics));
    }
  }

  /** The loop over `lyrics.items()`: `lyrics_str` grows by one block per non-blank section. */
  method ShowSections(fields: seq<Field>) returns (r: Result<string, PyError>)
    ensures r == SectionsShown(fields)
  {
    var shown := "";
    var n := 0;
    while n < |fields|
      invariant n <= |fields|
      invariant SectionsShown(fields[..n]) == Ok(shown)
    {
      var f := fields[n];
      ShownStep(fields, n);
      if !f.value.String? {
        ErrorStays(fields, n + 1);
        return Err(NoAttribute(f.value, "strip"));
      }
      var text := Strip(f.value.s);
      ghost var before := shown;
      if text != [] {
        shown := shown + (Capitalize(f.key) + ":\n" + text + "\n\n");
        assert SectionShown(f) == Ok(SectionBlock(f.key, f.value.s));
      } else {
        assert SectionShown(f) == Ok("");
        assert shown == before + "";
      }
      assert SectionsShown(fields[..n + 1]) == Ok(shown);
      n := n + 1;
    }
    assert fields[..n] == fields;
    r := Ok(shown);
  }

  /** One step of the loop. */
  lemma ShownStep(fields: seq<Field>, n: nat)
    requires n < |fields|
    ensures SectionsShown(fields[..n + 1]) == Then(SectionsShown(fields[..n]), SectionShown(fields[n]))
  {
    var f := fields[n];
    assert fields[..n + 1] == fields[..n] + [f];
    SectionsShownAppend(fields[..n], [f]);
    assert [f][1..] == [];
    ThenUnit(SectionShown(f));
  }

  /** An exception raised for a prefix of the sections is the exception of the whole loop. */
  lemma ErrorStays(fields: seq<Field>, n: nat)
    requires n <= |fields| && SectionsShown(fields[..n]).Err?
    ensures SectionsShown(fields) == SectionsShown(fields[..n])
  {
    assert fields == fields[..n] + fields[n..];
    SectionsShownAppend(fields[..n], fields[n..]);
  }

  /** The sections are shown in mapping order: the text for `a + b` is the text for `a` followed by
      the text for `b`, and an exception in `a` comes before anything in `b`. */
  lemma {:induction false} SectionsShownAppend(a: seq<Field>, b: seq<Field>)
    ensures SectionsShown(a + b) == Then(SectionsShown(a), SectionsShown(b))
  {
    if a == [] {
      assert a + b == b;
      ThenUnit(SectionsShown(b));
    } else {
      assert (a + b)[0] == a[0] && (a + b)[1..] == a[1..] + b;
      SectionsShownAppend(a[1..], b);
      ThenAssociative(SectionShown(a[0]), SectionsShown(a[1..]), SectionsShown(b));
    }
  }

  lemma ThenUnit(x: Result<string, PyError>)
    ensures Then(x, Ok("")) == x && Then(Ok(""), x) == x
  {
    if x.Ok? {
      assert x.value + "" == x.value && "" + x.value == x.value;
    }
  }

  lemma ThenAssociative(x: Result<string, PyError>, y: Result<string, PyError>, z: Result<string, PyError>)
    ensures Then(x, Then(y, z)) == Then(Then(x, y), z)
  {
    if x.Ok? && y.Ok? && z.Ok? {
      assert x.value + (y.value + z.value) == x.value + y.value + z.value;
    }
  }

  /** A single section shows as its block when its text is not blank and shows nothing when it is. */
  lemma OneSection(name: string, text: string)
    ensures SectionsShown([Field(name, String(text))]) ==
      Ok(if Strip(text) == [] then "" else Capitalize(name) + ":\n" + Strip(text) + "\n\n")
  {
    var f := Field(name, String(text));
    assert [f][1..] == [];
    ThenUnit(SectionShown(f));
  }

  /** A section whose text is blank is skipped: the display is the same without it. */
  lemma BlankSectionSkipped(a: seq<Field>, name: string, text: string, b: seq<Field>)
    requires Strip(text) == []
    ensures SectionsShown(a + [Field(name, String(text))] + b) == SectionsShown(a + b)
  {
    var f := [Field(name, String(text))];
    SectionsShownAppend(a + f, b);
    SectionsShownAppend(a, f);
    SectionsShownAppend(a, b);
    OneSection(name, text);
    ThenUnit(SectionsShown(a));
  }

  /** The position of the first section whose text is not a string, or the number of sections. */
  function FirstNotString(fields: seq<Field>): (i: nat)
    ensures i <= |fields|
    ensures forall k :: 0 <= k < i ==> fields[k].value.String?
    ensures i < |fields| ==> !fields[i].value.String?
  {
    if fields == [] || !fields[0].value.String? then 0 else 1 + FirstNotString(fields[1..])
  }

  /** The loop raises exactly when some section's text is not a string, and then the AttributeError
      of the first such section. */
  lemma {:induction false} SectionsShownError(fields: seq<Field>)
    ensures SectionsShown(fields).Err? <==> FirstNotString(fields) < |fields|
    ensures SectionsShown(fields).Err? ==>
      SectionsShown(fields) == Err(NoAttribute(fields[FirstNotString(fields)].value, "strip"))
  {
    if fields != [] && fields[0].value.String? {
      SectionsShownError(fields[1..]);
      if FirstNotString(fields) < |fields| {
        assert fields[FirstNotString(fields)] == fields[1..][FirstNotString(fields[1..])];
      }
    }
  }

  // ---- the Markdown shown without its Lyrics section ----

  /** The headings the substitution looks for, already in lower case: `re.IGNORECASE` compares
      letters without regard to case. */
  const LyricsHeading := "## lyrics"
  const NotesHeading := "## production notes"

  /** The lower-case `pattern` occurs at `i` in `text`, ignoring case. */
  predicate OccursAt(text: string, i: nat, pattern: string)
  {
    i + |pattern| <= |text| && forall k :: 0 <= k < |pattern| ==> ToLower(text[i + k]) == pattern[k]
  }

  /** `## Lyrics`, in any case, starts at `i`. */
  predicate HeadingAt(text: string, i: nat)
  {
    OccursAt(text, i, LyricsHeading)
  }

  /** `## Production Notes`, in any case, starts at `j`. */
  predicate NotesAt(text: string, j: nat)
  {
    OccursAt(text, j, NotesHeading)
  }

  /** `$` without MULTILINE: the end of the text, or just before a newline that ends it. */
  predicate EndAt(text: string, j: nat)
  {
    j == |text| || (j + 1 == |text| && text[j] == '\n')
  }

  /** Where the lookahead `(?=## Production Notes|$)` succeeds. */
  predicate StopAt(text: string, j: nat)
  {
    NotesAt(text, j) || EndAt(text, j)
  }

  /** Where the lazy `[\s\S]*?` stops: the first position from `k` on where the lookahead succeeds. */
  function SectionEnd(text: string, k: nat): (j: nat)
    requires k <= |text|
    ensures k <= j <= |text| && StopAt(text, j)
    ensures forall m :: k <= m < j ==> !StopAt(text, m)
    decreases |text| - k
  {
    if StopAt(text, k) then k else SectionEnd(text, k + 1)
  }

  /** `re.sub` from position `i` on: a match is removed and the scan resumes where it ended; any
      other character is copied. */
  function StripFrom(text: string, i: nat): string
    requires i <= |text|
    decreases |text| - i
  {
    if i == |text| then []
    else if HeadingAt(text, i) then StripFrom(text, SectionEnd(text, i + |LyricsHeading|))
    else [text[i]] + StripFrom(text, i + 1)
  }

  /** `md_nolyrics`. */
  function StripLyrics(text: string): string
  {
    StripFrom(text, 0)
  }

  /** Text without a Lyrics heading in it is copied unchanged. */
  lemma {:induction false} CopiedUntil(text: string, i: nat, h: nat)
    requires i <= h <= |text|
    requires forall m :: i <= m < h ==> !HeadingAt(text, m)
    ensures StripFrom(text, i) == text[i..h] + StripFrom(text, h)
    decreases h - i
  {
    if i < h {
      assert !HeadingAt(text, i);
      assert StripFrom(text, i) == [text[i]] + StripFrom(text, i + 1);
      CopiedUntil(text, i + 1, h);
      assert [text[i]] + text[i + 1..h] == text[i..h];
    } else {
      assert text[i..h] == [];
    }
  }

  /** A text with no Lyrics heading is shown whole. */
  lemma NoHeadingUnchanged(text: string)
    requires forall m :: 0 <= m < |text| ==> !HeadingAt(text, m)
    ensures StripLyrics(text) == text
  {
    CopiedUntil(text, 0, |text|);
  }

  /** The lazy scan stops at the first place the lookahead succeeds. */
  lemma SectionEndIs(text: string, k: nat, e: nat)
    requires k <= e <= |text| && StopAt(text, e)
    requires forall m :: k <= m < e ==> !StopAt(text, m)
    ensures SectionEnd(text, k) == e
  {
  }

  /** The Lyrics section is cut from its heading to just before the Production Notes heading that
      follows it; the text before it, and the notes, are kept. */
  lemma SectionRemoved(text: string, h: nat, e: nat)
    requires HeadingAt(text, h) && forall m :: 0 <= m < h ==> !HeadingAt(text, m)
    requires h + |LyricsHeading| <= e && NotesAt(text, e)
    requires forall m :: h + |LyricsHeading| <= m < e ==> !NotesAt(text, m)
    requires forall m :: e <= m < |text| ==> !HeadingAt(text, m)
    ensures StripLyrics(text) == text[..h] + text[e..]
  {
    SkipSection(text, h, e);
    CopiedUntil(text, 0, h);
    CopiedUntil(text, e, |text|);
    calc {
      StripLyrics(text);
      text[0..h] + StripFrom(text, h);
      text[0..h] + StripFrom(text, e);
      text[0..h] + (text[e..|text|] + StripFrom(text, |text|));
      { assert text[0..h] == text[..h] && text[e..|text|] == text[e..]; }
      text[..h] + text[e..];
    }
  }

  /** A match that starts at a Lyrics heading resumes the scan at the next Production Notes
      heading. */
  lemma SkipSection(text: string, h: nat, e: nat)
    requires HeadingAt(text, h)
    requires h + |LyricsHeading| <= e && NotesAt(text, e)
    requires forall m :: h + |LyricsHeading| <= m < e ==> !NotesAt(text, m)
    ensures e <= |text| && StripFrom(text, h) == StripFrom(text, e)
  {
    var k := h + |LyricsHeading|;
    assert e + |NotesHeading| <= |text|;
    assert forall m :: k <= m < e ==> !StopAt(text, m);
    SectionEndIs(text, k, e);
    StripAtHeading(text, h);
  }

  /** At a Lyrics heading the scan removes the match and resumes where the lazy part stopped. */
  lemma StripAtHeading(text: string, h: nat)
    requires HeadingAt(text, h)
    ensures h + |LyricsHeading| <= |text|
    ensures StripFrom(text, h) == StripFrom(text, SectionEnd(text, h + |LyricsHeading|))
  {
  }

  /** Without a Production Notes heading after it, the Lyrics section runs to the end of the text,
      except for a newline that ends the text, which `$` leaves in place. */
  lemma SectionToEnd(text: string, h: nat)
    requires HeadingAt(text, h) && forall m :: 0 <= m < h ==> !HeadingAt(text, m)
    requires forall m :: h + |LyricsHeading| <= m < |text| ==> !NotesAt(text, m)
    ensures StripLyrics(text) ==
      text[..h] + if h + |LyricsHeading| < |text| && text[|text| - 1] == '\n' then "\n" else ""
  {
    CopiedUntil(text, 0, h);
    var k := h + |LyricsHeading|;
    if k < |text| && text[|text| - 1] == '\n' {
      SectionEndIs(text, k, |text| - 1);
      assert !HeadingAt(text, |text| - 1);
      assert StripFrom(text, |text|) == [];
    } else {
      SectionEndIs(text, k, |text|);
    }
  }
}
