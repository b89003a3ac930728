/**
 * `to_markdown`: the song package rendered as a Markdown document, a list of parts joined by
 * newlines, in the order title, Details, Logline, Musical Ideas, Lyrics, Production Notes.
 */
module Markdown {
  import opened Wrappers
  import opened PyText
  import opened JsonValue

  /** The metadata keys listed under Details, in the order they are listed. */
  const DetailOrder: seq<string> := ["genre", "mood", "topic", "key", "tempo_bpm", "language", "structure"]

  /** `d.get(k)` taken as a condition: the key is present and its value truthy. */
  predicate Has(d: seq<Field>, k: string)
  {
    Truthy(Get(d, k, Null))
  }

  /** `k.replace("_", " ").title()` */
  function Label(k: string): string
  {
    Title(ReplaceChar(k, '_', ' '))
  }

  function DetailLine(k: string, v: Value): string
  {
    "- **" + Label(k) + ":** " + ToStr(v)
  }

  /** One line per key whose value is truthy, in the order of `keys`. */
  function DetailLines(meta: seq<Field>, keys: seq<string>): seq<string>
  {
    if keys == [] then []
    else
      var k := keys[|keys| - 1];
      DetailLines(meta, keys[..|keys| - 1]) + (if Has(meta, k) then [DetailLine(k, Get(meta, k, Null))] else [])
  }

  function DetailsParts(meta: seq<Field>): seq<string>
  {
    var lines := DetailLines(meta, DetailOrder);
    if lines == [] then [] else ["## Details\n" + Join(lines, "\n") + "\n"]
  }

  function TitlePart(pkg: seq<Field>): string
  {
    "# " + ToStr(Get(pkg, "title", String("Untitled"))) + "\n"
  }

  /** `heading + pkg[key] + "\n"` when `pkg.get(key)` is truthy; Python refuses to add a non-string. */
  function TextParts(pkg: seq<Field>, key: string, heading: string): Result<seq<string>, PyError>
  {
    var v := Get(pkg, key, Null);
    if !Truthy(v) then Ok([])
    else if v.String? then Ok([heading + v.s + "\n"])
    else Err(NoConcat(v))
  }

  /** A bold-labelled line under "## Musical Ideas": `**<caption>:** <value>`. */
  function IdeaLine(caption: string, v: Value): string
  {
    "**" + caption + ":** " + ToStr(v) + "\n"
  }

  /** The chord line names the key the metadata gives, or "?" when it has none. */
  function ChordLabel(meta: seq<Field>): string
  {
    "Chord Progression (Key " + ToStr(Get(meta, "key", String("?"))) + ")"
  }

  /** The three optional lines under "## Musical Ideas", each there when its value is truthy. */
  function ChordParts(meta: seq<Field>, ideas: seq<Field>): seq<string>
  {
    if Has(ideas, "chord_progression") then [IdeaLine(ChordLabel(meta), Get(ideas, "chord_progression", Null))] else []
  }

  function FeelParts(ideas: seq<Field>): seq<string>
  {
    if Has(ideas, "strumming_pattern") then [IdeaLine("Strumming/Feel", Get(ideas, "strumming_pattern", Null))] else []
  }

  function HintParts(ideas: seq<Field>): seq<string>
  {
    if Has(ideas, "melodic_hint") then [IdeaLine("Melodic Hint", Get(ideas, "melodic_hint", Null))] else []
  }

  function IdeasParts(pkg: seq<Field>, meta: seq<Field>): Result<seq<string>, PyError>
  {
    var ideas := Get(pkg, "musical_ideas", Null);
    if !Truthy(ideas) then Ok([])
    else if !ideas.Object? then Err(NoAttribute(ideas, "get"))
    else Ok(IdeasBlock(meta, ideas.fields))
  }

  function IdeasBlock(meta: seq<Field>, ideas: seq<Field>): seq<string>
  {
    ["## Musical Ideas\n"] + ChordParts(meta, ideas) + FeelParts(ideas) + HintParts(ideas)
  }

  function LyricsEntry(f: Field): string
  {
    "### " + Title(f.key) + "\n" + ToStr(f.value) + "\n"
  }

  /** One part per lyrics section, in the mapping's order. */
  function LyricsEntries(sections: seq<Field>): seq<string>
  {
    if sections == [] then []
    else LyricsEntries(sections[..|sections| - 1]) + [LyricsEntry(sections[|sections| - 1])]
  }

  function LyricsParts(pkg: seq<Field>): Result<seq<string>, PyError>
  {
    var sections := Get(pkg, "lyrics", Object([]));
    if !Truthy(sections) then Ok([])
    else if !sections.Object? then Err(NoAttribute(sections, "items"))
    else Ok(LyricsBlock(sections.fields))
  }

  function LyricsBlock(sections: seq<Field>): seq<string>
  {
    ["## Lyrics\n"] + LyricsEntries(sections)
  }

  /** The parts of the document, or the exception `to_markdown` raises. */
  function MarkdownParts(pkg: seq<Field>): Result<seq<string>, PyError>
  {
    var meta := Get(pkg, "meta", Object([]));
    if !meta.Object? then Err(NoAttribute(meta, "get"))
    else
      var head := [TitlePart(pkg)] + DetailsParts(meta.fields);
      match TextParts(pkg, "logline", "## Logline\n")
      case Err(e) => Err(e)
      case Ok(logline) =>
        match IdeasParts(pkg, meta.fields)
        case Err(e) => Err(e)
        case Ok(ideas) =>
          match LyricsParts(pkg)
          case Err(e) => Err(e)
          case Ok(lyrics) =>
            match TextParts(pkg, "production_notes", "## Production Notes\n")
            case Err(e) => Err(e)
            case Ok(notes) => Ok(head + logline + ideas + lyrics + notes)
  }

  function Render(pkg: seq<Field>): Result<string, PyError>
  {
    match MarkdownParts(pkg)
    case Err(e) => Err(e)
    case Ok(parts) => Ok(Join(parts, "\n"))
  }

  /** `to_markdown` raises exactly when the metadata is not a dict, when a truthy logline or production
      notes value is not a string, or when truthy musical ideas or lyrics are not a dict. */
  lemma MarkdownErrors(pkg: seq<Field>)
    ensures var meta := Get(pkg, "meta", Object([]));
      MarkdownParts(pkg).Err? <==>
        !meta.Object?
        || (Has(pkg, "logline") && !Get(pkg, "logline", Null).String?)
        || (Has(pkg, "musical_ideas") && !Get(pkg, "musical_ideas", Null).Object?)
        || (Has(pkg, "lyrics") && !Get(pkg, "lyrics", Null).Object?)
        || (Has(pkg, "production_notes") && !Get(pkg, "production_notes", Null).String?)
  {
    LyricsDefault(pkg);
  }

  /** `pkg.get("lyrics", {})` and `pkg.get("lyrics")` agree on everything the code asks of them. */
  lemma LyricsDefault(pkg: seq<Field>)
    ensures Truthy(Get(pkg, "lyrics", Object([]))) <==> Has(pkg, "lyrics")
    ensures Has(pkg, "lyrics") ==> Get(pkg, "lyrics", Object([])) == Get(pkg, "lyrics", Null)
  {
  }

  /** Which section a part belongs to, told apart by its first characters: 0 the title ("# "), 1 Details,
      2 Logline, 3 Musical Ideas (its heading and the "**" lines), 4 Lyrics (its heading and the "###"
      parts), 5 Production Notes. */
  function Rank(part: string): nat
  {
    if |part| >= 2 && part[0] == '*' && part[1] == '*' then 3
    else if |part| >= 3 && part[0] == '#' && part[1] == '#' && part[2] == '#' then 4
    else if |part| < 5 || part[0] != '#' || part[1] != '#' || part[2] != ' ' then 0
    else if part[3] == 'D' then 1
    else if part[3] == 'L' then (if part[4] == 'o' then 2 else 4)
    else if part[3] == 'M' then 3
    else if part[3] == 'P' then 5
    else 0
  }

  predicate AllRank(ps: seq<string>, r: nat)
  {
    forall p :: p in ps ==> Rank(p) == r
  }

  predicate RankedUpTo(ps: seq<string>, r: nat)
  {
    (forall i, j :: 0 <= i < j < |ps| ==> Rank(ps[i]) <= Rank(ps[j])) && forall p :: p in ps ==> Rank(p) <= r
  }

  predicate HasRank(ps: seq<string>, r: nat)
  {
    exists p :: p in ps && Rank(p) == r
  }

  lemma RankedAppend(a: seq<string>, b: seq<string>, r: nat, r2: nat)
    requires RankedUpTo(a, r) && r <= r2 && AllRank(b, r2)
    ensures RankedUpTo(a + b, r2)
  {
    forall i, j | 0 <= i < j < |a + b| ensures Rank((a + b)[i]) <= Rank((a + b)[j]) {
      if j >= |a| {
        assert (a + b)[j] in b;
        if i < |a| { assert (a + b)[i] in a; } else { assert (a + b)[i] in b; }
      }
    }
  }

  lemma RankOfHeading(rest: string)
    ensures Rank("# " + rest) == 0
    ensures Rank("## Details\n" + rest) == 1
    ensures Rank("## Logline\n" + rest) == 2
    ensures Rank("## Musical Ideas\n") == 3 && Rank("**" + rest) == 3
    ensures Rank("## Lyrics\n") == 4 && Rank("### " + rest) == 4
    ensures Rank("## Production Notes\n" + rest) == 5
  {
    assert ("# " + rest)[1] == ' ';
    assert ("## Details\n" + rest)[2] == ' ';
    assert ("## Logline\n" + rest)[2] == ' ' && ("## Logline\n" + rest)[3] == 'L';
    assert ("**" + rest)[0] == '*';
    assert ("### " + rest)[..4] == "### ";
    var n := "## Production Notes\n" + rest;
    assert n[2] == ' ' && n[3] == 'P';
  }

  lemma RankDetails(meta: seq<Field>)
    ensures AllRank(DetailsParts(meta), 1)
  {
    RankOfHeading(Join(DetailLines(meta, DetailOrder), "\n") + "\n");
  }

  lemma RankText(pkg: seq<Field>, key: string, heading: string, r: nat)
    requires (heading == "## Logline\n" && r == 2) || (heading == "## Production Notes\n" && r == 5)
    requires TextParts(pkg, key, heading).Ok?
    ensures AllRank(TextParts(pkg, key, heading).value, r)
  {
    var v := Get(pkg, key, Null);
    if Truthy(v) {
      RankOfHeading(v.s + "\n");
      assert heading + v.s + "\n" == heading + (v.s + "\n");
    }
  }

  lemma RankIdeas(meta: seq<Field>, ideas: seq<Field>)
    ensures AllRank(IdeasBlock(meta, ideas), 3)
  {
    var chord := IdeaLine(ChordLabel(meta), Get(ideas, "chord_progression", Null));
    var feel := IdeaLine("Strumming/Feel", Get(ideas, "strumming_pattern", Null));
    var hint := IdeaLine("Melodic Hint", Get(ideas, "melodic_hint", Null));
    IdeaLineStars(ChordLabel(meta), Get(ideas, "chord_progression", Null));
    IdeaLineStars("Strumming/Feel", Get(ideas, "strumming_pattern", Null));
    IdeaLineStars("Melodic Hint", Get(ideas, "melodic_hint", Null));
    RankStarLines(Has(ideas, "chord_progression"), chord, Has(ideas, "strumming_pattern"), feel,
      Has(ideas, "melodic_hint"), hint);
  }

  lemma IdeaLineStars(caption: string, v: Value)
    ensures var l := IdeaLine(caption, v); |l| >= 2 && l[0] == '*' && l[1] == '*'
  {
  }

  lemma RankStarLines(c1: bool, l1: string, c2: bool, l2: string, c3: bool, l3: string)
    requires |l1| >= 2 && l1[0] == '*' && l1[1] == '*'
    requires |l2| >= 2 && l2[0] == '*' && l2[1] == '*'
    requires |l3| >= 2 && l3[0] == '*' && l3[1] == '*'
    ensures AllRank(["## Musical Ideas\n"] + (if c1 then [l1] else []) + (if c2 then [l2] else []) + (if c3 then [l3] else []), 3)
  {
    RankOfHeading("");
  }

  lemma RankLyrics(sections: seq<Field>)
    ensures AllRank(LyricsBlock(sections), 4)
  {
    RankOfHeading("");
    RankEntries(sections);
  }

  lemma {:induction false} RankEntries(sections: seq<Field>)
    ensures AllRank(LyricsEntries(sections), 4)
  {
    if sections != [] {
      RankEntries(sections[..|sections| - 1]);
      var e := LyricsEntry(sections[|sections| - 1]);
      assert e[0] == '#' && e[1] == '#' && e[2] == '#';
    }
  }

  /** One `### ` part per lyrics section, in the mapping's order, the text as `str()` gives it. */
  lemma {:induction false} LyricsEntriesExact(sections: seq<Field>)
    ensures |LyricsEntries(sections)| == |sections|
    ensures forall i :: 0 <= i < |sections| ==> LyricsEntries(sections)[i] == LyricsEntry(sections[i])
  {
    if sections != [] {
      var init := sections[..|sections| - 1];
      var last := LyricsEntry(sections[|sections| - 1]);
      LyricsEntriesExact(init);
      assert LyricsEntries(sections) == LyricsEntries(init) + [last];
      assert sections == init + [sections[|sections| - 1]];
      SnocIndex(LyricsEntries(init), last, sections, init, sections[|sections| - 1]);
    }
  }

  /** Index-wise agreement survives appending one more element on each side. */
  lemma SnocIndex(es: seq<string>, e: string, sections: seq<Field>, init: seq<Field>, f: Field)
    requires |es| == |init| && sections == init + [f] && e == LyricsEntry(f)
    requires forall i :: 0 <= i < |init| ==> es[i] == LyricsEntry(init[i])
    ensures forall i :: 0 <= i < |sections| ==> (es + [e])[i] == LyricsEntry(sections[i])
  {
    forall i | 0 <= i < |sections| ensures (es + [e])[i] == LyricsEntry(sections[i]) {
      if i < |init| {
        assert (es + [e])[i] == es[i] && init[i] == sections[i];
      }
    }
  }

  /** The parts of a successful rendering, block by block. */
  lemma MarkdownBlocks(pkg: seq<Field>)
    requires MarkdownParts(pkg).Ok?
    ensures var meta := Get(pkg, "meta", Object([]));
      meta.Object? && TextParts(pkg, "logline", "## Logline\n").Ok? && IdeasParts(pkg, meta.fields).Ok?
      && LyricsParts(pkg).Ok? && TextParts(pkg, "production_notes", "## Production Notes\n").Ok?
      && MarkdownParts(pkg).value == [TitlePart(pkg)] + DetailsParts(meta.fields)
        + TextParts(pkg, "logline", "## Logline\n").value + IdeasParts(pkg, meta.fields).value
        + LyricsParts(pkg).value + TextParts(pkg, "production_notes", "## Production Notes\n").value
  {
  }

  lemma RankedBlocks(t: string, d: seq<string>, l: seq<string>, i: seq<string>, y: seq<string>, n: seq<string>)
    requires Rank(t) == 0 && AllRank(d, 1) && AllRank(l, 2) && AllRank(i, 3) && AllRank(y, 4) && AllRank(n, 5)
    ensures RankedUpTo([t] + d + l + i + y + n, 5)
  {
    assert RankedUpTo([t], 0);
    RankedAppend([t], d, 0, 1);
    RankedAppend([t] + d, l, 1, 2);
    RankedAppend([t] + d + l, i, 2, 3);
    RankedAppend([t] + d + l + i, y, 3, 4);
    RankedAppend([t] + d + l + i + y, n, 4, 5);
  }

  /** The title part always comes first, and the parts that follow are grouped by section in the order
      Details, Logline, Musical Ideas, Lyrics, Production Notes. */
  lemma MarkdownOrder(pkg: seq<Field>)
    requires MarkdownParts(pkg).Ok?
    ensures var ps := MarkdownParts(pkg).value;
      |ps| > 0 && ps[0] == TitlePart(pkg) && Rank(ps[0]) == 0 && RankedUpTo(ps, 5)
  {
    MarkdownBlocks(pkg);
    BlockRanks(pkg);
    var meta := Get(pkg, "meta", Object([])).fields;
    RankedBlocks(TitlePart(pkg), DetailsParts(meta), TextParts(pkg, "logline", "## Logline\n").value,
      IdeasParts(pkg, meta).value, LyricsParts(pkg).value,
      TextParts(pkg, "production_notes", "## Production Notes\n").value);
  }

  /** Each block of a successful rendering holds parts of its own section only. */
  lemma BlockRanks(pkg: seq<Field>)
    requires MarkdownParts(pkg).Ok?
    ensures var meta := Get(pkg, "meta", Object([]));
      meta.Object? && TextParts(pkg, "logline", "## Logline\n").Ok? && IdeasParts(pkg, meta.fields).Ok?
      && LyricsParts(pkg).Ok? && TextParts(pkg, "production_notes", "## Production Notes\n").Ok?
      && Rank(TitlePart(pkg)) == 0 && AllRank(DetailsParts(meta.fields), 1)
      && AllRank(TextParts(pkg, "logline", "## Logline\n").value, 2)
      && AllRank(IdeasParts(pkg, meta.fields).value, 3) && AllRank(LyricsParts(pkg).value, 4)
      && AllRank(TextParts(pkg, "production_notes", "## Production Notes\n").value, 5)
  {
    MarkdownBlocks(pkg);
    var meta := Get(pkg, "meta", Object([])).fields;
    RankTitle(pkg);
    RankDetails(meta);
    RankText(pkg, "logline", "## Logline\n", 2);
    RankIdeasParts(pkg, meta);
    RankLyricsParts(pkg);
    RankText(pkg, "production_notes", "## Production Notes\n", 5);
  }

  lemma RankTitle(pkg: seq<Field>)
    ensures Rank(TitlePart(pkg)) == 0
  {
    RankOfHeading(ToStr(Get(pkg, "title", String("Untitled"))) + "\n");
  }

  lemma RankIdeasParts(pkg: seq<Field>, meta: seq<Field>)
    requires IdeasParts(pkg, meta).Ok?
    ensures AllRank(IdeasParts(pkg, meta).value, 3)
  {
    if IdeasParts(pkg, meta).value != [] { RankIdeas(meta, Get(pkg, "musical_ideas", Null).fields); }
  }

  lemma RankLyricsParts(pkg: seq<Field>)
    requires LyricsParts(pkg).Ok?
    ensures AllRank(LyricsParts(pkg).value, 4)
  {
    if LyricsParts(pkg).value != [] { RankLyrics(Get(pkg, "lyrics", Object([])).fields); }
  }

  lemma HasRankBlocks(t: string, d: seq<string>, l: seq<string>, i: seq<string>, y: seq<string>, n: seq<string>)
    requires Rank(t) == 0 && AllRank(d, 1) && AllRank(l, 2) && AllRank(i, 3) && AllRank(y, 4) && AllRank(n, 5)
    ensures var ps := [t] + d + l + i + y + n;
      (HasRank(ps, 1) <==> d != []) && (HasRank(ps, 2) <==> l != []) && (HasRank(ps, 3) <==> i != [])
      && (HasRank(ps, 4) <==> y != []) && (HasRank(ps, 5) <==> n != [])
  {
    var ps := [t] + d + l + i + y + n;
    forall r | 1 <= r <= 5 && HasRank(ps, r)
      ensures (r == 1 && d != []) || (r == 2 && l != []) || (r == 3 && i != []) || (r == 4 && y != []) || (r == 5 && n != [])
    {
      var p :| p in ps && Rank(p) == r;
    }
    if d != [] { assert d[0] in ps; }
    if l != [] { assert l[0] in ps; }
    if i != [] { assert i[0] in ps; }
    if y != [] { assert y[0] in ps; }
    if n != [] { assert n[0] in ps; }
  }

  /** A section is in the document exactly when its source is there: Details when some metadata value
      is truthy, every other section when its package value is truthy; the Musical Ideas and Lyrics
      headings are emitted whenever their mapping is non-empty. */
  lemma MarkdownSections(pkg: seq<Field>)
    requires MarkdownParts(pkg).Ok?
    ensures var ps := MarkdownParts(pkg).value;
      var meta := Get(pkg, "meta", Object([])).fields;
      (HasRank(ps, 1) <==> exists k :: k in DetailOrder && Has(meta, k))
      && (HasRank(ps, 2) <==> Has(pkg, "logline"))
      && (HasRank(ps, 3) <==> Has(pkg, "musical_ideas"))
      && (HasRank(ps, 4) <==> Has(pkg, "lyrics"))
      && (HasRank(ps, 5) <==> Has(pkg, "production_notes"))
      && (Has(pkg, "musical_ideas") ==> "## Musical Ideas\n" in ps)
      && (Has(pkg, "lyrics") ==> "## Lyrics\n" in ps)
  {
    SectionRanks(pkg);
    SectionHeadings(pkg);
  }

  lemma SectionRanks(pkg: seq<Field>)
    requires MarkdownParts(pkg).Ok?
    ensures var ps := MarkdownParts(pkg).value;
      var meta := Get(pkg, "meta", Object([])).fields;
      (HasRank(ps, 1) <==> exists k :: k in DetailOrder && Has(meta, k))
      && (HasRank(ps, 2) <==> Has(pkg, "logline"))
      && (HasRank(ps, 3) <==> Has(pkg, "musical_ideas"))
      && (HasRank(ps, 4) <==> Has(pkg, "lyrics"))
      && (HasRank(ps, 5) <==> Has(pkg, "production_notes"))
  {
    MarkdownBlocks(pkg);
    LyricsDefault(pkg);
    var meta := Get(pkg, "meta", Object([])).fields;
    var ll := TextParts(pkg, "logline", "## Logline\n").value;
    var id := IdeasParts(pkg, meta).value;
    var ly := LyricsParts(pkg).value;
    var nt := TextParts(pkg, "production_notes", "## Production Notes\n").value;
    BlockRanks(pkg);
    DetailsPresent(meta);
    HasRankBlocks(TitlePart(pkg), DetailsParts(meta), ll, id, ly, nt);
  }

  lemma SectionHeadings(pkg: seq<Field>)
    requires MarkdownParts(pkg).Ok?
    ensures var ps := MarkdownParts(pkg).value;
      && (Has(pkg, "musical_ideas") ==> "## Musical Ideas\n" in ps)
      && (Has(pkg, "lyrics") ==> "## Lyrics\n" in ps)
  {
    MarkdownBlocks(pkg);
    LyricsDefault(pkg);
    var meta := Get(pkg, "meta", Object([])).fields;
    var ll := TextParts(pkg, "logline", "## Logline\n").value;
    var id := IdeasParts(pkg, meta).value;
    var ly := LyricsParts(pkg).value;
    var nt := TextParts(pkg, "production_notes", "## Production Notes\n").value;
    var ps := [TitlePart(pkg)] + DetailsParts(meta) + ll + id + ly + nt;
    if id != [] { assert id[0] == "## Musical Ideas\n" && id[0] in ps; }
    if ly != [] { assert ly[0] == "## Lyrics\n" && ly[0] in ps; }
  }

  /** The Details block is there exactly when some metadata value is truthy. */
  lemma DetailsPresent(meta: seq<Field>)
    ensures DetailsParts(meta) != [] <==> exists k :: k in DetailOrder && Has(meta, k)
  {
    DetailLinesExact(meta, DetailOrder);
  }

  /** Details lists a line for each key whose value is truthy and no other line; it is empty exactly when
      no key qualifies (so a tempo of 0 is never listed). */
  lemma {:induction false} DetailLinesExact(meta: seq<Field>, keys: seq<string>)
    ensures forall k :: k in keys && Has(meta, k) ==> DetailLine(k, Get(meta, k, Null)) in DetailLines(meta, keys)
    ensures forall l :: l in DetailLines(meta, keys) ==>
      exists k :: k in keys && Has(meta, k) && l == DetailLine(k, Get(meta, k, Null))
    ensures DetailLines(meta, keys) == [] <==> forall k :: k in keys ==> !Has(meta, k)
  {
    if keys != [] {
      var init := keys[..|keys| - 1];
      var last := keys[|keys| - 1];
      DetailLinesExact(meta, init);
      assert keys == init + [last];
      forall k | k in keys && Has(meta, k) ensures DetailLine(k, Get(meta, k, Null)) in DetailLines(meta, keys) {
        if k != last { assert k in init; }
      }
      forall l | l in DetailLines(meta, keys)
        ensures exists k :: k in keys && Has(meta, k) && l == DetailLine(k, Get(meta, k, Null))
      {
        if l !in DetailLines(meta, init) {
          assert Has(meta, last) && l == DetailLine(last, Get(meta, last, Null));
        }
      }
    }
  }

  /** The Details line of one key: there when its value is truthy. */
  function DetailOf(meta: seq<Field>, k: string): seq<string>
  {
    if Has(meta, k) then [DetailLine(k, Get(meta, k, Null))] else []
  }

  /** Listing keys `a` then keys `b` gives the lines of `a` followed by the lines of `b`. */
  lemma {:induction false} DetailLinesAppend(meta: seq<Field>, a: seq<string>, b: seq<string>)
    ensures DetailLines(meta, a + b) == DetailLines(meta, a) + DetailLines(meta, b)
    decreases |b|
  {
    if b == [] {
      assert a + b == a;
    } else {
      var init := b[..|b| - 1];
      assert (a + b)[..|a + b| - 1] == a + init && (a + b)[|a + b| - 1] == b[|b| - 1];
      DetailLinesAppend(meta, a, init);
    }
  }

  /** The Details lines come in the fixed key order genre, mood, topic, key, tempo_bpm, language,
      structure, each there exactly when its value is truthy. */
  lemma DetailLinesInOrder(meta: seq<Field>)
    ensures DetailLines(meta, DetailOrder) ==
      DetailOf(meta, "genre") + DetailOf(meta, "mood") + DetailOf(meta, "topic") + DetailOf(meta, "key")
      + DetailOf(meta, "tempo_bpm") + DetailOf(meta, "language") + DetailOf(meta, "structure")
  {
    var ks := DetailOrder;
    DetailLinesSeven(meta, ks);
    assert ks[0] == "genre" && ks[1] == "mood" && ks[2] == "topic" && ks[3] == "key";
    assert ks[4] == "tempo_bpm" && ks[5] == "language" && ks[6] == "structure";
  }

  lemma DetailLinesSeven(meta: seq<Field>, ks: seq<string>)
    requires |ks| == 7
    ensures DetailLines(meta, ks) ==
      DetailOf(meta, ks[0]) + DetailOf(meta, ks[1]) + DetailOf(meta, ks[2]) + DetailOf(meta, ks[3])
      + DetailOf(meta, ks[4]) + DetailOf(meta, ks[5]) + DetailOf(meta, ks[6])
  {
    assert ks[..0] == [];
    DetailLinesPrefix(meta, ks, 0);
    assert DetailLines(meta, ks[..1]) == DetailOf(meta, ks[0]);
    DetailLinesPrefix(meta, ks, 1);
    DetailLinesPrefix(meta, ks, 2);
    DetailLinesPrefix(meta, ks, 3);
    DetailLinesPrefix(meta, ks, 4);
    DetailLinesPrefix(meta, ks, 5);
    DetailLinesPrefix(meta, ks, 6);
    assert ks[..7] == ks;
  }

  lemma DetailLinesPrefix(meta: seq<Field>, ks: seq<string>, n: nat)
    requires n < |ks|
    ensures DetailLines(meta, ks[..n + 1]) == DetailLines(meta, ks[..n]) + DetailOf(meta, ks[n])
  {
    assert ks[..n + 1] == ks[..n] + [ks[n]];
    DetailLinesSnoc(meta, ks[..n], ks[n]);
  }

  lemma DetailLinesSnoc(meta: seq<Field>, keys: seq<string>, k: string)
    ensures DetailLines(meta, keys + [k]) == DetailLines(meta, keys) + DetailOf(meta, k)
  {
    assert (keys + [k])[..|keys|] == keys;
  }

  /** The labels of the Details list, in order. */
  const DetailLabelNames: seq<string> := ["Genre", "Mood", "Topic", "Key", "Tempo Bpm", "Language", "Structure"]

  /** Each metadata key is listed under its label: underscores become spaces and every word is
      capitalised. */
  lemma DetailLabels(i: nat)
    requires i < |DetailOrder|
    ensures Label(DetailOrder[i]) == DetailLabelNames[i]
  {
    if i == 0 { LabelOf("genre", "Genre"); }
    else if i == 1 { LabelOf("mood", "Mood"); }
    else if i == 2 { LabelOf("topic", "Topic"); }
    else if i == 3 { LabelOf("key", "Key"); }
    else if i == 4 { TempoLabel(); }
    else if i == 5 { LabelOf("language", "Language"); }
    else { LabelOf("structure", "Structure"); }
  }

  /** The one label with two words. */
  lemma TempoLabel()
    ensures Label("tempo_bpm") == "Tempo Bpm"
  {
    LabelOf("tempo_bpm", "Tempo Bpm");
  }

  /** A key's label, checked character by character against `str.title`'s rule. */
  lemma LabelOf(k: string, expected: string)
    requires |k| == |expected|
    requires forall i :: 0 <= i < |k| ==> expected[i] == TitleCharAt(ReplaceChar(k, '_', ' '), false, i)
    ensures Label(k) == expected
  {
    var spaced := ReplaceChar(k, '_', ' ');
    TitleAfterExact(spaced, false);
  }

  /** "Untitled" and "?" stand in only for a missing key: an empty title or key is shown empty. */
  lemma Fallbacks(pkg: seq<Field>, meta: seq<Field>)
    ensures "title" !in Keys(pkg) ==> TitlePart(pkg) == "# Untitled\n"
    ensures Lookup(pkg, "title") == Some(String("")) ==> TitlePart(pkg) == "# \n"
    ensures "key" !in Keys(meta) ==> ChordLabel(meta) == "Chord Progression (Key ?)"
    ensures Lookup(meta, "key") == Some(String("")) ==> ChordLabel(meta) == "Chord Progression (Key )"
  {
  }

  /** `to_markdown(pkg)`: `parts` grows as the package is walked. */
  method ToMarkdown(pkg: seq<Field>) returns (r: Result<string, PyError>)
    ensures r == Render(pkg)
  {
    var parts: seq<string> := [TitlePart(pkg)];
    var meta := Get(pkg, "meta", Object([]));
    if !meta.Object? {
      return Err(NoAttribute(meta, "get"));
    }
    var metaLines := CollectDetails(meta.fields);
    if metaLines != [] {
      parts := parts + ["## Details\n" + Join(metaLines, "\n") + "\n"];
    }
    ghost var head := parts;
    assert head == [TitlePart(pkg)] + DetailsParts(meta.fields);

    var logline := Get(pkg, "logline", Null);
    ghost var loglineBlock: seq<string> := [];
    if Truthy(logline) {
      if !logline.String? {
        return Err(NoConcat(logline));
      }
      loglineBlock := ["## Logline\n" + logline.s + "\n"];
      parts := parts + ["## Logline\n" + logline.s + "\n"];
    }
    assert TextParts(pkg, "logline", "## Logline\n") == Ok(loglineBlock);
    assert parts == head + loglineBlock;

    var ideas := Get(pkg, "musical_ideas", Null);
    ghost var ideasBlock: seq<string> := [];
    if Truthy(ideas) {
      if !ideas.Object? {
        return Err(NoAttribute(ideas, "get"));
      }
      ideasBlock := IdeasBlock(meta.fields, ideas.fields);
      parts := AppendIdeas(parts, meta.fields, ideas.fields);
    }
    assert IdeasParts(pkg, meta.fields) == Ok(ideasBlock);
    assert parts == head + loglineBlock + ideasBlock;

    var sections := Get(pkg, "lyrics", Object([]));
    ghost var lyricsBlock: seq<string> := [];
    if Truthy(sections) {
      if !sections.Object? {
        return Err(NoAttribute(sections, "items"));
      }
      lyricsBlock := LyricsBlock(sections.fields);
      parts := AppendLyrics(parts, sections.fields);
    }
    assert LyricsParts(pkg) == Ok(lyricsBlock);
    assert parts == head + loglineBlock + ideasBlock + lyricsBlock;

    var notes := Get(pkg, "production_notes", Null);
    ghost var notesBlock: seq<string> := [];
    if Truthy(notes) {
      if !notes.String? {
        return Err(NoConcat(notes));
      }
      notesBlock := ["## Production Notes\n" + notes.s + "\n"];
      parts := parts + ["## Production Notes\n" + notes.s + "\n"];
    }
    assert TextParts(pkg, "production_notes", "## Production Notes\n") == Ok(notesBlock);
    assert parts == head + loglineBlock + ideasBlock + lyricsBlock + notesBlock;
    assert MarkdownParts(pkg) == Ok(parts);
    r := Ok(Join(parts, "\n"));
  }

  /** The Musical Ideas block: its heading, then each of the three lines whose value is truthy. */
  method AppendIdeas(parts: seq<string>, meta: seq<Field>, ideas: seq<Field>) returns (grown: seq<string>)
    ensures grown == parts + IdeasBlock(meta, ideas)
  {
    grown := parts + ["## Musical Ideas\n"];
    ghost var block := ["## Musical Ideas\n"];
    if Has(ideas, "chord_progression") {
      grown := grown + ["**" + ChordLabel(meta) + ":** " + ToStr(Get(ideas, "chord_progression", Null)) + "\n"];
    }
    block := block + ChordParts(meta, ideas);
    assert grown == parts + block;
    if Has(ideas, "strumming_pattern") {
      grown := grown + ["**" + "Strumming/Feel" + ":** " + ToStr(Get(ideas, "strumming_pattern", Null)) + "\n"];
    }
    block := block + FeelParts(ideas);
    assert grown == parts + block;
    if Has(ideas, "melodic_hint") {
      grown := grown + ["**" + "Melodic Hint" + ":** " + ToStr(Get(ideas, "melodic_hint", Null)) + "\n"];
    }
    block := block + HintParts(ideas);
  }

  /** The loop over the seven metadata keys. */
  method CollectDetails(meta: seq<Field>) returns (metaLines: seq<string>)
    ensures metaLines == DetailLines(meta, DetailOrder)
  {
    metaLines := [];
    var i := 0;
    while i < |DetailOrder|
      invariant 0 <= i <= |DetailOrder|
      invariant metaLines == DetailLines(meta, DetailOrder[..i])
    {
      var k := DetailOrder[i];
      var v := Get(meta, k, Null);
      if Truthy(v) {
        metaLines := metaLines + [DetailLine(k, v)];
      }
      assert DetailOrder[..i + 1][..i] == DetailOrder[..i];
      i := i + 1;
    }
    assert DetailOrder[..i] == DetailOrder;
  }

  /** The Lyrics block: its heading, then the loop over `sections.items()`, one part per section. */
  method AppendLyrics(parts: seq<string>, sections: seq<Field>) returns (grown: seq<string>)
    ensures grown == parts + LyricsBlock(sections)
  {
    grown := parts + ["## Lyrics\n"];
    var j := 0;
    while j < |sections|
      invariant 0 <= j <= |sections|
      invariant grown == parts + ["## Lyrics\n"] + LyricsEntries(sections[..j])
    {
      var f := sections[j];
      var entry := "### " + Title(f.key) + "\n" + ToStr(f.value) + "\n";
      assert entry == LyricsEntry(sections[j]);
      EntriesStep(parts + ["## Lyrics\n"], sections, j);
      grown := grown + [entry];
      j := j + 1;
    }
    assert sections[..j] == sections;
  }

  /** One more section adds its entry at the end. */
  lemma EntriesStep(prefix: seq<string>, sections: seq<Field>, j: nat)
    requires j < |sections|
    ensures prefix + LyricsEntries(sections[..j + 1]) == prefix + LyricsEntries(sections[..j]) + [LyricsEntry(sections[j])]
  {
    assert sections[..j + 1][..j] == sections[..j];
    assert LyricsEntries(sections[..j + 1]) == LyricsEntries(sections[..j]) + [LyricsEntry(sections[j])];
  }
}
