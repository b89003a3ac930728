/**
 * The chord-token filter of the MIDI export: the chord progression is cut at `|`, `;`, `&` and `,`,
 * each piece is stripped and cleaned of every character other than word characters, `#` and `b`,
 * and a cleaned piece is kept when it reads as a chord name.
 */
module ChordFilter {
  import opened Wrappers
  import opened PyText
  import opened JsonValue

  /** A regular-expression word character, `\w` (ASCII letters, digits and `_`). */
  predicate IsWordChar(c: char)
  {
    IsLetter(c) || IsDigit(c) || c == '_'
  }

  /** The characters `re.sub(r'[^\w#b]+', '', ...)` keeps. */
  predicate Kept(c: char)
  {
    IsWordChar(c) || c == '#' || c == 'b'
  }

  predicate IsSeparator(c: char)
  {
    c == '|' || c == ';' || c == '&'
  }

  /** `re.sub(r'[|;&]', ',', s)` */
  function UnifySeparators(s: string): (r: string)
    ensures |r| == |s|
    ensures forall i :: 0 <= i < |s| ==> r[i] == if IsSeparator(s[i]) then ',' else s[i]
  {
    seq(|s|, i requires 0 <= i < |s| => if IsSeparator(s[i]) then ',' else s[i])
  }

  /** `re.sub(r'[^\w#b]+', '', s)`: every other character is dropped, the rest keep their order. */
  function Clean(s: string): (r: string)
    ensures forall c :: c in r ==> Kept(c)
    ensures forall c :: c in s && Kept(c) ==> c in r
    ensures |r| <= |s|
  {
    if s == [] then []
    else (if Kept(s[0]) then [s[0]] else []) + Clean(s[1..])
  }

  // ---- the chord grammar `^[A-G][#b]?(maj|min|dim|aug|m|sus|7|9|11|13|6)?\d*$`, IGNORECASE ----

  const Qualities: seq<string> := ["maj", "min", "dim", "aug", "m", "sus", "7", "9", "11", "13", "6"]

  /** `[A-G]` under IGNORECASE. */
  predicate IsRoot(c: char)
  {
    'A' <= ToUpper(c) <= 'G'
  }

  /** `[#b]` under IGNORECASE. */
  predicate IsAccidental(c: char)
  {
    c == '#' || c == 'b' || c == 'B'
  }

  predicate AllDigits(s: string)
  {
    forall i :: 0 <= i < |s| ==> IsDigit(s[i])
  }

  /** One of the quality names, ignoring case. */
  ghost predicate IsQuality(t: string)
  {
    exists q :: q in Qualities && EqualsIgnoreCase(t, q)
  }

  /** The grammar: a root, at most one accidental, at most one quality, then digits, and nothing
      else; `i` and `j` are where the quality starts and ends. */
  ghost predicate ChordSplit(s: string, i: nat, j: nat)
  {
    1 <= i <= j <= |s| && i <= 2 && IsRoot(s[0]) && (i == 2 ==> IsAccidental(s[1]))
    && (i == j || IsQuality(s[i..j])) && AllDigits(s[j..])
  }

  ghost predicate InChordGrammar(s: string)
  {
    exists i: nat, j: nat :: ChordSplit(s, i, j)
  }

  /** A quality from `qs` starts `r` and only digits follow it. */
  predicate QualityThenDigits(r: string, qs: seq<string>)
  {
    qs != [] && ((StartsWithIgnoreCase(r, qs[0]) && AllDigits(r[|qs[0]|..])) || QualityThenDigits(r, qs[1..]))
  }

  /** `VALID_CHORD_RE.match(s)`, read left to right: an accidental is taken whenever one follows the
      root, since no quality and no digit starts with `#` or `b`. */
  predicate MatchesChord(s: string)
  {
    |s| >= 1 && IsRoot(s[0]) &&
    var i := if |s| >= 2 && IsAccidental(s[1]) then 2 else 1;
    AllDigits(s[i..]) || QualityThenDigits(s[i..], Qualities)
  }

  lemma {:induction false} QualityThenDigitsWitness(r: string, qs: seq<string>)
    ensures QualityThenDigits(r, qs) <==>
      exists q :: q in qs && StartsWithIgnoreCase(r, q) && AllDigits(r[|q|..])
  {
    if qs != [] {
      QualityThenDigitsWitness(r, qs[1..]);
      assert forall q :: q in qs <==> q == qs[0] || q in qs[1..];
    }
  }

  /** The quality a match of `QualityThenDigits` found. */
  lemma {:induction false} QualityOf(r: string, qs: seq<string>) returns (q: string)
    requires QualityThenDigits(r, qs)
    ensures q in qs && StartsWithIgnoreCase(r, q) && AllDigits(r[|q|..])
  {
    if StartsWithIgnoreCase(r, qs[0]) && AllDigits(r[|qs[0]|..]) {
      q := qs[0];
    } else {
      q := QualityOf(r, qs[1..]);
    }
  }

  /** No quality name starts with `#` or `b`, in either case. */
  lemma QualityStarts()
    ensures forall q :: q in Qualities ==> |q| >= 1 && ToLower(q[0]) != '#' && ToLower(q[0]) != 'b'
  {
    forall q | q in Qualities ensures |q| >= 1 && ToLower(q[0]) != '#' && ToLower(q[0]) != 'b' {
      var i :| 0 <= i < |Qualities| && Qualities[i] == q;
      assert q[0] in "mdas7916";
    }
  }

  /** The left-to-right reading accepts exactly the strings of the grammar. */
  lemma MatchesChordIff(s: string)
    ensures MatchesChord(s) <==> InChordGrammar(s)
  {
    if MatchesChord(s) {
      MatchesChordInGrammar(s);
    }
    if InChordGrammar(s) {
      var i: nat, j: nat :| ChordSplit(s, i, j);
      GrammarMatchesChord(s, i, j);
    }
  }

  lemma MatchesChordInGrammar(s: string)
    requires MatchesChord(s)
    ensures InChordGrammar(s)
  {
    var i := if |s| >= 2 && IsAccidental(s[1]) then 2 else 1;
    var r := s[i..];
    if AllDigits(r) {
      assert ChordSplit(s, i, i);
    } else {
      assert QualityThenDigits(r, Qualities);
      var q := QualityOf(r, Qualities);
      assert s[i..i + |q|] == r[..|q|] && s[i + |q|..] == r[|q|..];
      assert IsQuality(s[i..i + |q|]);
      assert ChordSplit(s, i, i + |q|);
    }
  }

  lemma GrammarMatchesChord(s: string, i: nat, j: nat)
    requires ChordSplit(s, i, j)
    ensures MatchesChord(s)
  {
    if i == 1 && |s| >= 2 {
      AccidentalNotSkipped(s, j);
    }
    var r := s[i..];
    if i == j {
      assert AllDigits(r);
    } else {
      var q :| q in Qualities && EqualsIgnoreCase(s[i..j], q);
      assert r[..|q|] == s[i..j] && r[|q|..] == s[j..];
      QualityThenDigitsWitness(r, Qualities);
    }
  }

  /** When an accidental follows the root, the grammar has to take it: what else could follow the
      root is a quality or a digit, and none starts with `#` or `b`. */
  lemma AccidentalNotSkipped(s: string, j: nat)
    requires ChordSplit(s, 1, j) && |s| >= 2
    ensures !IsAccidental(s[1])
  {
    if IsAccidental(s[1]) {
      if j != 1 {
        var q :| q in Qualities && EqualsIgnoreCase(s[1..j], q);
        assert Lower(s[1..j])[0] == ToLower(s[1]);
        assert Lower(q)[0] == ToLower(q[0]);
        QualityStarts();
      }
    }
  }

  // ---- the comprehension ----

  /** The tokens kept from a list of pieces, in order. */
  function KeepChords(pieces: seq<string>): (tokens: seq<string>)
    ensures |tokens| <= |pieces|
  {
    if pieces == [] then [] else PieceTokens(pieces[0]) + KeepChords(pieces[1..])
  }

  /** One piece of the comprehension: the stripped, cleaned piece when the stripped piece is not
      empty and the cleaned one reads as a chord name. */
  function PieceTokens(piece: string): (tokens: seq<string>)
    ensures |tokens| <= 1
  {
    var stripped := Strip(piece);
    var cleaned := Clean(stripped);
    if stripped != [] && MatchesChord(cleaned) then [cleaned] else []
  }

  /** The list comprehension of `download_midi_file`. */
  function ChordTokens(progression: string): seq<string>
  {
    KeepChords(Split(UnifySeparators(progression), ','))
  }

  /** Every token is a cleaned, non-blank piece that reads as a chord name. */
  lemma {:induction false} KeepChordsSound(pieces: seq<string>)
    ensures forall t :: t in KeepChords(pieces) ==>
      InChordGrammar(t) && (forall c :: c in t ==> Kept(c))
      && exists p :: p in pieces && Strip(p) != [] && t == Clean(Strip(p))
  {
    if pieces != [] {
      KeepChordsSound(pieces[1..]);
      var cleaned := Clean(Strip(pieces[0]));
      MatchesChordIff(cleaned);
      forall t | t in KeepChords(pieces[1..]) ensures exists p :: p in pieces && Strip(p) != [] && t == Clean(Strip(p)) {
        var p :| p in pieces[1..] && Strip(p) != [] && t == Clean(Strip(p));
        assert p in pieces;
      }
    }
  }

  /** Keeping is done piece by piece, so it distributes over concatenation (order is preserved). */
  lemma {:induction false} KeepChordsAppend(a: seq<string>, b: seq<string>)
    ensures KeepChords(a + b) == KeepChords(a) + KeepChords(b)
  {
    if a == [] {
      assert a + b == b;
    } else {
      assert (a + b)[0] == a[0] && (a + b)[1..] == a[1..] + b;
      KeepChordsAppend(a[1..], b);
    }
  }

  /** Every token reads as a chord name and holds only word characters, `#` and `b`; there are never
      more tokens than pieces. */
  lemma ChordTokensSound(progression: string)
    ensures forall t :: t in ChordTokens(progression) ==> InChordGrammar(t) && forall c :: c in t ==> Kept(c)
    ensures |ChordTokens(progression)| <= |Split(UnifySeparators(progression), ',')|
  {
    KeepChordsSound(Split(UnifySeparators(progression), ','));
  }

  /** `|`, `;` and `&` act exactly like `,`: writing a comma in place of one changes nothing. */
  lemma SeparatorsActLikeComma(progression: string, i: nat)
    requires i < |progression| && IsSeparator(progression[i])
    ensures ChordTokens(progression[i := ',']) == ChordTokens(progression)
  {
    assert UnifySeparators(progression[i := ',']) == UnifySeparators(progression);
  }

  /** The tokens of two progressions joined by a comma are the tokens of each, in order. */
  lemma ChordTokensAppend(a: string, b: string)
    ensures ChordTokens(a + "," + b) == ChordTokens(a) + ChordTokens(b)
  {
    assert UnifySeparators(a + "," + b) == UnifySeparators(a) + [','] + UnifySeparators(b);
    SplitAround(UnifySeparators(a), UnifySeparators(b), ',');
    KeepChordsAppend(Split(UnifySeparators(a), ','), Split(UnifySeparators(b), ','));
  }

  /** A piece without separators gives at most one token: itself, stripped and cleaned. */
  lemma SinglePiece(piece: string)
    requires forall c :: c in piece ==> c != ',' && !IsSeparator(c)
    ensures ChordTokens(piece) == PieceTokens(piece)
  {
    assert UnifySeparators(piece) == piece;
    assert Find(piece, ',') == -1;
  }

  /** Cutting at any of the four separators gives the tokens on either side, in order. */
  lemma ChordTokensAround(a: string, sep: char, b: string)
    requires sep == ',' || IsSeparator(sep)
    ensures ChordTokens(a + [sep] + b) == ChordTokens(a) + ChordTokens(b)
  {
    if sep != ',' {
      assert (a + [sep] + b)[|a| := ','] == a + "," + b;
      SeparatorsActLikeComma(a + [sep] + b, |a|);
    }
    ChordTokensAppend(a, b);
  }

  /** A piece padded with spaces strips to its inside and, when that is a clean chord name, gives
      it as its one token. */
  lemma PaddedChord(pre: string, t: string, post: string)
    requires forall c :: c in pre + post ==> c == ' '
    requires t != [] && t[0] != ' ' && t[|t| - 1] != ' ' && forall c :: c in t ==> Kept(c)
    ensures ChordTokens(pre + t + post) == if MatchesChord(t) then [t] else []
  {
    var piece := pre + t + post;
    forall c | c in piece ensures c != ',' && !IsSeparator(c) {
      assert c in pre + post || c in t;
    }
    SinglePiece(piece);
    PaddedStrip(pre, t, post);
    CleanKeeps(t);
  }

  lemma PaddedStrip(pre: string, t: string, post: string)
    requires forall c :: c in pre + post ==> c == ' '
    requires t != [] && t[0] != ' ' && t[|t| - 1] != ' ' && forall c :: c in t ==> Kept(c)
    ensures Strip(pre + t + post) == t
  {
    assert forall c :: c in t ==> !IsSpace(c);
    assert forall c :: c in pre ==> c in pre + post;
    assert forall c :: c in post ==> c in pre + post;
    assert pre + t + post == pre + (t + post);
    LStripSpaces(pre, t + post);
    RStripSpaces(t, post);
  }

  lemma {:induction false} LStripSpaces(pre: string, x: string)
    requires forall c :: c in pre ==> c == ' '
    requires x != [] && !IsSpace(x[0])
    ensures LStrip(pre + x) == x
  {
    if pre == [] {
      assert pre + x == x;
    } else {
      assert (pre + x)[0] == pre[0] && pre[0] in pre && IsSpace(pre[0]);
      assert (pre + x)[1..] == pre[1..] + x;
      assert forall c :: c in pre[1..] ==> c in pre;
      LStripSpaces(pre[1..], x);
    }
  }

  lemma {:induction false} RStripSpaces(x: string, post: string)
    requires forall c :: c in post ==> c == ' '
    requires x != [] && !IsSpace(x[|x| - 1])
    ensures RStrip(x + post) == x
  {
    if post == [] {
      assert x + post == x;
    } else {
      var init := post[..|post| - 1];
      assert (x + post)[..|x + post| - 1] == x + init;
      assert post[|post| - 1] in post;
      assert forall c :: c in init ==> c in post;
      RStripSpaces(x, init);
    }
  }

  /** Cleaning works character by character: a kept character stays, any other is dropped. */
  lemma CleanOne(c: char)
    ensures Clean([c]) == if Kept(c) then [c] else []
  {
    assert [c][1..] == [];
  }

  /** Cleaning distributes over concatenation, so kept characters keep their order. */
  lemma {:induction false} CleanAppend(a: string, b: string)
    ensures Clean(a + b) == Clean(a) + Clean(b)
  {
    if a == [] {
      assert a + b == b;
    } else {
      assert (a + b)[0] == a[0] && (a + b)[1..] == a[1..] + b;
      CleanAppend(a[1..], b);
    }
  }

  /** A string of kept characters is left alone by the cleaning. */
  lemma {:induction false} CleanKeeps(t: string)
    requires forall c :: c in t ==> Kept(c)
    ensures Clean(t) == t
  {
    if t != [] {
      assert forall c :: c in t[1..] ==> c in t;
      CleanKeeps(t[1..]);
      assert [t[0]] + t[1..] == t;
    }
  }

  /** "C | Am | Xz9 | G7", with any of the four separators in any of the three places, gives the
      tokens C, Am and G7: "Xz9" does not read as a chord. */
  lemma ExampleProgression(s1: char, s2: char, s3: char)
    requires s1 == ',' || IsSeparator(s1)
    requires s2 == ',' || IsSeparator(s2)
    requires s3 == ',' || IsSeparator(s3)
    ensures ChordTokens("C " + [s1] + (" Am " + [s2] + (" Xz9 " + [s3] + " G7"))) == ["C", "Am", "G7"]
  {
    ExampleTail(s2, s3);
    ExampleHead(s1, " Am " + [s2] + (" Xz9 " + [s3] + " G7"));
  }

  lemma ExampleHead(s1: char, tail: string)
    requires s1 == ',' || IsSeparator(s1)
    requires ChordTokens(tail) == ["Am", "G7"]
    ensures ChordTokens("C " + [s1] + tail) == ["C", "Am", "G7"]
  {
    ChordTokensAround("C ", s1, tail);
    ExampleC();
  }

  lemma ExampleTail(s2: char, s3: char)
    requires s2 == ',' || IsSeparator(s2)
    requires s3 == ',' || IsSeparator(s3)
    ensures ChordTokens(" Am " + [s2] + (" Xz9 " + [s3] + " G7")) == ["Am", "G7"]
  {
    ExampleLast(s3);
    ExampleMiddle(s2, " Xz9 " + [s3] + " G7");
  }

  lemma ExampleMiddle(s2: char, tail: string)
    requires s2 == ',' || IsSeparator(s2)
    requires ChordTokens(tail) == ["G7"]
    ensures ChordTokens(" Am " + [s2] + tail) == ["Am", "G7"]
  {
    ChordTokensAround(" Am ", s2, tail);
    ExampleAm();
  }

  lemma ExampleLast(s3: char)
    requires s3 == ',' || IsSeparator(s3)
    ensures ChordTokens(" Xz9 " + [s3] + " G7") == ["G7"]
  {
    ChordTokensAround(" Xz9 ", s3, " G7");
    ExampleXz9();
    ExampleG7();
  }

  lemma ExampleC()
    ensures ChordTokens("C ") == ["C"]
  {
    assert "C " == "" + "C" + " ";
    RootThenDigits("", "C", " ");
  }

  lemma ExampleG7()
    ensures ChordTokens(" G7") == ["G7"]
  {
    assert " G7" == " " + "G7" + "";
    RootThenDigits(" ", "G7", "");
  }

  /** A bare root letter followed only by digits, padded with spaces, is one token. */
  lemma RootThenDigits(pre: string, t: string, post: string)
    requires forall c :: c in pre + post ==> c == ' '
    requires t != [] && 'A' <= t[0] <= 'G' && AllDigits(t[1..])
    ensures ChordTokens(pre + t + post) == [t]
  {
    if |t| >= 2 {
      assert IsDigit(t[1..][0]) && IsDigit(t[1..][|t| - 2]);
    }
    forall c | c in t ensures Kept(c) {
      var k :| 0 <= k < |t| && t[k] == c;
      if k > 0 { assert t[1..][k - 1] == c; }
    }
    assert MatchesChord(t);
    PaddedChord(pre, t, post);
  }

  lemma ExampleAm()
    ensures ChordTokens(" Am ") == ["Am"]
  {
    assert " Am " == " " + "Am" + " ";
    assert MatchesChord("Am") by {
      assert Qualities[4] == "m" && Lower("m") == "m";
      QualityAt("m", Qualities, 4);
      assert "Am"[1..] == "m";
    }
    PaddedChord(" ", "Am", " ");
  }

  lemma ExampleXz9()
    ensures ChordTokens(" Xz9 ") == []
  {
    assert " Xz9 " == " " + "Xz9" + " ";
    assert !MatchesChord("Xz9") by { assert !IsRoot('X'); }
    PaddedChord(" ", "Xz9", " ");
  }

  /** A quality of `qs` followed by digits is found, wherever it stands in `qs`. */
  lemma {:induction false} QualityAt(r: string, qs: seq<string>, k: nat)
    requires k < |qs| && StartsWithIgnoreCase(r, qs[k]) && AllDigits(r[|qs[k]|..])
    ensures QualityThenDigits(r, qs)
  {
    if k > 0 {
      QualityAt(r, qs[1..], k - 1);
    }
  }

  // ---- what the export does with them ----

  datatype Export =
    | NoSong          // "Generate a song first"
    | NoProgression   // "No chord progression found"
    | NoValidChords   // "No valid chords found"
    | Render(tokens: seq<string>)

  /** The checks `download_midi_file` makes before asking where to save: no package, a blank
      progression and a progression without a valid chord each stop the export. */
  function ExportDecision(pkg: Option<seq<Field>>): Result<Export, PyError>
  {
    if pkg.None? || pkg.value == [] then Ok(NoSong)
    else
      var ideas := Get(pkg.value, "musical_ideas", Object([]));
      if !ideas.Object? then Err(NoAttribute(ideas, "get"))
      else
        var progression := Get(ideas.fields, "chord_progression", String(""));
        if !progression.String? then Err(NoAttribute(progression, "strip"))
        else Ok(ProgressionExport(progression.s))
  }

  /** What the export does with a chord progression that is a string. */
  function ProgressionExport(progression: string): Export
  {
    if Strip(progression) == [] then NoProgression
    else
      var tokens := ChordTokens(progression);
      if tokens == [] then NoValidChords else Render(tokens)
  }

  /** A progression is rendered exactly when it holds at least one valid chord, and then with
      those chords, every one of which reads as a chord name. */
  lemma ProgressionRender(progression: string)
    ensures ProgressionExport(progression).Render? <==> ChordTokens(progression) != []
    ensures ProgressionExport(progression).Render? ==>
      ProgressionExport(progression).tokens == ChordTokens(progression) &&
      forall t :: t in ProgressionExport(progression).tokens ==> InChordGrammar(t)
  {
    ChordTokensSound(progression);
    if Strip(progression) == [] {
      BlankHasNoTokens(progression);
    }
  }

  /** The export goes ahead exactly when the package has a chord progression with at least one valid
      chord. */
  lemma ExportDecisionRender(pkg: Option<seq<Field>>)
    ensures ExportDecision(pkg).Ok? && ExportDecision(pkg).value.Render? <==>
      pkg.Some? && pkg.value != [] && Get(pkg.value, "musical_ideas", Object([])).Object?
      && var progression := Get(Get(pkg.value, "musical_ideas", Object([])).fields, "chord_progression", String(""));
      progression.String? && ChordTokens(progression.s) != []
  {
    if pkg.Some? && pkg.value != [] {
      var ideas := Get(pkg.value, "musical_ideas", Object([]));
      if ideas.Object? {
        var progression := Get(ideas.fields, "chord_progression", String(""));
        if progression.String? {
          ProgressionRender(progression.s);
        }
      }
    }
  }

  /** A blank progression holds no chord. */
  lemma BlankHasNoTokens(progression: string)
    requires Strip(progression) == []
    ensures ChordTokens(progression) == []
  {
    StripEmptyIffAllSpace(progression);
    assert UnifySeparators(progression) == progression;
    assert Find(progression, ',') == -1;
  }
}
