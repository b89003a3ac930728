/**
 * The MIDI layout of `download_midi_file`: the n-th chord token is voiced by the chord library and
 * each of its notes is placed on the slot [2n, 2n + 2) seconds of a piano track (the code's comment
 * calls a slot "2 beats").  A token the chord library rejects adds nothing; a note name it cannot
 * number ends that chord early, keeping the notes already added.  Later chords keep their slot
 * either way.
 */
module MidiLayout {
  import opened Wrappers

  /** A pretty_midi note: velocity, MIDI pitch number and start and end times, in seconds. */
  datatype Note = Note(velocity: int, pitch: int, start: int, end: int)

  /** The velocity every chord note is written with. */
  const Velocity := 100

  /** "Acoustic Grand Piano" is program 0 of General MIDI. */
  const PianoProgram := 0

  /** A track whose note list the layout appends to. */
  class Instrument {
    var program: int
    var notes: seq<Note>

    constructor (program: int)
      ensures this.program == program && notes == []
    {
      this.program := program;
      notes := [];
    }
  }

  /** The chord library: `voicing(name)` are the note names of `Chord(name)` voiced from octave 4, or
      None when the chord name is rejected; `pitch(noteName)` is the MIDI number of a note name, or
      None when it is rejected. */
  datatype Renderer = Renderer(voicing: string -> Option<seq<string>>, pitch: string -> Option<int>)

  /** The note of slot `slot` at pitch `p`. */
  function SlotNote(slot: nat, p: int): (note: Note)
    ensures note.start == 2 * slot && note.end == note.start + 2 && note.velocity == Velocity
    ensures note.pitch == p
  {
    Note(Velocity, p, 2 * slot, 2 * slot + 2)
  }

  /** Every note name can be numbered. */
  predicate AllPitched(names: seq<string>, r: Renderer)
  {
    forall i :: 0 <= i < |names| ==> r.pitch(names[i]).Some?
  }

  /** The notes added for one voicing: one per note name, in order, up to the first name that cannot
      be numbered, where the exception leaves the chord. */
  function ChordNotes(slot: nat, names: seq<string>, r: Renderer): (notes: seq<Note>)
    ensures |notes| <= |names|
  {
    if names == [] then []
    else match r.pitch(names[0])
      case None => []
      case Some(p) => [SlotNote(slot, p)] + ChordNotes(slot, names[1..], r)
  }

  /** The notes added for token `token` in slot `slot`; none when the chord name is rejected. */
  function TokenNotes(slot: nat, token: string, r: Renderer): seq<Note>
  {
    match r.voicing(token)
    case None => []
    case Some(names) => ChordNotes(slot, names, r)
  }

  /** The notes added for `tokens`, the first of which goes in slot `first`. */
  function Layout(tokens: seq<string>, first: nat, r: Renderer): seq<Note>
  {
    if tokens == [] then []
    else TokenNotes(first, tokens[0], r) + Layout(tokens[1..], first + 1, r)
  }

  /** The loop over the tokens: `piano.notes` grows by exactly the layout of `tokens` from slot 0. */
  method AddChords(piano: Instrument, tokens: seq<string>, r: Renderer)
    modifies piano
    ensures piano.notes == old(piano.notes) + Layout(tokens, 0, r)
    ensures piano.program == old(piano.program)
  {
    var n := 0;
    while n < |tokens|
      invariant n <= |tokens|
      invariant piano.notes == old(piano.notes) + Layout(tokens[..n], 0, r)
      invariant piano.program == old(piano.program)
    {
      AddToken(piano, n, tokens[n], r);
      LayoutStep(tokens, n, r);
      n := n + 1;
    }
    assert tokens[..n] == tokens;
  }

  /** One pass of the chord loop: the token's notes when it can be voiced, nothing otherwise (the
      failure is only reported). */
  method AddToken(piano: Instrument, slot: nat, token: string, r: Renderer)
    modifies piano
    ensures piano.notes == old(piano.notes) + TokenNotes(slot, token, r)
    ensures piano.program == old(piano.program)
  {
    var voiced := r.voicing(token);
    if voiced.Some? {
      AddChordNotes(piano, slot, voiced.value, r);
    } else {
      assert TokenNotes(slot, token, r) == [];
      assert piano.notes == piano.notes + [];
    }
  }

  /** The loop over one chord's note names, left by the first name that cannot be numbered. */
  method AddChordNotes(piano: Instrument, slot: nat, names: seq<string>, r: Renderer)
    modifies piano
    ensures piano.notes == old(piano.notes) + ChordNotes(slot, names, r)
    ensures piano.program == old(piano.program)
  {
    var j := 0;
    var ok := true;
    while ok && j < |names|
      invariant j <= |names|
      invariant AllPitched(names[..j], r)
      invariant ok ==> piano.notes == old(piano.notes) + ChordNotes(slot, names[..j], r)
      invariant !ok ==> piano.notes == old(piano.notes) + ChordNotes(slot, names, r)
      invariant piano.program == old(piano.program)
      decreases |names| - j, ok
    {
      ChordNotesPrefix(slot, names, j, r);
      var p := r.pitch(names[j]);
      if p.None? {
        ok := false;
      } else {
        piano.notes := piano.notes + [SlotNote(slot, p.value)];
        j := j + 1;
      }
    }
    if ok {
      assert names[..j] == names;
    }
  }

  /** The whole export: a fresh piano track holding the layout of `tokens` from slot 0. */
  method RenderPiano(tokens: seq<string>, r: Renderer) returns (piano: Instrument)
    ensures fresh(piano)
    ensures piano.program == PianoProgram && piano.notes == Layout(tokens, 0, r)
  {
    piano := new Instrument(PianoProgram);
    AddChords(piano, tokens, r);
  }

  // ---- lemmas ----

  /** One step of the token loop. */
  lemma LayoutStep(tokens: seq<string>, n: nat, r: Renderer)
    requires n < |tokens|
    ensures Layout(tokens[..n + 1], 0, r) == Layout(tokens[..n], 0, r) + TokenNotes(n, tokens[n], r)
  {
    assert tokens[..n + 1] == tokens[..n] + [tokens[n]];
    LayoutAppend(tokens[..n], [tokens[n]], 0, r);
    LayoutSingle(tokens[n], n, r);
  }

  /** One step of the note loop: after a numbered prefix, the next name adds its note or ends the
      chord. */
  lemma {:induction false} ChordNotesPrefix(slot: nat, names: seq<string>, j: nat, r: Renderer)
    requires j < |names| && AllPitched(names[..j], r)
    ensures r.pitch(names[j]).None? ==> ChordNotes(slot, names, r) == ChordNotes(slot, names[..j], r)
    ensures r.pitch(names[j]).Some? ==>
      ChordNotes(slot, names[..j + 1], r) == ChordNotes(slot, names[..j], r) + [SlotNote(slot, r.pitch(names[j]).value)]
      && AllPitched(names[..j + 1], r)
  {
    if j > 0 {
      assert r.pitch(names[0]).Some? by { assert names[..j][0] == names[0]; }
      assert names[1..][..j - 1] == names[..j][1..];
      assert names[1..][..j] == names[..j + 1][1..];
      var rest := names[1..][..j - 1];
      assert AllPitched(rest, r) by {
        forall i | 0 <= i < |rest| ensures r.pitch(rest[i]).Some? {
          assert rest[i] == names[..j][i + 1];
        }
      }
      ChordNotesPrefix(slot, names[1..], j - 1, r);
    } else {
      assert names[..1] == [names[0]];
      assert names[..0] == [];
    }
  }

  /** Every note of a chord sits on its slot, at velocity 100. */
  lemma {:induction false} ChordNotesOnSlot(slot: nat, names: seq<string>, r: Renderer)
    ensures forall note :: note in ChordNotes(slot, names, r) ==>
      note.start == 2 * slot && note.end == 2 * slot + 2 && note.velocity == Velocity
  {
    if names != [] && r.pitch(names[0]).Some? {
      ChordNotesOnSlot(slot, names[1..], r);
    }
  }

  /** A chord whose names can all be numbered gives one note per name, with that name's pitch. */
  lemma {:induction false} ChordNotesComplete(slot: nat, names: seq<string>, r: Renderer)
    requires AllPitched(names, r)
    ensures |ChordNotes(slot, names, r)| == |names|
    ensures forall i :: 0 <= i < |names| ==> ChordNotes(slot, names, r)[i] == SlotNote(slot, r.pitch(names[i]).value)
  {
    if names != [] {
      assert r.pitch(names[0]).Some?;
      assert AllPitched(names[1..], r) by {
        forall i | 0 <= i < |names| - 1 ensures r.pitch(names[1..][i]).Some? {
          assert names[1..][i] == names[i + 1];
        }
      }
      ChordNotesComplete(slot, names[1..], r);
    }
  }

  /** Laying out two runs of tokens one after the other: the second run keeps the slots that follow
      the first, whatever the first adds. */
  lemma {:induction false} LayoutAppend(a: seq<string>, b: seq<string>, first: nat, r: Renderer)
    ensures Layout(a + b, first, r) == Layout(a, first, r) + Layout(b, first + |a|, r)
  {
    if a == [] {
      assert a + b == b;
    } else {
      assert (a + b)[0] == a[0] && (a + b)[1..] == a[1..] + b;
      LayoutAppend(a[1..], b, first + 1, r);
    }
  }

  /** A token the chord library rejects adds no note, and the tokens after it keep their slots. */
  lemma RejectedToken(a: seq<string>, t: string, b: seq<string>, first: nat, r: Renderer)
    requires r.voicing(t).None?
    ensures Layout(a + [t] + b, first, r) == Layout(a, first, r) + Layout(b, first + |a| + 1, r)
  {
    calc {
      Layout(a + [t] + b, first, r);
      { assert a + [t] + b == a + ([t] + b); }
      Layout(a + ([t] + b), first, r);
      { LayoutAppend(a, [t] + b, first, r); }
      Layout(a, first, r) + Layout([t] + b, first + |a|, r);
      { LayoutCons(t, b, first + |a|, r); }
      Layout(a, first, r) + (TokenNotes(first + |a|, t, r) + Layout(b, first + |a| + 1, r));
    }
  }

  /** The first token takes slot `first`, the rest follow it. */
  lemma LayoutCons(t: string, b: seq<string>, first: nat, r: Renderer)
    ensures Layout([t] + b, first, r) == TokenNotes(first, t, r) + Layout(b, first + 1, r)
  {
    LayoutAppend([t], b, first, r);
    LayoutSingle(t, first, r);
  }

  /** A single token's layout is its notes. */
  lemma LayoutSingle(t: string, slot: nat, r: Renderer)
    ensures Layout([t], slot, r) == TokenNotes(slot, t, r)
  {
    assert [t][1..] == [];
  }

  /** Every note of the layout belongs to one token's slot: its interval is [2n, 2n + 2) for the
      slot n of that token, and it is one of that token's notes. */
  lemma {:induction false} LayoutSlots(tokens: seq<string>, first: nat, r: Renderer)
    ensures forall note :: note in Layout(tokens, first, r) ==>
      exists i :: 0 <= i < |tokens| && InSlot(note, tokens, first, i, r)
  {
    if tokens != [] {
      var rest := tokens[1..];
      LayoutSlots(rest, first + 1, r);
      TokenNotesOnSlot(first, tokens[0], r);
      forall note | note in Layout(tokens, first, r)
        ensures exists i :: 0 <= i < |tokens| && InSlot(note, tokens, first, i, r)
      {
        if note in TokenNotes(first, tokens[0], r) {
          assert InSlot(note, tokens, first, 0, r);
        } else {
          assert note in Layout(rest, first + 1, r);
          var i :| 0 <= i < |rest| && InSlot(note, rest, first + 1, i, r);
          assert rest[i] == tokens[i + 1];
          assert InSlot(note, tokens, first, i + 1, r);
        }
      }
    }
  }

  /** `note` is one of the notes of token `i`, on that token's slot [2n, 2n + 2), at velocity 100. */
  predicate InSlot(note: Note, tokens: seq<string>, first: nat, i: nat, r: Renderer)
    requires i < |tokens|
  {
    note in TokenNotes(first + i, tokens[i], r)
    && note.start == 2 * (first + i) && note.end == note.start + 2 && note.velocity == Velocity
  }

  lemma TokenNotesOnSlot(slot: nat, token: string, r: Renderer)
    ensures forall note :: note in TokenNotes(slot, token, r) ==>
      note.start == 2 * slot && note.end == 2 * slot + 2 && note.velocity == Velocity
  {
    if r.voicing(token).Some? {
      ChordNotesOnSlot(slot, r.voicing(token).value, r);
    }
  }

  /** The notes come out in token order: their start times never decrease, and all of them lie in
      the slots of the tokens. */
  lemma {:induction false} LayoutOrdered(tokens: seq<string>, first: nat, r: Renderer)
    ensures forall i, j :: 0 <= i < j < |Layout(tokens, first, r)| ==>
      Layout(tokens, first, r)[i].start <= Layout(tokens, first, r)[j].start
    ensures forall note :: note in Layout(tokens, first, r) ==>
      2 * first <= note.start < 2 * (first + |tokens|)
  {
    if tokens != [] {
      LayoutOrdered(tokens[1..], first + 1, r);
      TokenNotesOnSlot(first, tokens[0], r);
      var xs: seq<Note> := TokenNotes(first, tokens[0], r);
      var ys: seq<Note> := Layout(tokens[1..], first + 1, r);
      assert Layout(tokens, first, r) == xs + ys;
      forall i, j | 0 <= i < j < |xs + ys| ensures (xs + ys)[i].start <= (xs + ys)[j].start {
        if i < |xs| {
          assert (xs + ys)[i] in xs;
          if j < |xs| {
            assert (xs + ys)[j] in xs;
          } else {
            assert (xs + ys)[j] in ys;
          }
        } else {
          assert (xs + ys)[i] == ys[i - |xs|] && (xs + ys)[j] == ys[j - |xs|];
        }
      }
      forall note | note in xs + ys ensures 2 * first <= note.start < 2 * (first + |tokens|) {
        assert note in xs || note in ys;
      }
    }
  }
}
