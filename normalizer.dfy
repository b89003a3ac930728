/**
 * Turning the model's raw answer into a song package: a strict JSON parse
 * with one lenient retry, then filling in the metadata the answer left out
 * (never overwriting what it gave).
 */
module Normalizer {
  import opened Wrappers
  import opened PyText
  import opened JsonValue
  import opened Prompt

  /** `json.loads`, which this model does not implement: a value, or the decoder's error message. */
  type Parser = string -> Result<Value, string>

  /** The text from the first `{` to the last `}`, when there is a `}` after the first `{`. */
  function BraceSpan(s: string): (r: Option<string>)
    ensures r.None? <==> ('{' !in s || '}' !in s[Find(s, '{')..])
    ensures r.Some? ==> var i := Find(s, '{');
      && 2 <= |r.value| && i + |r.value| <= |s| && r.value == s[i..i + |r.value|]
      && r.value[0] == '{' && r.value[|r.value| - 1] == '}' && '}' !in s[i + |r.value|..]
  {
    var start := Find(s, '{');
    var end := RFind(s, '}');
    if start != -1 && end != -1 && end > start then
      assert s[start..][end - start] == '}';
      Some(s[start..end + 1])
    else
      None
  }

  /** `try_parse`: the strict parse if it succeeds; otherwise one more parse of the brace span, whose
      own outcome is returned; with no brace span, the strict parse's error. */
  function TryParse(s: string, parse: Parser): (r: Result<Value, PyError>)
    ensures parse(s).Ok? ==> r == Ok(parse(s).value)
    ensures parse(s).Err? && BraceSpan(s).None? ==> r == Err(JSONDecodeError(parse(s).error))
    ensures r.Ok? ==> parse(s) == Ok(r.value) || (BraceSpan(s).Some? && parse(BraceSpan(s).value) == Ok(r.value))
    ensures parse(s).Err? && BraceSpan(s).Some? ==> var t := BraceSpan(s).value;
      && (parse(t).Ok? ==> r == Ok(parse(t).value))
      && (parse(t).Err? ==> r == Err(JSONDecodeError(parse(t).error)))
  {
    match parse(s)
    case Ok(v) => Ok(v)
    case Err(e) =>
      match BraceSpan(s)
      case None => Err(JSONDecodeError(e))
      case Some(t) =>
        match parse(t)
        case Ok(v) => Ok(v)
        case Err(e2) => Err(JSONDecodeError(e2))
  }

  /** A payload wrapped in noise that holds no `{` before it and no `}` after it is recovered by
      parsing exactly the payload. */
  lemma TryParseRecovers(noiseBefore: string, payload: string, noiseAfter: string, parse: Parser)
    requires '{' !in noiseBefore && '}' !in noiseAfter
    requires |payload| >= 2 && payload[0] == '{' && payload[|payload| - 1] == '}'
    requires parse(noiseBefore + payload + noiseAfter).Err?
    ensures parse(payload).Ok? ==> TryParse(noiseBefore + payload + noiseAfter, parse) == Ok(parse(payload).value)
    ensures parse(payload).Err? ==>
              TryParse(noiseBefore + payload + noiseAfter, parse) == Err(JSONDecodeError(parse(payload).error))
  {
    var s := noiseBefore + payload + noiseAfter;
    var n := |noiseBefore|;
    assert s[n] == '{';
    assert forall k :: 0 <= k < n ==> s[k] == noiseBefore[k];
    assert Find(s, '{') == n;
    var m := n + |payload| - 1;
    assert s[m] == '}';
    assert s[m + 1..] == noiseAfter;
    assert RFind(s, '}') == m;
    assert s[n..m + 1] == payload;
  }

  /** `d.setdefault(k, default)` on the entries of a dict: a dict that has `k` is left as it is;
      otherwise `k` is appended with the default. */
  function WithDefault(fields: seq<Field>, k: string, default: Value): (r: seq<Field>)
    ensures k in Keys(fields) ==> r == fields
    ensures k !in Keys(fields) ==> r == fields + [Field(k, default)]
  {
    if k in Keys(fields) then fields else fields + [Field(k, default)]
  }

  /** What `setdefault` does to lookups: `k` is bound afterwards, to its old value if it had one and to
      the default otherwise; every other key is bound as before; entries keep their order. */
  lemma WithDefaultLookup(fields: seq<Field>, k: string, default: Value)
    ensures k in Keys(WithDefault(fields, k, default))
    ensures Lookup(WithDefault(fields, k, default), k) == if k in Keys(fields) then Lookup(fields, k) else Some(default)
    ensures forall k' :: k' != k ==> Lookup(WithDefault(fields, k, default), k') == Lookup(fields, k')
    ensures fields <= WithDefault(fields, k, default)
  {
    if k !in Keys(fields) {
      LookupAppend(fields, Field(k, default));
    }
  }

  lemma {:induction false} LookupAppend(fields: seq<Field>, f: Field)
    ensures forall k :: Lookup(fields + [f], k) == if k in Keys(fields) then Lookup(fields, k) else if k == f.key then Some(f.value) else None
  {
    if fields != [] {
      LookupAppend(fields[1..], f);
      assert (fields + [f])[1..] == fields[1..] + [f];
      assert Keys(fields) == [fields[0].key] + Keys(fields[1..]);
    }
  }

  /** `d[k] = v`: the first entry for `k` takes the new value in place, or the entry is appended. */
  function Assign(fields: seq<Field>, k: string, v: Value): (r: seq<Field>)
    ensures Lookup(r, k) == Some(v)
    ensures forall k' :: k' != k ==> Lookup(r, k') == Lookup(fields, k')
    ensures k in Keys(fields) ==> Keys(r) == Keys(fields)
    ensures Lookup(fields, k) == Some(v) ==> r == fields
  {
    if fields == [] then [Field(k, v)]
    else if fields[0].key == k then [Field(k, v)] + fields[1..]
    else
      var rest := Assign(fields[1..], k, v);
      assert Keys(fields) == [fields[0].key] + Keys(fields[1..]);
      assert Keys([fields[0]] + rest) == [fields[0].key] + Keys(rest);
      [fields[0]] + rest
  }

  /** The seven metadata keys, and the value each takes when the answer leaves it out: the brief's
      value when that is truthy, a fixed default otherwise. */
  function MetaDefaults(b: Brief): (ds: seq<Field>)
  {
    [ Field("genre", String(ShowText(b.genre, "unspecified"))),
      Field("mood", String(ShowText(b.mood, "unspecified"))),
      Field("topic", String(ShowText(b.topic, "unspecified"))),
      Field("language", String(ShowText(b.language, "English"))),
      Field("key", String(ShowText(b.key, "TBD"))),
      Field("tempo_bpm", Int(if b.tempo.Some? then b.tempo.value else 0)),
      Field("structure", String(ShowText(b.structure, "V-C-V-C-B-C"))) ]
  }

  const MetaKeys: seq<string> := ["genre", "mood", "topic", "language", "key", "tempo_bpm", "structure"]

  /** `setdefault` for each entry of a defaults table, in table order. */
  function FillFrom(meta: seq<Field>, ds: seq<Field>): seq<Field>
    decreases |ds|
  {
    if ds == [] then meta else FillFrom(WithDefault(meta, ds[0].key, ds[0].value), ds[1..])
  }

  /** The seven `m.setdefault(...)` calls of `generate_package`. */
  function FillMeta(meta: seq<Field>, b: Brief): seq<Field>
  {
    FillFrom(meta, MetaDefaults(b))
  }

  /** The defaults table lists exactly the seven metadata keys, in the order they are filled, each once. */
  lemma MetaDefaultsKeys(b: Brief)
    ensures Keys(MetaDefaults(b)) == MetaKeys
    ensures forall i, j :: 0 <= i < j < |MetaKeys| ==> MetaKeys[i] != MetaKeys[j]
  {
  }

  /** Filling only fills missing keys: a key the dict already has keeps its value (even `""`, `0` or
      `null`), and a key the table does not name is left as it was. */
  lemma {:induction false} FillFromKeeps(meta: seq<Field>, ds: seq<Field>, k: string)
    requires k in Keys(meta) || k !in Keys(ds)
    ensures Lookup(FillFrom(meta, ds), k) == Lookup(meta, k)
    decreases |ds|
  {
    if ds != [] {
      var m1 := WithDefault(meta, ds[0].key, ds[0].value);
      WithDefaultLookup(meta, ds[0].key, ds[0].value);
      assert Keys(ds) == [ds[0].key] + Keys(ds[1..]);
      FillFromKeeps(m1, ds[1..], k);
    }
  }

  /** Existing entries keep their place; at most one entry per table row comes after them. */
  lemma {:induction false} FillFromExtends(meta: seq<Field>, ds: seq<Field>)
    ensures meta <= FillFrom(meta, ds) && |FillFrom(meta, ds)| <= |meta| + |ds|
    decreases |ds|
  {
    if ds != [] {
      FillFromExtends(WithDefault(meta, ds[0].key, ds[0].value), ds[1..]);
    }
  }

  /** After filling, every key of the table is present, and one that was missing holds the table's
      value for it (the table naming each key once). */
  lemma {:induction false} FillFromComplete(meta: seq<Field>, ds: seq<Field>, i: nat)
    requires i < |ds|
    requires forall p, q :: 0 <= p < q < |ds| ==> ds[p].key != ds[q].key
    ensures ds[i].key in Keys(FillFrom(meta, ds))
    ensures ds[i].key !in Keys(meta) ==> Lookup(FillFrom(meta, ds), ds[i].key) == Some(ds[i].value)
    decreases |ds|
  {
    var m1 := WithDefault(meta, ds[0].key, ds[0].value);
    WithDefaultLookup(meta, ds[0].key, ds[0].value);
    if i == 0 {
      assert ds[0].key !in Keys(ds[1..]);
      FillFromKeeps(m1, ds[1..], ds[0].key);
    } else {
      assert ds[i].key != ds[0].key;
      FillFromComplete(m1, ds[1..], i - 1);
    }
  }

  /** A dict that already has every key of the table is left exactly as it is. */
  lemma {:induction false} FillFromNothingMissing(meta: seq<Field>, ds: seq<Field>)
    requires forall i :: 0 <= i < |ds| ==> ds[i].key in Keys(meta)
    ensures FillFrom(meta, ds) == meta
    decreases |ds|
  {
    if ds != [] {
      FillFromNothingMissing(meta, ds[1..]);
    }
  }

  /** After `generate_package`'s defaulting the metadata has all seven keys; one that was missing holds
      the brief's value if truthy, else the fixed default; everything the answer gave is kept. */
  lemma FillMetaComplete(meta: seq<Field>, b: Brief, i: nat)
    requires i < |MetaKeys|
    ensures MetaKeys[i] in Keys(FillMeta(meta, b))
    ensures MetaKeys[i] !in Keys(meta) ==> Lookup(FillMeta(meta, b), MetaKeys[i]) == Some(MetaDefaults(b)[i].value)
    ensures forall k :: k in Keys(meta) || k !in MetaKeys ==> Lookup(FillMeta(meta, b), k) == Lookup(meta, k)
  {
    MetaDefaultsKeys(b);
    FillFromComplete(meta, MetaDefaults(b), i);
    forall k | k in Keys(meta) || k !in MetaKeys
      ensures Lookup(FillMeta(meta, b), k) == Lookup(meta, k)
    {
      FillFromKeeps(meta, MetaDefaults(b), k);
    }
  }

  /** Filling a second time, from any brief, changes nothing. */
  lemma FillMetaIdempotent(meta: seq<Field>, b: Brief, b2: Brief)
    ensures FillMeta(FillMeta(meta, b), b2) == FillMeta(meta, b)
  {
    MetaDefaultsKeys(b);
    MetaDefaultsKeys(b2);
    forall i | 0 <= i < 7 ensures MetaDefaults(b2)[i].key in Keys(FillMeta(meta, b)) {
      FillFromComplete(meta, MetaDefaults(b), i);
    }
    FillFromNothingMissing(FillMeta(meta, b), MetaDefaults(b2));
  }

  /** The defaulting step of `generate_package`, on a parsed value. */
  function NormalizePackage(v: Value, b: Brief): Result<Value, PyError>
  {
    if !v.Object? then Err(NoAttribute(v, "setdefault"))
    else
      var pkg := WithDefault(v.fields, "meta", Object([]));
      WithDefaultLookup(v.fields, "meta", Object([]));
      var meta := Lookup(pkg, "meta").value;
      if !meta.Object? then Err(NoAttribute(meta, "setdefault"))
      else Ok(Object(Assign(pkg, "meta", Object(FillMeta(meta.fields, b)))))
  }

  /** The metadata dict the defaulting starts from: the answer's own, or a fresh empty one. */
  function StartMeta(fields: seq<Field>): Value
  {
    Get(fields, "meta", Object([]))
  }

  /** Defaulting fails exactly when the answer is not an object, or its `meta` is present but not an
      object; the error names the type that lacks `setdefault`. */
  lemma NormalizeErrors(v: Value, b: Brief)
    ensures NormalizePackage(v, b).Err? <==> !v.Object? || !StartMeta(v.fields).Object?
    ensures !v.Object? ==> NormalizePackage(v, b) == Err(NoAttribute(v, "setdefault"))
    ensures v.Object? && !StartMeta(v.fields).Object? ==>
      NormalizePackage(v, b) == Err(NoAttribute(StartMeta(v.fields), "setdefault"))
  {
    if v.Object? {
      WithDefaultLookup(v.fields, "meta", Object([]));
    }
  }

  /** On success the package holds, under `meta`, the filled-in metadata; every other top-level key
      keeps its value. */
  lemma NormalizeResult(v: Value, b: Brief)
    requires NormalizePackage(v, b).Ok?
    ensures v.Object? && StartMeta(v.fields).Object?
    ensures NormalizePackage(v, b).value.Object?
    ensures Lookup(NormalizePackage(v, b).value.fields, "meta") == Some(Object(FillMeta(StartMeta(v.fields).fields, b)))
    ensures forall k :: k != "meta" ==> Lookup(NormalizePackage(v, b).value.fields, k) == Lookup(v.fields, k)
  {
    WithDefaultLookup(v.fields, "meta", Object([]));
  }

  /** Normalising a normalised package, from any brief, gives it back unchanged. */
  lemma NormalizeIdempotent(v: Value, b: Brief, b2: Brief)
    requires NormalizePackage(v, b).Ok?
    ensures NormalizePackage(NormalizePackage(v, b).value, b2) == NormalizePackage(v, b)
  {
    NormalizeResult(v, b);
    var r := NormalizePackage(v, b).value;
    var filled := FillMeta(StartMeta(v.fields).fields, b);
    WithDefaultLookup(r.fields, "meta", Object([]));
    FillMetaIdempotent(StartMeta(v.fields).fields, b, b2);
    assert Lookup(r.fields, "meta") == Some(Object(filled));
  }

  /** An answer with no metadata at all, for a folk brief at 90 BPM with no key: genre and tempo come
      from the brief, the key becomes "TBD". */
  lemma NormalizeFolkExample(title: Value)
    ensures var r := NormalizePackage(Object([Field("title", title)]), FolkBrief());
      r.Ok? && r.value.Object? && Lookup(r.value.fields, "title") == Some(title) &&
      Lookup(r.value.fields, "meta") == Some(Object(FillMeta([], FolkBrief())))
  {
    var v := Object([Field("title", title)]);
    assert Keys(v.fields) == ["title"];
    assert StartMeta(v.fields) == Object([]);
    NormalizeErrors(v, FolkBrief());
    NormalizeResult(v, FolkBrief());
  }

  /** The metadata filled in for that folk brief from nothing: genre and tempo come from the brief. */
  lemma FolkMetaFromBrief()
    ensures var meta := FillMeta([], FolkBrief());
      Lookup(meta, "genre") == Some(String("folk")) && Lookup(meta, "tempo_bpm") == Some(Int(90))
  {
    FillMetaComplete([], FolkBrief(), 0);
    FillMetaComplete([], FolkBrief(), 5);
  }

  /** ... while the key and the mood, which the brief leaves empty, take the fixed defaults. */
  lemma FolkMetaDefaults()
    ensures var meta := FillMeta([], FolkBrief());
      Lookup(meta, "key") == Some(String("TBD")) && Lookup(meta, "mood") == Some(String("unspecified"))
  {
    FillMetaComplete([], FolkBrief(), 1);
    FillMetaComplete([], FolkBrief(), 4);
  }

  function FolkBrief(): Brief
  {
    Brief(Some("folk"), None, None, None, Some(90), None, None, None, None)
  }

  /** `generate_package` after the model call: parse the answer, then fill in the metadata. */
  function Generated(text: string, parse: Parser, b: Brief): Result<Value, PyError>
  {
    match TryParse(text, parse)
    case Err(e) => Err(e)
    case Ok(v) => NormalizePackage(v, b)
  }

  /** A Python dict that is updated in place. */
  class Dict {
    var fields: seq<Field>

    constructor (fs: seq<Field>)
      ensures fields == fs
    {
      fields := fs;
    }

    /** `d.setdefault(k, default)`: returns the value now stored under `k`. */
    method SetDefault(k: string, default: Value) returns (v: Value)
      modifies this
      ensures fields == WithDefault(old(fields), k, default)
      ensures Lookup(fields, k) == Some(v)
    {
      WithDefaultLookup(fields, k, default);
      fields := WithDefault(fields, k, default);
      v := Lookup(fields, k).value;
    }

    /** `d[k] = v` */
    method Put(k: string, v: Value)
      modifies this
      ensures fields == Assign(old(fields), k, v)
    {
      fields := Assign(fields, k, v);
    }
  }

  /** `generate_package` from the model's answer on: `pkg` and its `meta` dict are updated in place by
      `setdefault`; `meta` is written back into `pkg` at the end, which is what the alias between the
      two amounts to. */
  method GeneratePackage(text: string, parse: Parser, brief: Brief) returns (r: Result<Value, PyError>)
    ensures r == Generated(text, parse, brief)
  {
    var parsed := TryParse(text, parse);
    if parsed.Err? {
      return Err(parsed.error);
    }
    var v := parsed.value;
    if !v.Object? {
      return Err(NoAttribute(v, "setdefault"));
    }
    var pkg := new Dict(v.fields);
    var meta := pkg.SetDefault("meta", Object([]));
    if !meta.Object? {
      return Err(NoAttribute(meta, "setdefault"));
    }
    var m := new Dict(meta.fields);
    FillMetaInPlace(m, brief);
    pkg.Put("meta", Object(m.fields));
    r := Ok(Object(pkg.fields));
  }

  /** The seven `m.setdefault(...)` calls on the metadata dict, in the order of the defaults table. */
  method FillMetaInPlace(m: Dict, brief: Brief)
    modifies m
    ensures m.fields == FillMeta(old(m.fields), brief)
  {
    var defaults := MetaDefaults(brief);
    ghost var start := m.fields;
    assert defaults[0..] == defaults;
    SetDefaultRow(m, start, defaults, 0);
    SetDefaultRow(m, start, defaults, 1);
    SetDefaultRow(m, start, defaults, 2);
    SetDefaultRow(m, start, defaults, 3);
    SetDefaultRow(m, start, defaults, 4);
    SetDefaultRow(m, start, defaults, 5);
    SetDefaultRow(m, start, defaults, 6);
    assert defaults[7..] == [];
  }

  /** `m.setdefault(k, v)` for the `i`-th row `(k, v)` of the defaults table: the rows still to come
      turn the dict into what the whole table makes of `start`. */
  method SetDefaultRow(m: Dict, ghost start: seq<Field>, defaults: seq<Field>, i: nat)
    requires i < |defaults|
    requires FillFrom(m.fields, defaults[i..]) == FillFrom(start, defaults)
    modifies m
    ensures FillFrom(m.fields, defaults[i + 1..]) == FillFrom(start, defaults)
  {
    ghost var before := m.fields;
    var stored := m.SetDefault(defaults[i].key, defaults[i].value);
    FillStep(before, defaults, i);
  }

  lemma FillStep(meta: seq<Field>, ds: seq<Field>, i: nat)
    requires i < |ds|
    ensures FillFrom(meta, ds[i..]) == FillFrom(WithDefault(meta, ds[i].key, ds[i].value), ds[i + 1..])
  {
    assert ds[i..][1..] == ds[i + 1..];
  }
}
