/** Layered JSON objects: the recursive merge, and what every path of the result holds. */
module DeepMerge {
  import opened Options
  import opened JsonValue

  /** Two objects merge key by key; anything else is replaced by the overlay. */
  function Merge(base: Json, overlay: Json): (m: Json)
    ensures base.Obj? && overlay.Obj? ==> m.Obj?
    decreases overlay
  {
    if base.Obj? && overlay.Obj? then
      Obj(map k | k in base.fields.Keys + overlay.fields.Keys ::
            if k !in overlay.fields then base.fields[k]
            else if k in base.fields then Merge(base.fields[k], overlay.fields[k])
            else overlay.fields[k])
    else overlay
  }

  /** The value of a merge under one key. */
  lemma MergedField(base: Json, overlay: Json, k: string)
    requires base.Obj? && overlay.Obj?
    ensures
      var m := Merge(base, overlay).fields;
      && (k in m <==> k in base.fields || k in overlay.fields)
      && (k in base.fields && k !in overlay.fields ==> m[k] == base.fields[k])
      && (k !in base.fields && k in overlay.fields ==> m[k] == overlay.fields[k])
      && (k in base.fields && k in overlay.fields ==>
            m[k] == if base.fields[k].Obj? && overlay.fields[k].Obj? then Merge(base.fields[k], overlay.fields[k]) else overlay.fields[k])
  {
    if k in base.fields && k in overlay.fields && !(base.fields[k].Obj? && overlay.fields[k].Obj?) {
      assert Merge(base.fields[k], overlay.fields[k]) == overlay.fields[k];
    }
  }

  /** Merge `overlay` into `base`, one entry at a time, in any order. */
  method MergeInto(base: map<string, Json>, overlay: map<string, Json>) returns (merged: map<string, Json>)
    ensures Obj(merged) == Merge(Obj(base), Obj(overlay))
    decreases Obj(overlay)
  {
    merged := base;
    ghost var whole := Merge(Obj(base), Obj(overlay)).fields;
    var todo := overlay.Keys;
    while todo != {}
      invariant todo <= overlay.Keys
      invariant merged.Keys == base.Keys + (overlay.Keys - todo)
      invariant forall k :: k in merged ==> merged[k] == if k in todo then base[k] else whole[k]
    {
      var k :| k in todo;
      var value := overlay[k];
      MergedField(Obj(base), Obj(overlay), k);
      if k in merged && merged[k].Obj? && value.Obj? {
        var inner := MergeInto(merged[k].fields, value.fields);
        assert Obj(base[k].fields) == base[k] && Obj(value.fields) == value;
        merged := merged[k := Obj(inner)];
      } else {
        merged := merged[k := value];
      }
      todo := todo - {k};
    }
    assert merged == whole;
  }

  // ---------- paths ----------

  type Path = seq<string>

  function Lookup(j: Json, p: Path): Option<Json> {
    if p == [] then Some(j)
    else if j.Obj? && p[0] in j.fields then Lookup(j.fields[p[0]], p[1..])
    else None
  }

  /** A leaf is a value at a path that is not an object. */
  function LeafAt(j: Json, p: Path): Option<Json> {
    match Lookup(j, p)
    case Some(v) => if v.Obj? then None else Some(v)
    case None => None
  }

  predicate ObjectAt(j: Json, p: Path) {
    Lookup(j, p).Some? && Lookup(j, p).value.Obj?
  }

  /** A layer covers a path when the path leads to a value in it, or runs into one that is not an object. */
  predicate Covers(layer: Json, p: Path) {
    p == [] || !layer.Obj? || (p[0] in layer.fields && Covers(layer.fields[p[0]], p[1..]))
  }

  /** The same without recursion: some prefix of the path ends the walk. */
  lemma {:induction false} CoversMeans(layer: Json, p: Path)
    ensures Covers(layer, p) <==>
      exists n :: 0 <= n <= |p| && Lookup(layer, p[..n]).Some? && (n == |p| || !Lookup(layer, p[..n]).value.Obj?)
    decreases |p|
  {
    if p == [] {
      assert p[..0] == [];
    } else if !layer.Obj? {
      assert p[..0] == [];
      assert Lookup(layer, p[..0]) == Some(layer);
    } else {
      if p[0] in layer.fields {
        CoversMeans(layer.fields[p[0]], p[1..]);
      }
      forall n | 1 <= n <= |p| ensures p[..n][0] == p[0] && p[..n][1..] == p[1..][..n - 1] {
      }
      if Covers(layer, p) {
        var n :| 0 <= n <= |p| - 1 && Lookup(layer.fields[p[0]], p[1..][..n]).Some?
          && (n == |p| - 1 || !Lookup(layer.fields[p[0]], p[1..][..n]).value.Obj?);
        assert Lookup(layer, p[..n + 1]) == Lookup(layer.fields[p[0]], p[1..][..n]);
      }
      if n :| 0 <= n <= |p| && Lookup(layer, p[..n]).Some? && (n == |p| || !Lookup(layer, p[..n]).value.Obj?) {
        if n == 0 {
          assert p[..0] == [];
        } else {
          assert Lookup(layer, p[..n]) == Lookup(layer.fields[p[0]], p[1..][..n - 1]);
        }
      }
    }
  }

  lemma {:induction false} UncoveredIsAbsent(layer: Json, p: Path)
    requires !Covers(layer, p)
    ensures Lookup(layer, p).None?
    decreases |p|
  {
    if p[0] in layer.fields {
      UncoveredIsAbsent(layer.fields[p[0]], p[1..]);
    }
  }

  /** Every path of a merge: the overlay's leaf where the overlay covers it, the base's leaf exactly where it does not. */
  lemma {:induction false} MergedLeaf(base: Json, overlay: Json, p: Path)
    requires base.Obj? && overlay.Obj?
    ensures LeafAt(Merge(base, overlay), p) == if Covers(overlay, p) then LeafAt(overlay, p) else LeafAt(base, p)
    ensures ObjectAt(Merge(base, overlay), p) <==> ObjectAt(overlay, p) || (!Covers(overlay, p) && ObjectAt(base, p))
    decreases |p|
  {
    if p != [] {
      var k, rest := p[0], p[1..];
      MergedField(base, overlay, k);
      if k in base.fields && k in overlay.fields {
        var b, o := base.fields[k], overlay.fields[k];
        if b.Obj? && o.Obj? {
          MergedLeaf(b, o, rest);
        } else {
          assert Lookup(Merge(base, overlay), p) == Lookup(o, rest) == Lookup(overlay, p);
          if !Covers(o, rest) {
            UncoveredIsAbsent(o, rest);
            assert !b.Obj? && Lookup(base, p).None?;
          }
        }
      } else if k in overlay.fields && !Covers(overlay.fields[k], rest) {
        UncoveredIsAbsent(overlay.fields[k], rest);
      }
    }
  }

  lemma OneStep(j: Json, k: string)
    requires j.Obj?
    ensures Lookup(j, [k]) == if k in j.fields then Some(j.fields[k]) else None
  {
    assert [k][1..] == [];
    assert k in j.fields ==> Lookup(j.fields[k], []) == Some(j.fields[k]);
  }

  /** A value is determined by its leaves and by where its objects are. */
  lemma {:induction false} SamePathsSameValue(a: Json, b: Json)
    requires forall p :: LeafAt(a, p) == LeafAt(b, p)
    requires forall p :: ObjectAt(a, p) <==> ObjectAt(b, p)
    ensures a == b
    decreases a
  {
    assert LeafAt(a, []) == LeafAt(b, []) && (ObjectAt(a, []) <==> ObjectAt(b, []));
    if a.Obj? {
      forall k ensures k in a.fields <==> k in b.fields {
        assert LeafAt(a, [k]) == LeafAt(b, [k]) && (ObjectAt(a, [k]) <==> ObjectAt(b, [k]));
        OneStep(a, k);
        OneStep(b, k);
      }
      forall k | k in a.fields ensures a.fields[k] == b.fields[k] {
        forall p ensures LeafAt(a.fields[k], p) == LeafAt(b.fields[k], p) && (ObjectAt(a.fields[k], p) <==> ObjectAt(b.fields[k], p)) {
          assert ([k] + p)[1..] == p;
          assert LeafAt(a, [k] + p) == LeafAt(b, [k] + p) && (ObjectAt(a, [k] + p) <==> ObjectAt(b, [k] + p));
        }
        SamePathsSameValue(a.fields[k], b.fields[k]);
      }
      assert a.fields == b.fields;
    }
  }

  /** The path law leaves no freedom: an object that obeys it is the merge. */
  lemma MergeIsTheOnlyOne(base: Json, overlay: Json, m: Json)
    requires base.Obj? && overlay.Obj?
    requires forall p :: LeafAt(m, p) == if Covers(overlay, p) then LeafAt(overlay, p) else LeafAt(base, p)
    requires forall p :: ObjectAt(m, p) <==> ObjectAt(overlay, p) || (!Covers(overlay, p) && ObjectAt(base, p))
    ensures m == Merge(base, overlay)
  {
    hide Merge, Covers, Lookup;
    forall p ensures LeafAt(m, p) == LeafAt(Merge(base, overlay), p) && (ObjectAt(m, p) <==> ObjectAt(Merge(base, overlay), p)) {
      MergedLeaf(base, overlay, p);
    }
    SamePathsSameValue(m, Merge(base, overlay));
  }

  // ---------- grouping ----------

  /** Below a leaf of `b` that an object of `c` replaces, outside what `c` itself covers. */
  predicate Hidden(b: Json, c: Json, p: Path) {
    !Covers(c, p) && exists n :: 0 <= n <= |p| && LeafAt(b, p[..n]).Some? && ObjectAt(c, p[..n])
  }

  lemma HiddenStep(b: Json, c: Json, p: Path)
    requires b.Obj? && c.Obj? && p != [] && p[0] in b.fields && p[0] in c.fields
    ensures Hidden(b, c, p) <==>
      !Covers(c, p) && ((!b.fields[p[0]].Obj? && c.fields[p[0]].Obj?) || Hidden(b.fields[p[0]], c.fields[p[0]], p[1..]))
  {
    hide Covers;
    var k, rest := p[0], p[1..];
    CoversStep(c, p);
    forall n | 1 <= n <= |p| ensures Lookup(b, p[..n]) == Lookup(b.fields[k], rest[..n - 1])
      && Lookup(c, p[..n]) == Lookup(c.fields[k], rest[..n - 1])
    {
      assert p[..n][0] == k && p[..n][1..] == rest[..n - 1];
    }
    assert p[..0] == [] && rest[..0] == [];
    assert Lookup(b, p[..1]) == Some(b.fields[k]) && Lookup(c, p[..1]) == Some(c.fields[k]);
    if n :| 0 <= n <= |rest| && LeafAt(b.fields[k], rest[..n]).Some? && ObjectAt(c.fields[k], rest[..n]) {
      assert LeafAt(b, p[..n + 1]).Some? && ObjectAt(c, p[..n + 1]);
    }
    if n :| 0 <= n <= |p| && LeafAt(b, p[..n]).Some? && ObjectAt(c, p[..n]) {
      assert n > 0 && LeafAt(b.fields[k], rest[..n - 1]).Some? && ObjectAt(c.fields[k], rest[..n - 1]);
    }
  }

  lemma CoversStep(c: Json, p: Path)
    requires c.Obj? && p != []
    ensures Covers(c, p) <==> p[0] in c.fields && Covers(c.fields[p[0]], p[1..])
  {
  }

  /** Nothing is hidden under a key that only one of the two has. */
  lemma HiddenNeedsBoth(b: Json, c: Json, p: Path)
    requires b.Obj? && c.Obj? && p != [] && !(p[0] in b.fields && p[0] in c.fields)
    ensures !Hidden(b, c, p)
  {
    forall n | 1 <= n <= |p| ensures p[..n][0] == p[0] {
    }
    assert p[..0] == [];
  }

  /** A merge covers what either layer covers, but for what is hidden. */
  lemma {:induction false} MergedCovers(b: Json, c: Json, p: Path)
    requires b.Obj? && c.Obj?
    ensures Covers(Merge(b, c), p) <==> Covers(c, p) || (Covers(b, p) && !Hidden(b, c, p))
    decreases |p|
  {
    hide Merge, Covers, Hidden;
    if p == [] {
      RootIsCovered(c);
      RootIsCovered(Merge(b, c));
    } else {
      var k, rest := p[0], p[1..];
      MergedField(b, c, k);
      CoversStep(b, p);
      CoversStep(c, p);
      CoversStep(Merge(b, c), p);
      if k in b.fields && k in c.fields {
        HiddenStep(b, c, p);
        if b.fields[k].Obj? && c.fields[k].Obj? {
          MergedCovers(b.fields[k], c.fields[k], rest);
        } else if !c.fields[k].Obj? {
          LeafCovers(c.fields[k], rest);
        }
      } else {
        HiddenNeedsBoth(b, c, p);
      }
    }
  }

  lemma RootIsCovered(j: Json)
    ensures Covers(j, [])
  {
  }

  lemma LeafCovers(j: Json, p: Path)
    requires !j.Obj?
    ensures Covers(j, p)
  {
  }

  /** A leaf above a path covers it, and leaves nothing at it. */
  lemma {:induction false} LeafAbove(b: Json, p: Path, n: nat)
    requires n < |p| && LeafAt(b, p[..n]).Some?
    ensures Covers(b, p) && Lookup(b, p).None?
    decreases n
  {
    if n > 0 {
      assert p[..n][0] == p[0] && p[..n][1..] == p[1..][..n - 1];
      LeafAbove(b.fields[p[0]], p[1..], n - 1);
    }
  }

  lemma {:induction false} PresentIsCovered(c: Json, p: Path)
    requires Lookup(c, p).Some?
    ensures Covers(c, p)
    decreases |p|
  {
    if p != [] {
      PresentIsCovered(c.fields[p[0]], p[1..]);
    }
  }

  lemma HiddenIsCovered(b: Json, c: Json, p: Path)
    requires Hidden(b, c, p)
    ensures !Covers(c, p) && Covers(b, p) && Lookup(b, p).None?
  {
    hide Covers;
    var n :| 0 <= n <= |p| && LeafAt(b, p[..n]).Some? && ObjectAt(c, p[..n]);
    if n == |p| {
      assert p[..n] == p;
      PresentIsCovered(c, p);
      assert false;
    } else {
      LeafAbove(b, p, n);
    }
  }

  /** What the two groupings hold at a path: the same, unless the path is hidden and the first layer has something there. */
  lemma GroupingsAt(a: Json, b: Json, c: Json, p: Path)
    requires a.Obj? && b.Obj? && c.Obj?
    ensures
      var l, r := Merge(Merge(a, b), c), Merge(a, Merge(b, c));
      if Hidden(b, c, p) then Lookup(l, p).None? && Lookup(r, p).Some? == Lookup(a, p).Some?
      else LeafAt(l, p) == LeafAt(r, p) && (ObjectAt(l, p) <==> ObjectAt(r, p))
  {
    hide Merge, Covers, Hidden, Lookup;
    MergedLeaf(Merge(a, b), c, p);
    MergedLeaf(a, b, p);
    MergedLeaf(a, Merge(b, c), p);
    MergedLeaf(b, c, p);
    MergedCovers(b, c, p);
    if !Covers(c, p) { UncoveredIsAbsent(c, p); }
    if !Covers(b, p) { UncoveredIsAbsent(b, p); }
    if Hidden(b, c, p) { HiddenIsCovered(b, c, p); }
  }

  /** Merging in two groupings gives the same exactly when the first layer has nothing at any hidden path. */
  lemma AssociativeExactlyWhen(a: Json, b: Json, c: Json)
    requires a.Obj? && b.Obj? && c.Obj?
    ensures Merge(Merge(a, b), c) == Merge(a, Merge(b, c)) <==> forall p :: Hidden(b, c, p) ==> Lookup(a, p).None?
  {
    hide Merge, Covers, Lookup, Hidden;
    var l, r := Merge(Merge(a, b), c), Merge(a, Merge(b, c));
    forall p ensures
      if Hidden(b, c, p) then Lookup(l, p).None? && Lookup(r, p).Some? == Lookup(a, p).Some?
      else LeafAt(l, p) == LeafAt(r, p) && (ObjectAt(l, p) <==> ObjectAt(r, p))
    {
      GroupingsAt(a, b, c, p);
    }
    if forall p :: Hidden(b, c, p) ==> Lookup(a, p).None? {
      forall p ensures LeafAt(l, p) == LeafAt(r, p) && (ObjectAt(l, p) <==> ObjectAt(r, p)) {
        assert Hidden(b, c, p) ==> Lookup(a, p).None?;
      }
      SamePathsSameValue(l, r);
    }
  }

  /** Object, scalar, object at one key: the scalar wipes what the first layer held, in one grouping only. */
  lemma NotAssociative()
    ensures
      var a, b, c := Obj(map["k" := Obj(map["x" := Num(1)])]), Obj(map["k" := Num(2)]), Obj(map["k" := Obj(map["y" := Num(3)])]);
      Merge(Merge(a, b), c) != Merge(a, Merge(b, c))
  {
    var a, b, c := Obj(map["k" := Obj(map["x" := Num(1)])]), Obj(map["k" := Num(2)]), Obj(map["k" := Obj(map["y" := Num(3)])]);
    var p := ["k", "x"];
    assert p[1..] == ["x"] && p[..1] == ["k"] && ["k"][1..] == [] && ["x"][1..] == [];
    OneStep(b, "k");
    OneStep(c, "k");
    OneStep(a.fields["k"], "x");
    assert !Covers(c.fields["k"], ["x"]);
    assert Hidden(b, c, p);
    assert Lookup(a, p) == Lookup(a.fields["k"], ["x"]);
    AssociativeExactlyWhen(a, b, c);
  }

  // ---------- layers ----------

  /** Layers applied from the first to the last. */
  function Stack(layers: seq<Json>): (m: Json)
    requires |layers| > 0 && forall i :: 0 <= i < |layers| ==> layers[i].Obj?
    ensures m.Obj?
  {
    if |layers| == 1 then layers[0] else Merge(Stack(layers[..|layers| - 1]), layers[|layers| - 1])
  }

  /** The last layer that covers a path, or the first one. */
  function TopLayer(layers: seq<Json>, p: Path): (i: nat)
    requires |layers| > 0
    ensures i < |layers|
    ensures i > 0 ==> Covers(layers[i], p)
    ensures forall j :: i < j < |layers| ==> !Covers(layers[j], p)
  {
    if |layers| == 1 || Covers(layers[|layers| - 1], p) then |layers| - 1 else TopLayer(layers[..|layers| - 1], p)
  }

  /** What a stack of layers holds at a path is what the last layer that covers the path holds there. */
  lemma {:induction false} StackedLeaf(layers: seq<Json>, p: Path)
    requires |layers| > 0 && forall i :: 0 <= i < |layers| ==> layers[i].Obj?
    ensures LeafAt(Stack(layers), p) == LeafAt(layers[TopLayer(layers, p)], p)
    decreases |layers|
  {
    if |layers| > 1 {
      MergedLeaf(Stack(layers[..|layers| - 1]), layers[|layers| - 1], p);
      StackedLeaf(layers[..|layers| - 1], p);
    }
  }

  lemma TopLayerIs(layers: seq<Json>, p: Path, i: nat)
    requires i < |layers| && (i > 0 ==> Covers(layers[i], p))
    requires forall j :: i < j < |layers| ==> !Covers(layers[j], p)
    ensures TopLayer(layers, p) == i
  {
  }
}

/** The merged `CODEX_CONFIG` of a Codex agent. */
module CodexConfig {
  import opened Options
  import opened JsonValue
  import opened DeepMerge

  datatype Source = Persona | Generated | ParentEnvironment

  datatype CodexError = NotJson(source: Source) | NotAnObject(source: Source) | SandboxNotAnObject

  const SANDBOX := "sandbox_workspace_write"
  const NETWORK := "network_access"

  /** The setting that always wins. */
  const FORCED: Json := Obj(map[SANDBOX := Obj(map[NETWORK := Bool(true)])])

  type Parser = string -> Option<Json>

  function Entries(env: seq<(string, string)>): seq<string> {
    if env == [] then []
    else Entries(env[..|env| - 1]) + (if env[|env| - 1].0 == "CODEX_CONFIG" then [env[|env| - 1].1] else [])
  }

  function ParseObject(parse: Parser, raw: string, source: Source): (r: Result<Json, CodexError>)
    ensures r.Ok? ==> r.value.Obj?
  {
    match parse(raw)
    case None => Err(NotJson(source))
    case Some(j) => if j.Obj? then Ok(j) else Err(NotAnObject(source))
  }

  function SourceOf(i: nat): Source {
    if i == 0 then Persona else Generated
  }

  /** Every entry as an object, or the first one that is not. */
  function ParseEntries(parse: Parser, entries: seq<string>): (r: Result<seq<Json>, CodexError>)
    ensures r.Ok? ==> |r.value| == |entries| && forall i :: 0 <= i < |entries| ==> r.value[i].Obj?
    ensures r.Ok? ==> forall i :: 0 <= i < |entries| ==> ParseObject(parse, entries[i], SourceOf(i)) == Ok(r.value[i])
  {
    if entries == [] then Ok([])
    else
      var n := |entries| - 1;
      match ParseEntries(parse, entries[..n])
      case Err(e) => Err(e)
      case Ok(objects) =>
        match ParseObject(parse, entries[n], SourceOf(n))
        case Err(e) => Err(e)
        case Ok(j) => Ok(objects + [j])
  }

  /** Set `network_access` in the sandbox section, creating the section when it is absent. */
  function Force(base: Json): Result<Json, CodexError>
    requires base.Obj?
  {
    var section := if SANDBOX in base.fields then base.fields[SANDBOX] else Obj(map[]);
    if section.Obj? then Ok(Obj(base.fields[SANDBOX := Obj(section.fields[NETWORK := Bool(true)])]))
    else Err(SandboxNotAnObject)
  }

  function Build(parse: Parser, env: seq<(string, string)>, parent: Option<string>, generated: bool): Result<Option<Json>, CodexError> {
    var entries := Entries(env);
    if !generated || entries == [] then Ok(None)
    else match ParseEntries(parse, entries)
      case Err(e) => Err(e)
      case Ok(objects) =>
        match (if parent.None? then Ok(objects) else ParentLayer(parse, objects, parent.value))
        case Err(e) => Err(e)
        case Ok(layers) => Forced(Force(Stack(layers)))
  }

  function Forced(r: Result<Json, CodexError>): Result<Option<Json>, CodexError> {
    match r
    case Ok(j) => Ok(Some(j))
    case Err(e) => Err(e)
  }

  function ParentLayer(parse: Parser, objects: seq<Json>, raw: string): (r: Result<seq<Json>, CodexError>)
    requires forall i :: 0 <= i < |objects| ==> objects[i].Obj?
    ensures r.Ok? ==> |r.value| == |objects| + 1 && forall i :: 0 <= i < |r.value| ==> r.value[i].Obj?
  {
    match ParseObject(parse, raw, ParentEnvironment)
    case Ok(j) => Ok(objects + [j])
    case Err(e) => Err(e)
  }

  /** Collect, parse, merge, and force, in the order the environment lists them. */
  method BuildCodexConfigEnv(parse: Parser, env: seq<(string, string)>, parent: Option<string>, generated: bool)
    returns (r: Result<Option<Json>, CodexError>)
    ensures r == Build(parse, env, parent, generated)
  {
    if !generated {
      return Ok(None);
    }
    var entries: seq<string> := [];
    for i := 0 to |env|
      invariant entries == Entries(env[..i])
    {
      assert env[..i + 1][..i] == env[..i];
      if env[i].0 == "CODEX_CONFIG" {
        entries := entries + [env[i].1];
      }
    }
    assert env[..|env|] == env;
    if entries == [] {
      return Ok(None);
    }
    var objects := ParseAll(parse, entries);
    if objects.Err? {
      return Err(objects.error);
    }
    var layers := objects.value;
    var base := layers[0];
    for i := 1 to |layers|
      invariant base == Stack(layers[..i])
    {
      assert layers[..i + 1][..i] == layers[..i];
      var merged := MergeInto(base.fields, layers[i].fields);
      base := Obj(merged);
    }
    assert layers[..|layers|] == layers;
    if parent.Some? {
      var parsed := ParseObject(parse, parent.value, ParentEnvironment);
      if parsed.Err? {
        return Err(parsed.error);
      }
      var merged := MergeInto(base.fields, parsed.value.fields);
      base := Obj(merged);
      assert (layers + [parsed.value])[..|layers|] == layers;
    }
    r := Forced(Force(base));
  }

  method ParseAll(parse: Parser, entries: seq<string>) returns (r: Result<seq<Json>, CodexError>)
    ensures r == ParseEntries(parse, entries)
  {
    var objects: seq<Json> := [];
    for i := 0 to |entries|
      invariant ParseEntries(parse, entries[..i]) == Ok(objects)
    {
      assert entries[..i + 1][..i] == entries[..i];
      var parsed := ParseObject(parse, entries[i], SourceOf(i));
      if parsed.Err? {
        ParseFailsEarly(parse, entries, i + 1);
        return Err(parsed.error);
      }
      objects := objects + [parsed.value];
    }
    assert entries[..|entries|] == entries;
    r := Ok(objects);
  }

  lemma {:induction false} ParseFailsEarly(parse: Parser, entries: seq<string>, n: nat)
    requires n <= |entries| && ParseEntries(parse, entries[..n]).Err?
    ensures ParseEntries(parse, entries) == ParseEntries(parse, entries[..n])
    decreases |entries|
  {
    if n == |entries| {
      assert entries[..n] == entries;
    } else {
      assert entries[..|entries| - 1][..n] == entries[..n];
      ParseFailsEarly(parse, entries[..|entries| - 1], n);
    }
  }

  // ---------- what a configuration holds ----------

  lemma SectionMerge(section: Json)
    requires section.Obj?
    ensures Merge(section, FORCED.fields[SANDBOX]) == Obj(section.fields[NETWORK := Bool(true)])
    ensures section.fields == map[] ==> FORCED.fields[SANDBOX] == Obj(section.fields[NETWORK := Bool(true)])
  {
    assert Merge(section, FORCED.fields[SANDBOX]).fields == section.fields[NETWORK := Bool(true)];
  }

  /** Forcing is one more layer, where it succeeds. */
  lemma ForceIsALayer(base: Json)
    requires base.Obj?
    ensures Force(base).Ok? <==> LeafAt(base, [SANDBOX]).None?
    ensures Force(base).Ok? ==> Force(base).value == Merge(base, FORCED)
  {
    OneStep(base, SANDBOX);
    if Force(base).Ok? {
      hide Merge, Lookup;
      var section := if SANDBOX in base.fields then base.fields[SANDBOX] else Obj(map[]);
      SectionMerge(section);
      forall k ensures k in Merge(base, FORCED).fields <==> k in Force(base).value.fields
      {
        MergedField(base, FORCED, k);
      }
      forall k | k in Force(base).value.fields ensures Merge(base, FORCED).fields[k] == Force(base).value.fields[k] {
        MergedField(base, FORCED, k);
      }
      assert Merge(base, FORCED).fields == Force(base).value.fields;
    }
  }

  /** The layers of a build, in the order of precedence: the environment's entries, the parent's, the forced one. */
  ghost predicate LayersOf(parse: Parser, env: seq<(string, string)>, parent: Option<string>, layers: seq<Json>) {
    var n := |Entries(env)|;
    && n > 0 && |layers| == n + (if parent.Some? then 2 else 1)
    && (forall i :: 0 <= i < |layers| ==> layers[i].Obj?)
    && (forall i :: 0 <= i < n ==> parse(Entries(env)[i]) == Some(layers[i]))
    && (parent.Some? ==> parse(parent.value) == Some(layers[n]))
    && layers[|layers| - 1] == FORCED
  }

  /** A configuration that is built is the stack of its layers. */
  lemma BuiltIsStacked(parse: Parser, env: seq<(string, string)>, parent: Option<string>, generated: bool) returns (layers: seq<Json>)
    requires Build(parse, env, parent, generated).Ok? && Build(parse, env, parent, generated).value.Some?
    ensures LayersOf(parse, env, parent, layers)
    ensures Build(parse, env, parent, generated).value.value == Stack(layers)
  {
    var objects := ParseEntries(parse, Entries(env)).value;
    var before := if parent.None? then objects else ParentLayer(parse, objects, parent.value).value;
    ForceIsALayer(Stack(before));
    layers := before + [FORCED];
    assert layers[..|before|] == before;
  }

  /** The forced layer covers the sandbox section itself and everything at or below the forced key, and nothing else. */
  lemma ForcedCovers(p: Path)
    ensures Covers(FORCED, p) <==> p == [] || p == [SANDBOX] || [SANDBOX, NETWORK] <= p
    ensures LeafAt(FORCED, [SANDBOX, NETWORK]) == Some(Bool(true))
  {
    var inner := Obj(map[NETWORK := Bool(true)]);
    assert FORCED.fields[SANDBOX] == inner;
    assert [SANDBOX, NETWORK][1..] == [NETWORK];
    OneStep(inner, NETWORK);
    if p != [] && p[0] == SANDBOX {
      if |p| == 1 {
        assert p == [SANDBOX];
      } else {
        assert p[1..][0] == p[1];
        assert Covers(inner, p[1..]) <==> p[1] == NETWORK;
        assert [SANDBOX, NETWORK] <= p <==> p[1] == NETWORK;
      }
    }
  }

  /**
   Every configuration that is built grants network access, keeps every leaf of the parent environment that is
   not at or below that key, and keeps every leaf of the persona that no later layer covers.
   */
  lemma BuiltConfiguration(parse: Parser, env: seq<(string, string)>, parent: Option<string>, generated: bool, p: Path) returns (layers: seq<Json>)
    requires Build(parse, env, parent, generated).Ok? && Build(parse, env, parent, generated).value.Some?
    ensures LayersOf(parse, env, parent, layers)
    ensures
      var config := Build(parse, env, parent, generated).value.value;
      && LeafAt(config, ["sandbox_workspace_write", "network_access"]) == Some(Bool(true))
      && LeafAt(config, p) == LeafAt(layers[TopLayer(layers, p)], p)
      && (parent.Some? && LeafAt(layers[|layers| - 2], p).Some? && !([SANDBOX, NETWORK] <= p) ==> LeafAt(config, p) == LeafAt(layers[|layers| - 2], p))
      && ((forall i :: 0 < i < |layers| ==> !Covers(layers[i], p)) ==> LeafAt(config, p) == LeafAt(layers[0], p))
  {
    hide Build, Stack, Covers, Lookup, LeafAt;
    layers := BuiltIsStacked(parse, env, parent, generated);
    var n := |layers| - 1;
    ForcedCovers(p);
    ForcedCovers([SANDBOX, NETWORK]);
    StackedLeaf(layers, p);
    StackedLeaf(layers, [SANDBOX, NETWORK]);
    TopLayerIs(layers, [SANDBOX, NETWORK], n);
    if parent.Some? && LeafAt(layers[n - 1], p).Some? && !([SANDBOX, NETWORK] <= p) {
      LeafIsCovered(layers[n - 1], p);
      ParentSection(parse, env, parent, generated, layers);
      if !Covers(FORCED, p) {
        TopLayerIs(layers, p, n - 1);
      } else {
        RootIsNoLeaf(layers[n - 1]);
      }
    }
    if forall i :: 0 < i < |layers| ==> !Covers(layers[i], p) {
      TopLayerIs(layers, p, 0);
    }
  }

  lemma {:induction false} LeafIsCovered(layer: Json, p: Path)
    requires LeafAt(layer, p).Some?
    ensures Covers(layer, p)
    decreases |p|
  {
    if p != [] {
      LeafIsCovered(layer.fields[p[0]], p[1..]);
    }
  }

  lemma RootIsNoLeaf(layer: Json)
    requires layer.Obj?
    ensures LeafAt(layer, []).None?
  {
  }

  /** A parent whose sandbox section is not an object cannot be built on. */
  lemma ParentSection(parse: Parser, env: seq<(string, string)>, parent: Option<string>, generated: bool, layers: seq<Json>)
    requires Build(parse, env, parent, generated).Ok? && Build(parse, env, parent, generated).value.Some?
    requires parent.Some? && LayersOf(parse, env, parent, layers)
    ensures LeafAt(layers[|layers| - 2], [SANDBOX]).None?
  {
    var objects := ParseEntries(parse, Entries(env)).value;
    var before := ParentLayer(parse, objects, parent.value).value;
    var last := before[|before| - 1];
    assert last == layers[|layers| - 2];
    ForceIsALayer(Stack(before));
    StackedLeaf(before, [SANDBOX]);
    if LeafAt(last, [SANDBOX]).Some? {
      LeafIsCovered(last, [SANDBOX]);
      TopLayerIs(before, [SANDBOX], |before| - 1);
    }
  }

  /** A build gives a configuration exactly when every layer is a JSON object and nothing else takes the section to force. */
  lemma BuildSucceedsExactlyWhen(parse: Parser, env: seq<(string, string)>, parent: Option<string>, generated: bool)
    ensures Build(parse, env, parent, generated) == Ok(None) <==> !generated || Entries(env) == []
    ensures Build(parse, env, parent, generated).Ok? && Build(parse, env, parent, generated).value.Some? <==>
      generated && exists layers :: CanForce(parse, env, parent, layers)
  {
    hide Stack, LeafAt, Entries;
    if Build(parse, env, parent, generated).Ok? && Build(parse, env, parent, generated).value.Some? {
      var layers := BuiltCanForce(parse, env, parent, generated);
    }
    if layers :| generated && CanForce(parse, env, parent, layers) {
      CanForceIsBuilt(parse, env, parent, layers);
    }
  }

  ghost predicate CanForce(parse: Parser, env: seq<(string, string)>, parent: Option<string>, layers: seq<Json>) {
    LayersOf(parse, env, parent, layers) && LeafAt(Stack(layers[..|layers| - 1]), [SANDBOX]).None?
  }

  lemma BuiltCanForce(parse: Parser, env: seq<(string, string)>, parent: Option<string>, generated: bool) returns (layers: seq<Json>)
    requires Build(parse, env, parent, generated).Ok? && Build(parse, env, parent, generated).value.Some?
    ensures CanForce(parse, env, parent, layers)
  {
    hide Stack, LeafAt, Entries, Force;
    var objects := ParseEntries(parse, Entries(env)).value;
    var before := if parent.None? then objects else ParentLayer(parse, objects, parent.value).value;
    ForceIsALayer(Stack(before));
    layers := before + [FORCED];
    assert layers[..|layers| - 1] == before;
  }

  lemma CanForceIsBuilt(parse: Parser, env: seq<(string, string)>, parent: Option<string>, layers: seq<Json>)
    requires CanForce(parse, env, parent, layers)
    ensures Build(parse, env, parent, true).Ok? && Build(parse, env, parent, true).value.Some?
  {
    hide Stack, LeafAt, Entries, Force;
    var n := |Entries(env)|;
    AllParse(parse, Entries(env), layers[..n]);
    if parent.None? {
      assert layers[..|layers| - 1] == layers[..n];
    } else {
      assert layers[..|layers| - 1] == layers[..n] + [layers[n]];
    }
    ForceIsALayer(Stack(layers[..|layers| - 1]));
  }

  lemma {:induction false} AllParse(parse: Parser, entries: seq<string>, objects: seq<Json>)
    requires |objects| == |entries|
    requires forall i :: 0 <= i < |entries| ==> objects[i].Obj? && parse(entries[i]) == Some(objects[i])
    ensures ParseEntries(parse, entries) == Ok(objects)
    decreases |entries|
  {
    if entries != [] {
      var n := |entries| - 1;
      AllParse(parse, entries[..n], objects[..n]);
      assert objects == objects[..n] + [objects[n]];
    }
  }

  // ---------- which entries, and which error ----------

  /** The entries are the values of `CODEX_CONFIG`, in the order of the environment, and nothing else. */
  lemma {:induction false} EntriesInOrder(a: seq<(string, string)>, b: seq<(string, string)>)
    ensures Entries(a + b) == Entries(a) + Entries(b)
    ensures forall k, v :: Entries([(k, v)]) == if k == "CODEX_CONFIG" then [v] else []
    decreases |b|
  {
    if b == [] {
      assert a + b == a;
    } else {
      assert (a + b)[..|a + b| - 1] == a + b[..|b| - 1];
      EntriesInOrder(a, b[..|b| - 1]);
    }
    forall k, v ensures Entries([(k, v)]) == if k == "CODEX_CONFIG" then [v] else [] {
      assert [(k, v)][..0] == [];
    }
  }

  /** What is wrong with a text that is not a JSON object. */
  function Fault(parse: Parser, raw: string, source: Source): CodexError {
    if parse(raw).None? then NotJson(source) else NotAnObject(source)
  }

  predicate IsObject(parse: Parser, raw: string) {
    parse(raw).Some? && parse(raw).value.Obj?
  }

  /** The first entry that is not an object is the one reported: as the persona's if it is the first of all, else as generated. */
  lemma FirstBadEntryIsReported(parse: Parser, env: seq<(string, string)>, parent: Option<string>, i: nat)
    requires i < |Entries(env)| && !IsObject(parse, Entries(env)[i])
    requires forall j :: 0 <= j < i ==> IsObject(parse, Entries(env)[j])
    ensures Build(parse, env, parent, true) == Err(Fault(parse, Entries(env)[i], if i == 0 then Persona else Generated))
  {
    hide Entries, Stack;
    var entries := Entries(env);
    var objects := seq(i, j requires 0 <= j < i => parse(entries[j]).value);
    AllParse(parse, entries[..i], objects);
    assert entries[..i + 1][..i] == entries[..i] && entries[..i + 1][i] == entries[i];
    ParseFailsEarly(parse, entries, i + 1);
  }

  /** After good entries, a parent that is not an object is reported as such. */
  lemma BadParentIsReported(parse: Parser, env: seq<(string, string)>, parent: string)
    requires Entries(env) != [] && (forall j :: 0 <= j < |Entries(env)| ==> IsObject(parse, Entries(env)[j])) && !IsObject(parse, parent)
    ensures Build(parse, env, Some(parent), true) == Err(Fault(parse, parent, ParentEnvironment))
  {
    hide Entries, Stack;
    var entries := Entries(env);
    AllParse(parse, entries, seq(|entries|, j requires 0 <= j < |entries| => parse(entries[j]).value));
  }

  /** After good layers, a merged section that is not an object is reported as such. */
  lemma BadSectionIsReported(parse: Parser, env: seq<(string, string)>, parent: Option<string>, layers: seq<Json>)
    requires LayersOf(parse, env, parent, layers) && LeafAt(Stack(layers[..|layers| - 1]), ["sandbox_workspace_write"]).Some?
    ensures Build(parse, env, parent, true) == Err(SandboxNotAnObject)
  {
    hide Stack, LeafAt, Entries;
    var n := |Entries(env)|;
    AllParse(parse, Entries(env), layers[..n]);
    if parent.None? {
      assert layers[..|layers| - 1] == layers[..n];
    } else {
      assert layers[..|layers| - 1] == layers[..n] + [layers[n]];
    }
    ForceIsALayer(Stack(layers[..|layers| - 1]));
    ForceFails(Stack(layers[..|layers| - 1]));
  }

  lemma ForceFails(base: Json)
    requires base.Obj?
    ensures Force(base).Err? ==> Force(base) == Err(SandboxNotAnObject)
  {
  }
}
