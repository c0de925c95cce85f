/** Brace matching and the extents of inline Rust modules. */
module ModuleRanges {
  import opened Options
  import opened RustSanitizer

  // ---------- braces ----------

  /** Brace depth before position `k`; a closer with nothing open is ignored. */
  function Depth(s: string, k: nat): nat
    requires k <= |s|
  {
    if k == 0 then 0
    else
      var d := Depth(s, k - 1);
      if s[k - 1] == '{' then d + 1 else if s[k - 1] == '}' && d > 0 then d - 1 else d
  }

  /** `c` is the first position after `o` that brings the depth back to what it was before `o`. */
  ghost predicate Encloses(s: string, o: nat, c: nat) {
    && o < c < |s| && s[o] == '{' && s[c] == '}'
    && Depth(s, c + 1) == Depth(s, o)
    && forall k :: o < k <= c ==> Depth(s, k) > Depth(s, o)
  }

  lemma EnclosesOnce(s: string, o: nat, c: nat, c': nat)
    requires Encloses(s, o, c) && Encloses(s, o, c')
    ensures c == c'
  {
  }

  /** Any two pairs of braces are nested or apart. */
  lemma PairsAreLaminar(s: string, o1: nat, c1: nat, o2: nat, c2: nat)
    requires Encloses(s, o1, c1) && Encloses(s, o2, c2) && o1 < o2
    ensures c1 < o2 || c2 < c1
  {
    assert o2 <= c1 ==> Depth(s, o2) > Depth(s, o1);
  }

  /** Openers less closers in the first `k` characters. */
  function Level(t: string, k: nat): int
    requires k <= |t|
  {
    if k == 0 then 0
    else Level(t, k - 1) + (if t[k - 1] == '{' then 1 else if t[k - 1] == '}' then -1 else 0)
  }

  /** As many closers as openers, and never more closers than openers. */
  ghost predicate Balanced(t: string) {
    Level(t, |t|) == 0 && forall k :: 0 <= k <= |t| ==> Level(t, k) >= 0
  }

  lemma {:induction false} LevelInside(s: string, o: nat, c: nat, k: nat)
    requires Encloses(s, o, c) && k <= c - o - 1
    ensures Depth(s, o + 1 + k) == Depth(s, o) + 1 + Level(s[o + 1..c], k)
    decreases k
  {
    if k > 0 {
      LevelInside(s, o, c, k - 1);
      assert s[o + 1..c][k - 1] == s[o + k];
      assert Depth(s, o + k) > Depth(s, o);
    }
  }

  /** The text strictly inside a pair is balanced, stray closers elsewhere notwithstanding. */
  lemma InsideIsBalanced(s: string, o: nat, c: nat)
    requires Encloses(s, o, c)
    ensures Balanced(s[o + 1..c])
  {
    var t := s[o + 1..c];
    forall k | 0 <= k <= |t| ensures Level(t, k) >= 0 {
      LevelInside(s, o, c, k);
      assert Depth(s, o + 1 + k) > Depth(s, o);
    }
    LevelInside(s, o, c, |t|);
    assert Depth(s, c + 1) == Depth(s, c) - 1;
  }

  /** The stack of open braces at a position. */
  ghost predicate OpenStack(s: string, index: nat, stack: seq<nat>) {
    && index <= |s| && |stack| == Depth(s, index)
    && (forall j :: 0 <= j < |stack| ==> stack[j] < index && s[stack[j]] == '{' && Depth(s, stack[j]) == j)
    && (forall j, k :: 0 <= j < |stack| && stack[j] < k <= index ==> Depth(s, k) > j)
  }

  /** Every opener so far is on the stack or closed. */
  ghost predicate OpenersPlaced(s: string, index: nat, stack: seq<nat>, pairs: map<nat, nat>) {
    && index <= |s|
    && (forall o :: 0 <= o < index && s[o] == '{' ==> o in stack || o in pairs)
    && (forall o :: o in pairs ==> pairs[o] < index && Encloses(s, o, pairs[o]))
  }

  lemma PushKeeps(s: string, index: nat, stack: seq<nat>, pairs: map<nat, nat>)
    requires index < |s| && s[index] == '{' && OpenStack(s, index, stack) && OpenersPlaced(s, index, stack, pairs)
    ensures OpenStack(s, index + 1, stack + [index]) && OpenersPlaced(s, index + 1, stack + [index], pairs)
  {
    hide Encloses;
    var grown := stack + [index];
    assert grown[|stack|] == index;
    forall o | 0 <= o < index + 1 && s[o] == '{' ensures o in grown || o in pairs {
      if o in stack { assert o in grown; }
    }
  }

  lemma SkipKeeps(s: string, index: nat, stack: seq<nat>, pairs: map<nat, nat>)
    requires index < |s| && s[index] != '{' && (s[index] == '}' ==> stack == [])
    requires OpenStack(s, index, stack) && OpenersPlaced(s, index, stack, pairs)
    ensures OpenStack(s, index + 1, stack) && OpenersPlaced(s, index + 1, stack, pairs)
  {
    hide Encloses;
    assert Depth(s, index + 1) == Depth(s, index);
  }

  lemma PopEncloses(s: string, index: nat, stack: seq<nat>)
    requires index < |s| && s[index] == '}' && OpenStack(s, index, stack) && stack != []
    ensures Encloses(s, stack[|stack| - 1], index)
    ensures OpenStack(s, index + 1, stack[..|stack| - 1])
  {
    var n := |stack| - 1;
    assert Depth(s, index + 1) == Depth(s, index) - 1;
    forall j, k | 0 <= j < n && stack[j] < k <= index + 1 ensures Depth(s, k) > j {
    }
  }

  lemma PopKeeps(s: string, index: nat, stack: seq<nat>, pairs: map<nat, nat>)
    requires index < |s| && s[index] == '}' && stack != []
    requires OpenStack(s, index, stack) && OpenersPlaced(s, index, stack, pairs)
    ensures OpenStack(s, index + 1, stack[..|stack| - 1])
    ensures OpenersPlaced(s, index + 1, stack[..|stack| - 1], pairs[stack[|stack| - 1] := index])
  {
    hide Encloses, OpenStack;
    PopEncloses(s, index, stack);
    var n := |stack| - 1;
    forall o | 0 <= o < index + 1 && s[o] == '{' ensures o in stack[..n] || o in pairs[stack[n] := index] {
      if o in stack && o != stack[n] {
        var j :| 0 <= j < |stack| && stack[j] == o;
        assert stack[..n][j] == o;
      }
    }
  }

  /** Pair every closer with the opener it closes, with a stack. */
  method BracePairs(s: string) returns (pairs: map<nat, nat>)
    ensures forall o :: o in pairs ==> Encloses(s, o, pairs[o])
    ensures forall o, c :: Encloses(s, o, c) ==> o in pairs && pairs[o] == c
  {
    pairs := map[];
    var stack: seq<nat> := [];
    var index := 0;
    while index < |s|
      invariant OpenStack(s, index, stack)
      invariant OpenersPlaced(s, index, stack, pairs)
    {
      hide OpenStack, OpenersPlaced;
      if s[index] == '{' {
        PushKeeps(s, index, stack, pairs);
        stack := stack + [index];
      } else if s[index] == '}' && stack != [] {
        PopKeeps(s, index, stack, pairs);
        stack, pairs := stack[..|stack| - 1], pairs[stack[|stack| - 1] := index];
      } else {
        SkipKeeps(s, index, stack, pairs);
      }
      index := index + 1;
    }
    forall o, c | Encloses(s, o, c) ensures o in pairs && pairs[o] == c {
      EnclosedIsPaired(s, stack, pairs, o, c);
    }
  }

  lemma EnclosedIsPaired(s: string, stack: seq<nat>, pairs: map<nat, nat>, o: nat, c: nat)
    requires OpenStack(s, |s|, stack) && OpenersPlaced(s, |s|, stack, pairs) && Encloses(s, o, c)
    ensures o in pairs && pairs[o] == c
  {
    assert o !in stack;
    EnclosesOnce(s, o, c, pairs[o]);
  }

  // ---------- modules ----------

  predicate IsPySpace(c: char) {
    var n := c as int;
    || 0x09 <= n <= 0x0D || 0x1C <= n <= 0x20 || n == 0x85 || n == 0xA0 || n == 0x1680
    || 0x2000 <= n <= 0x200A || n == 0x2028 || n == 0x2029 || n == 0x202F || n == 0x205F || n == 0x3000
  }

  predicate StartsName(c: char) {
    'A' <= c <= 'Z' || 'a' <= c <= 'z' || c == '_'
  }

  predicate InName(c: char) {
    StartsName(c) || '0' <= c <= '9'
  }

  function SpaceEnd(s: string, i: nat): (e: nat)
    requires i <= |s|
    ensures i <= e <= |s|
    decreases |s| - i
  {
    if i < |s| && IsPySpace(s[i]) then SpaceEnd(s, i + 1) else i
  }

  function NameEnd(s: string, i: nat): (e: nat)
    requires i <= |s|
    ensures i <= e <= |s|
    decreases |s| - i
  {
    if i < |s| && InName(s[i]) then NameEnd(s, i + 1) else i
  }

  /** A module header: its name and its opening brace. */
  datatype Header = Header(name: string, brace: nat)

  /** `word` tells word characters beyond ASCII from the rest. */
  predicate AtWordStart(word: char -> bool, s: string, i: nat)
    requires i <= |s|
  {
    i == 0 || !(if s[i - 1] as int < 128 then InName(s[i - 1]) else word(s[i - 1]))
  }

  /** The header that starts at a position: the word `mod`, space, a name, optional space and a brace. */
  function HeaderAt(word: char -> bool, s: string, i: nat): (h: Option<Header>)
    requires i <= |s|
    ensures h.Some? ==> i < h.value.brace < |s| && s[h.value.brace] == '{'
  {
    if !(AtWordStart(word, s, i) && StartsAt(s, i, "mod")) then None
    else
      var a := SpaceEnd(s, i + 3);
      if a == i + 3 || a == |s| || !StartsName(s[a]) then None
      else
        var b := NameEnd(s, a + 1);
        var c := SpaceEnd(s, b);
        if Is(s, c, '{') then Some(Header(s[a..b], c)) else None
  }

  predicate Spaces(t: string) {
    forall k :: 0 <= k < |t| ==> IsPySpace(t[k])
  }

  predicate IsName(t: string) {
    t != [] && StartsName(t[0]) && forall k :: 0 <= k < |t| ==> InName(t[k])
  }

  function HeaderText(gap: string, name: string, room: string): string {
    "mod" + (gap + (name + (room + "{")))
  }

  /** A header is written at a position: `mod`, at least one space, a name, any space, and a brace. */
  ghost predicate WrittenAt(word: char -> bool, s: string, i: nat, gap: string, name: string, room: string, h: Header) {
    && i <= |s| && AtWordStart(word, s, i) && gap != [] && Spaces(gap) && IsName(name) && Spaces(room)
    && StartsAt(s, i, HeaderText(gap, name, room)) && h == Header(name, i + 3 + |gap| + |name| + |room|)
  }

  lemma {:induction false} SpaceEndIs(s: string, i: nat, e: nat)
    requires i <= e <= |s| && (forall k :: i <= k < e ==> IsPySpace(s[k])) && (e == |s| || !IsPySpace(s[e]))
    ensures SpaceEnd(s, i) == e
    decreases e - i
  {
    if i < e { SpaceEndIs(s, i + 1, e); }
  }

  lemma {:induction false} NameEndIs(s: string, i: nat, e: nat)
    requires i <= e <= |s| && (forall k :: i <= k < e ==> InName(s[k])) && (e == |s| || !InName(s[e]))
    ensures NameEnd(s, i) == e
    decreases e - i
  {
    if i < e { NameEndIs(s, i + 1, e); }
  }

  lemma {:induction false} SpaceEndMeans(s: string, i: nat)
    requires i <= |s|
    ensures forall k :: i <= k < SpaceEnd(s, i) ==> IsPySpace(s[k])
    decreases |s| - i
  {
    if i < |s| && IsPySpace(s[i]) { SpaceEndMeans(s, i + 1); }
  }

  lemma {:induction false} NameEndMeans(s: string, i: nat)
    requires i <= |s|
    ensures forall k :: i <= k < NameEnd(s, i) ==> InName(s[k])
    decreases |s| - i
  {
    if i < |s| && InName(s[i]) { NameEndMeans(s, i + 1); }
  }

  lemma TextAt(s: string, i: nat, t: string)
    requires StartsAt(s, i, t)
    ensures i + |t| <= |s| && forall k :: i <= k < i + |t| ==> s[k] == t[k - i]
  {
    var w := s[i..i + |t|];
    assert forall k :: i <= k < i + |t| ==> w[k - i] == s[k];
  }

  lemma WrittenIsHeader(word: char -> bool, s: string, i: nat, gap: string, name: string, room: string, h: Header)
    requires WrittenAt(word, s, i, gap, name, room, h)
    ensures HeaderAt(word, s, i) == Some(h)
  {
    hide StartsAt, AtWordStart;
    var a, b, c := i + 3 + |gap|, i + 3 + |gap| + |name|, i + 3 + |gap| + |name| + |room|;
    StartsSplit(s, i, "mod", gap + (name + (room + "{")));
    WrittenChars(s, i, gap, name, room);
    SpacesAreNoNames();
    SpaceEndIs(s, i + 3, a);
    NameEndIs(s, a + 1, b);
    SpaceEndIs(s, b, c);
    assert s[a..b] == name;
  }

  lemma SpacesAreNoNames()
    ensures forall c :: IsPySpace(c) ==> !InName(c)
    ensures !InName('{') && !IsPySpace('{') && forall c :: StartsName(c) ==> InName(c)
  {
  }

  lemma HeaderIsWritten(word: char -> bool, s: string, i: nat) returns (gap: string, name: string, room: string)
    requires i <= |s| && HeaderAt(word, s, i).Some?
    ensures WrittenAt(word, s, i, gap, name, room, HeaderAt(word, s, i).value)
  {
    hide StartsAt, AtWordStart;
    StartsFits(s, i, "mod");
    var a := SpaceEnd(s, i + 3);
    var b := NameEnd(s, a + 1);
    var c := SpaceEnd(s, b);
    SpaceEndMeans(s, i + 3);
    NameEndMeans(s, a + 1);
    SpaceEndMeans(s, b);
    gap, name, room := s[i + 3..a], s[a..b], s[b..c];
    StartsChar(s, c, '{');
    WindowStarts(s, b, c);
    WindowStarts(s, a, b);
    WindowStarts(s, i + 3, a);
    StartsSplit(s, b, room, "{");
    StartsSplit(s, a, name, room + "{");
    StartsSplit(s, i + 3, gap, name + (room + "{"));
    StartsSplit(s, i, "mod", gap + (name + (room + "{")));
  }

  lemma WindowStarts(s: string, i: nat, e: nat)
    requires i <= e <= |s|
    ensures StartsAt(s, i, s[i..e])
  {
  }

  /** The header found at a position, and its name, are exactly what is written there. */
  lemma HeaderExactlyWhen(word: char -> bool, s: string, i: nat, h: Header)
    requires i <= |s|
    ensures HeaderAt(word, s, i) == Some(h) <==> exists gap, name, room :: WrittenAt(word, s, i, gap, name, room, h)
  {
    hide HeaderAt, WrittenAt;
    if HeaderAt(word, s, i) == Some(h) {
      var gap, name, room := HeaderIsWritten(word, s, i);
    }
    if gap, name, room :| WrittenAt(word, s, i, gap, name, room, h) {
      WrittenIsHeader(word, s, i, gap, name, room, h);
    }
  }

  /** What stands at each position of a written header. */
  lemma WrittenChars(s: string, i: nat, gap: string, name: string, room: string)
    requires StartsAt(s, i, HeaderText(gap, name, room))
    ensures i + 4 + |gap| + |name| + |room| <= |s|
    ensures s[i + 1] == 'o' && s[i + 2] == 'd' && s[i + 3 + |gap| + |name| + |room|] == '{'
    ensures forall k :: i + 3 <= k < i + 3 + |gap| ==> s[k] == gap[k - (i + 3)]
    ensures forall k :: i + 3 + |gap| <= k < i + 3 + |gap| + |name| ==> s[k] == name[k - (i + 3 + |gap|)]
    ensures forall k :: i + 3 + |gap| + |name| <= k < i + 3 + |gap| + |name| + |room| ==> s[k] == room[k - (i + 3 + |gap| + |name|)]
  {
    hide StartsAt;
    StartsSplit(s, i, "mod", gap + (name + (room + "{")));
    StartsSplit(s, i + 3, gap, name + (room + "{"));
    StartsSplit(s, i + 3 + |gap|, name, room + "{");
    StartsSplit(s, i + 3 + |gap| + |name|, room, "{");
    TextAt(s, i, "mod");
    TextAt(s, i + 3, gap);
    TextAt(s, i + 3 + |gap|, name);
    TextAt(s, i + 3 + |gap| + |name|, room);
    TextAt(s, i + 3 + |gap| + |name| + |room|, "{");
  }

  /** Where a header could begin inside another: only at its name. */
  lemma OnlyAtTheName(word: char -> bool, s: string, i: nat, gap: string, name: string, room: string, h: Header, j: nat)
    requires WrittenAt(word, s, i, gap, name, room, h) && i < j <= h.brace && StartsAt(s, j, "mod") && AtWordStart(word, s, j)
    ensures j == i + 3 + |gap|
  {
    hide StartsAt;
    WrittenChars(s, i, gap, name, room);
    SpacesAreNoNames();
    TextAt(s, j, "mod");
    assert s[j] == 'm' && InName('m') && !IsPySpace('m');
    var a, b := i + 3 + |gap|, i + 3 + |gap| + |name|;
    assert forall k :: a <= k < b ==> InName(s[k]) && s[k] as int < 128;
  }

  /** No header begins inside another. */
  lemma NoHeaderInside(word: char -> bool, s: string, i: nat, j: nat)
    requires i <= |s| && HeaderAt(word, s, i).Some? && i < j <= HeaderAt(word, s, i).value.brace
    ensures HeaderAt(word, s, j).None?
  {
    hide StartsAt, AtWordStart, HeaderText;
    var gap, name, room := HeaderIsWritten(word, s, i);
    var h := HeaderAt(word, s, i).value;
    if HeaderAt(word, s, j).Some? {
      OnlyAtTheName(word, s, i, gap, name, room, h, j);
      NameIsNoHeader(word, s, i, gap, name, room, h);
      assert false;
    }
  }

  lemma NameIsNoHeader(word: char -> bool, s: string, i: nat, gap: string, name: string, room: string, h: Header)
    requires WrittenAt(word, s, i, gap, name, room, h)
    ensures HeaderAt(word, s, i + 3 + |gap|).None?
  {
    hide StartsAt, AtWordStart;
    WrittenChars(s, i, gap, name, room);
    SpacesAreNoNames();
    var a, b, c := i + 3 + |gap|, i + 3 + |gap| + |name|, h.brace;
    if StartsAt(s, a, "mod") {
      TextAt(s, a, "mod");
      SpaceEndMeans(s, a + 3);
      if SpaceEnd(s, a + 3) > a + 3 {
        assert IsPySpace(s[a + 3]) && InName(s[a]) && s[a + 1] == 'o' && s[a + 2] == 'd';
        assert InName('o') && InName('d') && !IsPySpace('o') && !IsPySpace('d');
        assert b == a + 3;
        SpaceEndIs(s, a + 3, c);
      }
    }
  }

  /** The search misses no header and invents none. */
  lemma {:induction false} HeadersAreAll(word: char -> bool, s: string, i: nat, h: Header)
    requires i <= |s|
    ensures h in Headers(word, s, i) <==> exists j :: i <= j <= |s| && HeaderAt(word, s, j) == Some(h)
    decreases |s| - i
  {
    hide HeaderAt;
    if i == |s| {
      NoHeaderAtEnd(word, s);
    } else {
      var here := HeaderAt(word, s, i);
      if here.Some? {
        var next := here.value.brace + 1;
        HeadersAreAll(word, s, next, h);
        forall j | i < j < next ensures HeaderAt(word, s, j).None? {
          NoHeaderInside(word, s, i, j);
        }
      } else {
        HeadersAreAll(word, s, i + 1, h);
      }
    }
  }

  lemma NoHeaderAtEnd(word: char -> bool, s: string)
    ensures HeaderAt(word, s, |s|).None?
  {
  }

  /** All headers from a position on, each search resuming after the last one found. */
  function Headers(word: char -> bool, s: string, i: nat): seq<Header>
    requires i <= |s|
    decreases |s| - i
  {
    if i == |s| then []
    else match HeaderAt(word, s, i)
      case Some(h) => [h] + Headers(word, s, h.brace + 1)
      case None => Headers(word, s, i + 1)
  }

  ghost predicate Increasing(hs: seq<Header>) {
    forall k, m :: 0 <= k < m < |hs| ==> hs[k].brace < hs[m].brace
  }

  ghost predicate AllAfter(hs: seq<Header>, i: nat) {
    forall k :: 0 <= k < |hs| ==> i < hs[k].brace
  }

  lemma {:induction false} HeadersInOrder(word: char -> bool, s: string, i: nat)
    requires i <= |s|
    ensures Increasing(Headers(word, s, i)) && AllAfter(Headers(word, s, i), i)
    decreases |s| - i
  {
    hide HeaderAt;
    if i < |s| {
      var h := HeaderAt(word, s, i);
      if h.Some? {
        HeadersInOrder(word, s, h.value.brace + 1);
        var hs, rest := Headers(word, s, i), Headers(word, s, h.value.brace + 1);
        assert hs == [h.value] + rest;
        assert forall k :: 0 < k < |hs| ==> hs[k] == rest[k - 1];
      } else {
        HeadersInOrder(word, s, i + 1);
        assert Headers(word, s, i) == Headers(word, s, i + 1);
      }
    }
  }

  datatype Range = Range(start: nat, end: nat, name: string)

  /** The position that closes an opener, if anything does. */
  ghost function CloserOf(s: string, o: nat): (c: Option<nat>)
    ensures c.Some? ==> Encloses(s, o, c.value)
    ensures c.None? ==> forall k :: !Encloses(s, o, k)
  {
    if k :| Encloses(s, o, k) then Some(k) else None
  }

  /** The ranges of the headers whose brace is closed, in order. */
  ghost function RangesOf(s: string, hs: seq<Header>): seq<Range> {
    if hs == [] then []
    else
      var h := hs[|hs| - 1];
      RangesOf(s, hs[..|hs| - 1])
      + match CloserOf(s, h.brace) { case Some(c) => [Range(h.brace, c, h.name)] case None => [] }
  }

  /** A range is in the result exactly when a header has its name and its opener, and its end closes that opener. */
  lemma {:induction false} RangesMean(s: string, hs: seq<Header>, r: Range)
    ensures r in RangesOf(s, hs) <==> Encloses(s, r.start, r.end) && Header(r.name, r.start) in hs
    decreases |hs|
  {
    hide Encloses;
    if hs != [] {
      var n := |hs| - 1;
      var h := hs[n];
      RangesMean(s, hs[..n], r);
      assert hs == hs[..n] + [h];
      if h == Header(r.name, r.start) && Encloses(s, r.start, r.end) {
        EnclosesOnce(s, r.start, r.end, CloserOf(s, r.start).value);
      }
    }
  }

  lemma {:induction false} RangesInOrder(s: string, hs: seq<Header>)
    requires Increasing(hs)
    ensures forall i, j :: 0 <= i < j < |RangesOf(s, hs)| ==> RangesOf(s, hs)[i].start < RangesOf(s, hs)[j].start
    decreases |hs|
  {
    hide Encloses, CloserOf;
    if hs != [] {
      var n := |hs| - 1;
      var before := RangesOf(s, hs[..n]);
      RangesInOrder(s, hs[..n]);
      forall i | 0 <= i < |before| ensures before[i].start < hs[n].brace {
        RangesMean(s, hs[..n], before[i]);
        var k :| 0 <= k < n && hs[..n][k] == Header(before[i].name, before[i].start);
        assert hs[k].brace < hs[n].brace;
      }
    }
  }

  /** The module ranges of a source text. */
  method FindModuleRanges(word: char -> bool, source: string) returns (ranges: seq<Range>)
    ensures ranges == RangesOf(Sanitize(source), Headers(word, Sanitize(source), 0))
  {
    hide Encloses, Headers, Sanitize;
    var clean := SanitizeRust(source);
    var pairs := BracePairs(clean);
    var headers := Headers(word, clean, 0);
    ranges := [];
    for i := 0 to |headers|
      invariant ranges == RangesOf(clean, headers[..i])
    {
      var h := headers[i];
      assert headers[..i + 1][..i] == headers[..i];
      assert CloserOf(clean, h.brace) == if h.brace in pairs then Some(pairs[h.brace]) else None;
      if h.brace in pairs {
        ranges := ranges + [Range(h.brace, pairs[h.brace], h.name)];
      }
    }
    assert headers[..|headers|] == headers;
  }

  /** The ranges of any source are balanced blocks in order of their openers, and any two are nested or apart. */
  lemma ModuleRangesAreLaminar(word: char -> bool, source: string)
    ensures
      var s := Sanitize(source);
      var ranges := RangesOf(s, Headers(word, s, 0));
      && (forall i :: 0 <= i < |ranges| ==>
            Encloses(s, ranges[i].start, ranges[i].end) && Balanced(s[ranges[i].start + 1..ranges[i].end]))
      && (forall i, j :: 0 <= i < j < |ranges| ==>
            ranges[i].start < ranges[j].start && (ranges[i].end < ranges[j].start || ranges[j].end < ranges[i].end))
  {
    hide Balanced, Sanitize, Headers, RangesOf;
    var s := Sanitize(source);
    var hs := Headers(word, s, 0);
    var ranges := RangesOf(s, hs);
    HeadersInOrder(word, s, 0);
    RangesInOrder(s, hs);
    forall i | 0 <= i < |ranges| ensures Encloses(s, ranges[i].start, ranges[i].end) && Balanced(s[ranges[i].start + 1..ranges[i].end]) {
      RangesMean(s, hs, ranges[i]);
      InsideIsBalanced(s, ranges[i].start, ranges[i].end);
    }
    forall i, j | 0 <= i < j < |ranges| ensures ranges[i].end < ranges[j].start || ranges[j].end < ranges[i].end {
      PairsAreLaminar(s, ranges[i].start, ranges[i].end, ranges[j].start, ranges[j].end);
    }
  }

  /** What is reported for a source, from its clean text alone: a range is listed exactly if a header with its name is
      written there, its start is that header's brace, and its end is where that brace closes. */
  lemma ModuleRangesExactlyWhen(word: char -> bool, source: string, r: Range)
    ensures
      var clean := Sanitize(source);
      r in RangesOf(clean, Headers(word, clean, 0)) <==>
        Encloses(clean, r.start, r.end) && exists i, gap, name, room :: WrittenAt(word, clean, i, gap, name, room, Header(r.name, r.start))
  {
    hide Sanitize, WrittenAt, HeaderAt, Encloses, Headers, RangesOf;
    var clean, h := Sanitize(source), Header(r.name, r.start);
    RangesMean(clean, Headers(word, clean, 0), r);
    HeadersAreAll(word, clean, 0, h);
    if j :| 0 <= j <= |clean| && HeaderAt(word, clean, j) == Some(h) {
      HeaderExactlyWhen(word, clean, j, h);
    }
    if i, gap, name, room :| WrittenAt(word, clean, i, gap, name, room, h) {
      WrittenIsInside(word, clean, i, gap, name, room, h);
      HeaderExactlyWhen(word, clean, i, h);
    }
  }

  lemma WrittenIsInside(word: char -> bool, s: string, i: nat, gap: string, name: string, room: string, h: Header)
    requires WrittenAt(word, s, i, gap, name, room, h)
    ensures i <= |s|
  {
  }
}
