/** Blanking the comments and literals of Rust source, position by position. */
module RustSanitizer {
  import opened Options

  // ---------- matchers ----------

  predicate StartsAt(s: string, i: nat, t: string) {
    i + |t| <= |s| && s[i..i + |t|] == t
  }

  predicate Is(s: string, i: nat, c: char) {
    i < |s| && s[i] == c
  }

  /** The end of a line comment: the next newline, or the end of the text. */
  function LineEnd(s: string, i: nat): (e: nat)
    requires i <= |s|
    ensures i <= e <= |s|
    ensures forall k :: i <= k < e ==> s[k] != '\n'
    ensures e < |s| ==> s[e] == '\n'
    decreases |s| - i
  {
    if i == |s| || s[i] == '\n' then i else LineEnd(s, i + 1)
  }

  /** The end of a block comment entered `depth` times, or the end of the text. */
  function CommentEnd(s: string, i: nat, depth: nat): (e: nat)
    requires i <= |s|
    ensures i <= e <= |s|
    decreases |s| - i
  {
    if i == |s| || depth == 0 then i
    else if StartsAt(s, i, "/*") then CommentEnd(s, i + 2, depth + 1)
    else if StartsAt(s, i, "*/") then CommentEnd(s, i + 2, depth - 1)
    else CommentEnd(s, i + 1, depth)
  }

  predicate IsHex(c: char) {
    '0' <= c <= '9' || 'A' <= c <= 'F' || 'a' <= c <= 'f'
  }

  /** The end of a run of hexadecimal digits and underscores. */
  function HexRunEnd(s: string, i: nat): (e: nat)
    requires i <= |s|
    ensures i <= e <= |s|
    ensures forall k :: i <= k < e ==> IsHex(s[k]) || s[k] == '_'
    ensures e < |s| ==> !IsHex(s[e]) && s[e] != '_'
    decreases |s| - i
  {
    if i < |s| && (IsHex(s[i]) || s[i] == '_') then HexRunEnd(s, i + 1) else i
  }

  /** The end of the escape that starts with the backslash at `p`, closing quote included. */
  function EscapeEnd(s: string, p: nat): Option<nat>
    requires p < |s|
  {
    if Is(s, p + 1, 'u') && Is(s, p + 2, '{') && HexRunEnd(s, p + 3) > p + 3
      && Is(s, HexRunEnd(s, p + 3), '}') && Is(s, HexRunEnd(s, p + 3) + 1, '\'')
    then Some(HexRunEnd(s, p + 3) + 2)
    else if Is(s, p + 1, 'x') && p + 3 < |s| && IsHex(s[p + 2]) && IsHex(s[p + 3]) && Is(s, p + 4, '\'') then Some(p + 5)
    else if p + 1 < |s| && s[p + 1] != '\n' && Is(s, p + 2, '\'') then Some(p + 3)
    else None
  }

  /** The end of the complete char literal whose opening quote is at `q`. */
  function QuotedEnd(s: string, q: nat): (e: Option<nat>)
    requires q < |s|
    ensures e.Some? ==> q + 3 <= e.value <= |s| && s[q] == '\''
    ensures e.Some? ==> forall k :: q <= k < e.value ==> s[k] != '\n'
  {
    if s[q] != '\'' || q + 1 == |s| then None
    else if s[q + 1] == '\\' then EscapeEnd(s, q + 1)
    else if s[q + 1] != '\'' && s[q + 1] != '\n' && Is(s, q + 2, '\'') then Some(q + 3)
    else None
  }

  /** A char or byte literal at `i`. */
  function CharLiteralEnd(s: string, i: nat): (e: Option<nat>)
    requires i < |s|
    ensures e.Some? ==> i + 3 <= e.value <= |s| && forall k :: i <= k < e.value ==> s[k] != '\n'
  {
    if s[i] == 'b' then (if i + 1 < |s| then QuotedEnd(s, i + 1) else None) else QuotedEnd(s, i)
  }

  function HashRun(s: string, i: nat): (n: nat)
    requires i <= |s|
    ensures i + n <= |s|
    ensures forall k :: i <= k < i + n ==> s[k] == '#'
    ensures i + n < |s| ==> s[i + n] != '#'
    decreases |s| - i
  {
    if i < |s| && s[i] == '#' then 1 + HashRun(s, i + 1) else 0
  }

  /** The hash count of a raw string that opens at `i`; its content starts after the quote. */
  function RawHashes(s: string, i: nat): (n: Option<nat>)
    requires i < |s|
    ensures n.Some? ==> RawStart(s, i) + n.value + 1 <= |s| && s[RawStart(s, i) + n.value] == '"'
  {
    var j := RawStart(s, i);
    if !Is(s, j - 1, 'r') then None
    else
      var n := HashRun(s, j);
      if n <= 255 && Is(s, j + n, '"') then Some(n) else None
  }

  /** The position after the `r` or `br` of a raw string. */
  function RawStart(s: string, i: nat): (j: nat)
    requires i < |s|
    ensures i < j <= i + 2
  {
    if s[i] == 'b' then i + 2 else i + 1
  }

  function Hashes(n: nat): string {
    seq(n, _ => '#')
  }

  /** The end of a raw string: after the first quote with enough hashes, or the end of the text. */
  function RawEnd(s: string, i: nat, n: nat): (e: nat)
    requires i <= |s|
    ensures i <= e <= |s|
    decreases |s| - i
  {
    if i + 1 + n > |s| then |s|
    else if StartsAt(s, i, "\"" + Hashes(n)) then i + 1 + n
    else RawEnd(s, i + 1, n)
  }

  /** The end of a string from inside it: after the closing quote, or the end of the text. */
  function StringEnd(s: string, i: nat): (e: nat)
    ensures e <= |s| && (i < |s| ==> i < e)
    decreases if i <= |s| then |s| - i else 0
  {
    if i >= |s| then |s|
    else if s[i] == '\\' then StringEnd(s, i + 2)
    else if s[i] == '"' then i + 1
    else StringEnd(s, i + 1)
  }

  // ---------- the scanner ----------

  /** The next position, and whether what lies before it is blanked. */
  datatype Piece = Piece(blank: bool, end: nat)

  function Scan(s: string, i: nat): (p: Piece)
    requires i < |s|
    ensures i < p.end <= |s|
    ensures !p.blank ==> p.end == i + 1
    ensures p.blank ==> i + 2 <= p.end || p.end == |s|
  {
    if StartsAt(s, i, "//") then Piece(true, LineEnd(s, i + 2))
    else if StartsAt(s, i, "/*") then Piece(true, CommentEnd(s, i + 2, 1))
    else if CharLiteralEnd(s, i).Some? then Piece(true, CharLiteralEnd(s, i).value)
    else if RawHashes(s, i).Some? then Piece(true, RawEnd(s, RawStart(s, i) + RawHashes(s, i).value + 1, RawHashes(s, i).value))
    else if s[i] == '"' then Piece(true, StringEnd(s, i + 1))
    else if StartsAt(s, i, "b\"") then Piece(true, StringEnd(s, i + 2))
    else Piece(false, i + 1)
  }

  function BlankChar(c: char): char {
    if c == '\n' then c else ' '
  }

  function Blank(t: string): (b: string)
    ensures |b| == |t| && forall k :: 0 <= k < |t| ==> b[k] == BlankChar(t[k])
  {
    seq(|t|, k requires 0 <= k < |t| => BlankChar(t[k]))
  }

  function SanitizeFrom(s: string, i: nat): (o: string)
    requires i <= |s|
    ensures |o| == |s| - i
    decreases |s| - i
  {
    if i == |s| then []
    else
      PieceText(s, i) + SanitizeFrom(s, Scan(s, i).end)
  }

  /** What becomes of the piece that starts at a position. */
  function PieceText(s: string, i: nat): (t: string)
    requires i < |s|
    ensures |t| == Scan(s, i).end - i
  {
    var p := Scan(s, i);
    if p.blank then Blank(s[i..p.end]) else [s[i]]
  }

  function Sanitize(s: string): (o: string)
    ensures |o| == |s|
  {
    SanitizeFrom(s, 0)
  }

  // ---------- position faithful ----------

  /** Every character stays or becomes a space, and newlines stay. */
  lemma {:induction false} PositionFaithful(s: string, i: nat, k: nat)
    requires i <= k < |s|
    ensures SanitizeFrom(s, i)[k - i] == s[k] || SanitizeFrom(s, i)[k - i] == ' '
    ensures s[k] == '\n' ==> SanitizeFrom(s, i)[k - i] == '\n'
    decreases |s| - i
  {
    hide Scan, PieceText;
    var p := Scan(s, i);
    if k >= p.end {
      PositionFaithful(s, p.end, k);
    } else {
      PieceAt(s, i, k);
    }
  }

  lemma PieceAt(s: string, i: nat, k: nat)
    requires i < |s| && i <= k < Scan(s, i).end
    ensures PieceText(s, i)[k - i] == if Scan(s, i).blank then BlankChar(s[k]) else s[k]
  {
    hide Scan;
  }

  /** A blanked piece is longer than one character, unless it ends the text. */
  lemma FirstIsBlank(s: string, i: nat)
    requires i < |s| && Scan(s, i).blank
    ensures SanitizeFrom(s, i)[0] == BlankChar(s[i])
    ensures |SanitizeFrom(s, i)| > 1 ==> SanitizeFrom(s, i)[1] == BlankChar(s[i + 1])
  {
    hide Scan, PieceText;
    PieceAt(s, i, i);
    if i + 1 < |s| {
      PieceAt(s, i, i + 1);
    }
  }

  lemma FirstIsKept(s: string, i: nat)
    requires i < |s| && !Scan(s, i).blank
    ensures SanitizeFrom(s, i)[0] == s[i] && SanitizeFrom(s, i)[1..] == SanitizeFrom(s, i + 1)
  {
  }

  // ---------- nothing left to blank ----------

  /** What the sanitiser removes: a quote, the start of a comment, or a complete char literal. */
  predicate Removable(s: string, k: nat)
    requires k < |s|
  {
    s[k] == '"' || StartsAt(s, k, "//") || StartsAt(s, k, "/*") || QuotedEnd(s, k).Some?
  }

  /** A two-character opener cannot appear in the output at a kept position unless it was there in the input. */
  lemma KeptOpener(s: string, i: nat, t: string)
    requires i < |s| && !Scan(s, i).blank && |t| == 2 && t[1] != ' '
    requires StartsAt(SanitizeFrom(s, i), 0, t)
    ensures StartsAt(s, i, t)
  {
    hide Scan;
    FirstIsKept(s, i);
    var o := SanitizeFrom(s, i);
    assert o[..2][0] == t[0] && o[..2][1] == t[1];
    PositionFaithful(s, i, i + 1);
    assert s[i..i + 2] == [s[i], s[i + 1]];
  }

  /** Characters other than blanks are the input's own. */
  lemma SolidIsFaithful(s: string, i: nat, k: nat)
    requires i <= k < |s| && SanitizeFrom(s, i)[k - i] != ' '
    ensures SanitizeFrom(s, i)[k - i] == s[k]
  {
    hide SanitizeFrom;
    PositionFaithful(s, i, k);
  }

  lemma {:induction false} HexRunEndIs(s: string, i: nat, e: nat)
    requires i <= e <= |s|
    requires forall k :: i <= k < e ==> IsHex(s[k]) || s[k] == '_'
    requires e < |s| && !IsHex(s[e]) && s[e] != '_'
    ensures HexRunEnd(s, i) == e
    decreases e - i
  {
    if i < e {
      HexRunEndIs(s, i + 1, e);
    }
  }

  /** An escape in the output at a kept backslash was an escape in the input. */
  lemma KeptEscape(s: string, i: nat)
    requires i + 1 < |s| && SanitizeFrom(s, i)[1] == '\\' && !Scan(s, i).blank && !Scan(s, i + 1).blank
    requires EscapeEnd(SanitizeFrom(s, i), 1).Some?
    ensures EscapeEnd(s, i + 1).Some?
  {
    hide Scan, SanitizeFrom;
    var o := SanitizeFrom(s, i);
    forall k | 0 <= k < |o| && o[k] != ' ' ensures o[k] == s[i + k] {
      SolidIsFaithful(s, i, i + k);
    }
    if Is(o, 2, 'u') && Is(o, 3, '{') && HexRunEnd(o, 4) > 4 && Is(o, HexRunEnd(o, 4), '}') && Is(o, HexRunEnd(o, 4) + 1, '\'') {
      var e := HexRunEnd(o, 4);
      assert forall k :: i + 4 <= k < i + e ==> s[k] == o[k - i];
      HexRunEndIs(s, i + 4, i + e);
    } else if Is(o, 2, 'x') && 4 < |o| && IsHex(o[3]) && IsHex(o[4]) && Is(o, 5, '\'') {
    } else {
      FirstIsKept(s, i);
      FirstIsKept(s, i + 1);
      assert o[2] == SanitizeFrom(s, i + 2)[0] && o[3] == SanitizeFrom(s, i + 2)[1];
      if Scan(s, i + 2).blank {
        FirstIsBlank(s, i + 2);
        assert false;
      }
      FirstIsKept(s, i + 2);
    }
  }

  lemma KeptQuote(s: string, i: nat)
    requires i < |s| && !Scan(s, i).blank && QuotedEnd(SanitizeFrom(s, i), 0).Some?
    ensures QuotedEnd(s, i).Some?
  {
    hide Scan, SanitizeFrom, EscapeEnd;
    var o := SanitizeFrom(s, i);
    FirstIsKept(s, i);
    assert o[1] == SanitizeFrom(s, i + 1)[0];
    if Scan(s, i + 1).blank {
      FirstIsBlank(s, i + 1);
      assert false;
    }
    FirstIsKept(s, i + 1);
    assert o[1] == s[i + 1];
    if o[1] == '\\' {
      KeptEscape(s, i);
    } else {
      SolidIsFaithful(s, i, i + 2);
    }
  }

  /** Nothing removable is left anywhere in the output. */
  lemma {:induction false} NothingRemovable(s: string, i: nat, k: nat)
    requires i <= |s| && k < |s| - i
    ensures !Removable(SanitizeFrom(s, i), k)
    decreases |s| - i
  {
    hide Scan, Removable;
    var p := Scan(s, i);
    var o := SanitizeFrom(s, i);
    if k >= p.end - i {
      NothingRemovable(s, p.end, k - (p.end - i));
      SuffixRemovable(o, p.end - i, k);
      assert o[p.end - i..] == SanitizeFrom(s, p.end);
    } else if p.blank {
      BlankIsNotRemovable(o, k);
    } else {
      KeptIsNotRemovable(s, i);
    }
  }

  lemma BlankIsNotRemovable(o: string, k: nat)
    requires k < |o| && (o[k] == ' ' || o[k] == '\n')
    ensures !Removable(o, k)
  {
    assert k + 2 <= |o| ==> o[k..k + 2][0] == o[k];
  }

  lemma KeptIsNotRemovable(s: string, i: nat)
    requires i < |s| && !Scan(s, i).blank
    ensures !Removable(SanitizeFrom(s, i), 0)
  {
    hide SanitizeFrom, QuotedEnd, CommentEnd, RawEnd, StringEnd;
    FirstIsKept(s, i);
    if StartsAt(SanitizeFrom(s, i), 0, "//") { KeptOpener(s, i, "//"); }
    if StartsAt(SanitizeFrom(s, i), 0, "/*") { KeptOpener(s, i, "/*"); }
    if QuotedEnd(SanitizeFrom(s, i), 0).Some? { KeptQuote(s, i); }
  }

  lemma SuffixRemovable(o: string, n: nat, k: nat)
    requires n <= k < |o|
    ensures Removable(o, k) ==> Removable(o[n..], k - n)
  {
    var t := o[n..];
    assert forall j :: 0 <= j < |t| ==> t[j] == o[n + j];
    if StartsAt(o, k, "//") { assert t[k - n..k - n + 2] == o[k..k + 2]; }
    if StartsAt(o, k, "/*") { assert t[k - n..k - n + 2] == o[k..k + 2]; }
    if k + 4 <= |o| {
      var e := HexRunEnd(o, k + 4);
      if e < |o| {
        assert t[e - n] == o[e];
        HexRunEndIs(t, k + 4 - n, e - n);
      }
    }
  }

  /** The output has the input's length and newlines, differs from it only by spaces, and holds no quote, comment opener or char literal. */
  lemma SanitizedIsClean(s: string, k: nat)
    requires k < |s|
    ensures
      var o := Sanitize(s);
      && (o[k] == s[k] || o[k] == ' ') && (o[k] == '\n' <==> s[k] == '\n')
      && o[k] != '"' && !StartsAt(o, k, "//") && !StartsAt(o, k, "/*")
      && QuotedEnd(o, k).None? && CharLiteralEnd(o, k).None?
  {
    hide SanitizeFrom, QuotedEnd;
    PositionFaithful(s, 0, k);
    NothingRemovable(s, 0, k);
    if k + 1 < |s| { NothingRemovable(s, 0, k + 1); }
  }

  lemma CleanScan(o: string, i: nat)
    requires i < |o| && forall k :: i <= k < |o| ==> !Removable(o, k)
    ensures !Scan(o, i).blank
  {
    hide CommentEnd, RawEnd, StringEnd, QuotedEnd, LineEnd;
    forall q | i <= q < |o| ensures o[q] != '"' {
      assert !Removable(o, q);
    }
    assert !Removable(o, i);
    assert i + 1 < |o| ==> !Removable(o, i + 1) && o[i..i + 2][1] == o[i + 1];
  }

  lemma {:induction false} CleanIsKept(o: string, i: nat)
    requires i <= |o| && forall k :: i <= k < |o| ==> !Removable(o, k)
    ensures SanitizeFrom(o, i) == o[i..]
    decreases |o| - i
  {
    hide Scan, Removable;
    if i < |o| {
      CleanScan(o, i);
      CleanIsKept(o, i + 1);
    }
  }

  /** Sanitising twice is sanitising once. */
  lemma SanitizeIsIdempotent(s: string)
    ensures Sanitize(Sanitize(s)) == Sanitize(s)
  {
    hide SanitizeFrom, QuotedEnd;
    var o := Sanitize(s);
    forall k | 0 <= k < |o| ensures !Removable(o, k) {
      NothingRemovable(s, 0, k);
    }
    CleanIsKept(o, 0);
    assert o[0..] == o;
  }

  // ---------- what is recognised ----------

  /** The inside of a block comment after its opener: text and nested comments up to the closer. */
  datatype Body = Close | Text(c: char, rest: Body) | Nested(inner: Body, rest: Body)

  function RenderBody(b: Body): (t: string)
    ensures |t| >= 2
  {
    match b
    case Close => "*/"
    case Text(c, rest) => [c] + RenderBody(rest)
    case Nested(inner, rest) => "/*" + RenderBody(inner) + RenderBody(rest)
  }

  /** Text does not run into the next character to form a delimiter. */
  predicate WellFormed(b: Body) {
    match b
    case Close => true
    case Text(c, rest) =>
      !(c == '/' && RenderBody(rest)[0] == '*') && !(c == '*' && RenderBody(rest)[0] == '/') && WellFormed(rest)
    case Nested(inner, rest) => WellFormed(inner) && WellFormed(rest)
  }

  lemma StartsSplit(s: string, i: nat, a: string, b: string)
    ensures StartsAt(s, i, a + b) <==> StartsAt(s, i, a) && StartsAt(s, i + |a|, b)
  {
    if i + |a| + |b| <= |s| {
      var t := s[i..i + |a| + |b|];
      assert t[..|a|] == s[i..i + |a|] && t[|a|..] == s[i + |a|..i + |a| + |b|];
      assert (a + b)[..|a|] == a && (a + b)[|a|..] == b;
      assert t == t[..|a|] + t[|a|..];
    }
  }

  lemma CommentSteps(s: string, i: nat, depth: nat)
    requires i < |s|
    ensures StartsAt(s, i, "/*") ==> CommentEnd(s, i, depth + 1) == CommentEnd(s, i + 2, depth + 2)
    ensures StartsAt(s, i, "*/") ==> CommentEnd(s, i, depth + 1) == CommentEnd(s, i + 2, depth)
    ensures !StartsAt(s, i, "/*") && !StartsAt(s, i, "*/") ==> CommentEnd(s, i, depth + 1) == CommentEnd(s, i + 1, depth + 1)
  {
  }

  lemma TextIsNoDelimiter(s: string, i: nat, c: char, r: string)
    requires r != [] && StartsAt(s, i, [c] + r)
    requires !(c == '/' && r[0] == '*') && !(c == '*' && r[0] == '/')
    ensures StartsAt(s, i + 1, r) && !StartsAt(s, i, "/*") && !StartsAt(s, i, "*/")
  {
    StartsSplit(s, i, [c], r);
    assert s[i..i + 1][0] == c && s[i + 1..i + 1 + |r|][0] == r[0];
    assert s[i..i + 2] == [c, r[0]];
  }

  /** A nested comment is left exactly at its own closer, whatever it contains. */
  lemma {:induction false} BodyIsSkipped(s: string, i: nat, b: Body, depth: nat)
    requires WellFormed(b) && StartsAt(s, i, RenderBody(b))
    ensures CommentEnd(s, i, depth + 1) == CommentEnd(s, i + |RenderBody(b)|, depth)
    decreases b
  {
    hide CommentEnd;
    CommentSteps(s, i, depth);
    match b
    case Close =>
    case Text(c, rest) =>
      TextIsNoDelimiter(s, i, c, RenderBody(rest));
      BodyIsSkipped(s, i + 1, rest, depth);
    case Nested(inner, rest) =>
      var a, r := RenderBody(inner), RenderBody(rest);
      StartsSplit(s, i, "/*" + a, r);
      StartsSplit(s, i, "/*", a);
      BodyIsSkipped(s, i + 2, inner, depth + 1);
      BodyIsSkipped(s, i + 2 + |a|, rest, depth);
  }

  /** A block comment, nested to any depth, is one blanked piece. */
  lemma BlockCommentIsOnePiece(s: string, i: nat, b: Body)
    requires WellFormed(b) && StartsAt(s, i, "/*" + RenderBody(b))
    ensures Scan(s, i) == Piece(true, i + 2 + |RenderBody(b)|)
  {
    hide RawEnd, StringEnd, LineEnd, QuotedEnd;
    StartsSplit(s, i, "/*", RenderBody(b));
    BodyIsSkipped(s, i + 2, b, 0);
  }

  datatype StringItem = Plain(c: char) | Escaped(c: char)

  /** The inside of a string literal and its closing quote. */
  function RenderString(items: seq<StringItem>): string {
    if items == [] then "\""
    else (if items[0].Plain? then [items[0].c] else ['\\', items[0].c]) + RenderString(items[1..])
  }

  predicate PlainsArePlain(items: seq<StringItem>) {
    forall i :: 0 <= i < |items| && items[i].Plain? ==> items[i].c != '"' && items[i].c != '\\'
  }

  lemma {:induction false} StringIsSkipped(s: string, i: nat, items: seq<StringItem>)
    requires PlainsArePlain(items) && StartsAt(s, i, RenderString(items))
    ensures StringEnd(s, i) == i + |RenderString(items)|
    decreases |items|
  {
    if items != [] {
      var head := if items[0].Plain? then [items[0].c] else ['\\', items[0].c];
      StartsSplit(s, i, head, RenderString(items[1..]));
      assert s[i..i + |head|][0] == head[0];
      StringIsSkipped(s, i + |head|, items[1..]);
    } else {
      assert s[i..i + 1][0] == '"';
    }
  }

  /** A string literal with any escapes is one blanked piece. */
  lemma StringIsOnePiece(s: string, i: nat, items: seq<StringItem>)
    requires PlainsArePlain(items) && StartsAt(s, i, "\"" + RenderString(items))
    ensures Scan(s, i) == Piece(true, i + 1 + |RenderString(items)|)
  {
    hide RawEnd, StringEnd, LineEnd, CommentEnd;
    StartsSplit(s, i, "\"", RenderString(items));
    assert s[i..i + 1][0] == '"';
    assert i + 2 <= |s| ==> s[i..i + 2][0] == '"';
    StringIsSkipped(s, i + 1, items);
  }

  lemma {:induction false} HashRunIs(s: string, i: nat, n: nat)
    requires i + n < |s| && s[i + n] != '#' && forall k :: i <= k < i + n ==> s[k] == '#'
    ensures HashRun(s, i) == n
    decreases n
  {
    if n > 0 {
      HashRunIs(s, i + 1, n - 1);
    }
  }

  lemma {:induction false} RawIsSkipped(s: string, i: nat, n: nat, end: nat)
    requires i <= end && end + 1 + n <= |s| && StartsAt(s, end, "\"" + Hashes(n))
    requires forall k :: i <= k < end ==> !StartsAt(s, k, "\"" + Hashes(n))
    ensures RawEnd(s, i, n) == end + 1 + n
    decreases end - i
  {
    if i < end {
      RawIsSkipped(s, i + 1, n, end);
    }
  }

  lemma StartsChar(s: string, i: nat, c: char)
    ensures StartsAt(s, i, [c]) <==> Is(s, i, c)
  {
    if i < |s| {
      assert s[i..i + 1] == [s[i]];
    }
  }

  lemma WindowOf(s: string, i: nat, t: string, j: nat, c: string)
    requires StartsAt(s, i, t) && j + |c| <= |t|
    ensures StartsAt(s, i + j, c) <==> StartsAt(t, j, c)
  {
    var a, b := s[i + j..i + j + |c|], t[j..j + |c|];
    forall k | 0 <= k < |c| ensures a[k] == b[k] {
      assert a[k] == s[i + j + k] == s[i..i + |t|][j + k] == t[j + k];
    }
    assert a == b;
  }

  lemma RawOpens(s: string, i: nat, n: nat)
    requires n <= 255 && StartsAt(s, i, "r" + Hashes(n) + "\"")
    ensures Scan(s, i) == Piece(true, RawEnd(s, i + 2 + n, n))
  {
    hide RawEnd, StringEnd, LineEnd, CommentEnd, StartsAt, CharLiteralEnd;
    StartsSplit(s, i, "r" + Hashes(n), "\"");
    StartsSplit(s, i, "r", Hashes(n));
    StartsChar(s, i, 'r');
    StartsChar(s, i + 1 + n, '"');
    StartsHashes(s, i + 1, n);
    HashRunIs(s, i + 1, n);
    RawIsNoComment(s, i);
  }

  lemma StartsHashes(s: string, i: nat, n: nat)
    requires StartsAt(s, i, Hashes(n))
    ensures i + n <= |s| && forall k :: i <= k < i + n ==> s[k] == '#'
  {
    forall k | i <= k < i + n ensures s[k] == '#' {
      assert s[i..i + n][k - i] == s[k];
    }
  }

  lemma RawIsNoComment(s: string, i: nat)
    requires i < |s| && s[i] == 'r'
    ensures !StartsAt(s, i, "//") && !StartsAt(s, i, "/*") && CharLiteralEnd(s, i).None?
  {
    assert i + 2 <= |s| ==> s[i..i + 2][0] == 'r';
  }

  lemma RawBodyEnds(s: string, from: nat, n: nat, body: string)
    requires StartsAt(s, from, body + ("\"" + Hashes(n)))
    requires forall k :: 0 <= k < |body| ==> !StartsAt(body + ("\"" + Hashes(n)), k, "\"" + Hashes(n))
    ensures RawEnd(s, from, n) == from + |body| + 1 + n
  {
    hide RawEnd, StartsAt;
    var closing := "\"" + Hashes(n);
    StartsSplit(s, from, body, closing);
    forall k | from <= k < from + |body| ensures !StartsAt(s, k, closing) {
      WindowOf(s, from, body + closing, k - from, closing);
    }
    StartsFits(s, from + |body|, closing);
    RawIsSkipped(s, from, n, from + |body|);
  }

  lemma StartsFits(s: string, i: nat, t: string)
    requires StartsAt(s, i, t)
    ensures i + |t| <= |s|
  {
  }

  /** A raw string ends at the first quote with as many hashes as it opened with, and is one blanked piece. */
  lemma RawStringIsOnePiece(s: string, i: nat, n: nat, body: string)
    requires n <= 255 && StartsAt(s, i, "r" + Hashes(n) + "\"" + (body + ("\"" + Hashes(n))))
    requires forall k :: 0 <= k < |body| ==> !StartsAt(body + ("\"" + Hashes(n)), k, "\"" + Hashes(n))
    ensures Scan(s, i) == Piece(true, i + |body| + 3 + 2 * n)
  {
    hide RawEnd, StartsAt, Scan;
    StartsSplit(s, i, "r" + Hashes(n) + "\"", body + ("\"" + Hashes(n)));
    RawOpens(s, i, n);
    RawBodyEnds(s, i + 2 + n, n, body);
  }

  // ---------- the procedure ----------

  /** Blank a stretch of text in place; outside comments and strings there is no newline to keep. */
  method BlankRange(chars: array<char>, lo: nat, hi: nat, keepNewlines: bool)
    requires lo <= hi <= chars.Length
    requires keepNewlines || forall k :: lo <= k < hi ==> chars[k] != '\n'
    modifies chars
    ensures chars[..] == old(chars[..lo]) + Blank(old(chars[lo..hi])) + old(chars[hi..])
  {
    for offset := lo to hi
      invariant forall k :: 0 <= k < lo || offset <= k < chars.Length ==> chars[k] == old(chars[k])
      invariant forall k :: lo <= k < offset ==> chars[k] == BlankChar(old(chars[k]))
    {
      if !keepNewlines || chars[offset] != '\n' {
        chars[offset] := ' ';
      }
    }
  }

  /** Leave a block comment, counting how deep it is nested. */
  method SkipComment(source: string, start: nat) returns (index: nat)
    requires start <= |source|
    ensures index == CommentEnd(source, start, 1)
  {
    index := start;
    var depth := 1;
    while index < |source| && depth > 0
      invariant start <= index <= |source|
      invariant CommentEnd(source, start, 1) == CommentEnd(source, index, depth)
    {
      if StartsAt(source, index, "/*") {
        depth, index := depth + 1, index + 2;
      } else if StartsAt(source, index, "*/") {
        depth, index := depth - 1, index + 2;
      } else {
        index := index + 1;
      }
    }
  }

  /** Leave a string, stepping over escapes. */
  method SkipString(source: string, start: nat) returns (index: nat)
    requires start <= |source|
    ensures index == StringEnd(source, start)
  {
    index := start;
    while index < |source|
      invariant start <= index <= |source| + 1
      invariant StringEnd(source, start) == StringEnd(source, index)
      decreases |source| + 1 - index
    {
      if source[index] == '\\' {
        index := index + 2;
      } else if source[index] == '"' {
        return index + 1;
      } else {
        index := index + 1;
      }
    }
    index := |source|;
  }

  /** What starts at a position, and where it ends. */
  method NextPiece(source: string, index: nat) returns (p: Piece)
    requires index < |source|
    ensures p == Scan(source, index)
  {
    hide QuotedEnd, RawEnd, CommentEnd, StringEnd, LineEnd;
    if StartsAt(source, index, "//") {
      return Piece(true, LineEnd(source, index + 2));
    }
    if StartsAt(source, index, "/*") {
      var end := SkipComment(source, index + 2);
      return Piece(true, end);
    }
    var literal := CharLiteralEnd(source, index);
    if literal.Some? {
      return Piece(true, literal.value);
    }
    var hashes := RawHashes(source, index);
    if hashes.Some? {
      return Piece(true, RawEnd(source, RawStart(source, index) + hashes.value + 1, hashes.value));
    }
    var quote := if StartsAt(source, index, "b\"") then index + 1 else index;
    if StartsAt(source, index, "b\"") {
      assert source[index..index + 2][1] == source[quote] && source[index..index + 2][0] == source[index];
    }
    if source[quote] == '"' {
      var end := SkipString(source, quote + 1);
      return Piece(true, end);
    }
    p := Piece(false, index + 1);
  }

  /** Rewrite the piece at a position, everything before it being done and everything from it on untouched. */
  method RewritePiece(source: string, chars: array<char>, index: nat, ghost done: string) returns (next: nat)
    requires index < |source| && |done| == index && chars[..] == done + source[index..]
    modifies chars
    ensures next == Scan(source, index).end
    ensures chars[..] == done + PieceText(source, index) + source[next..]
  {
    hide Scan, Blank;
    var p := NextPiece(source, index);
    next := p.end;
    ghost var rest := source[index..];
    assert rest[..next - index] == source[index..next] && rest[next - index..] == source[next..];
    assert chars[..index] == done && chars[index..] == rest;
    if p.blank {
      assert chars[index..next] == chars[index..][..next - index] && chars[next..] == chars[index..][next - index..];
      BlankRange(chars, index, next, true);
    }
  }

  /** Sanitise in one pass over an array of characters. */
  method SanitizeRust(source: string) returns (clean: string)
    ensures clean == Sanitize(source)
  {
    hide Scan, PieceText;
    var chars := new char[|source|](i requires 0 <= i < |source| => source[i]);
    var index := 0;
    ghost var done := [];
    assert chars[..] == done + source[0..];
    while index < |source|
      invariant index <= |source| && |done| == index
      invariant chars[..] == done + source[index..]
      invariant done + SanitizeFrom(source, index) == Sanitize(source)
    {
      ghost var piece := PieceText(source, index);
      var next := RewritePiece(source, chars, index, done);
      assert done + (piece + SanitizeFrom(source, next)) == (done + piece) + SanitizeFrom(source, next);
      done, index := done + piece, next;
    }
    clean := chars[..];
    assert source[index..] == [] && SanitizeFrom(source, index) == [];
  }
}
