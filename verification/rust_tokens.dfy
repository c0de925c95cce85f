/** The sanitiser as a law over tokens: code stays, every comment and literal is blanked, and nothing else is. */
module RustTokens {
  import opened Options
  import opened RustSanitizer

  // ---------- char literals ----------

  datatype Literal = OneChar(c: char) | Escape(c: char) | HexEscape(hi: char, lo: char) | UnicodeEscape(digits: string)

  predicate GoodLiteral(l: Literal) {
    match l
    case OneChar(c) => c != '\'' && c != '\\' && c != '\n'
    case Escape(c) => c != '\n'
    case HexEscape(hi, lo) => IsHex(hi) && IsHex(lo)
    case UnicodeEscape(digits) => digits != [] && forall k :: 0 <= k < |digits| ==> IsHex(digits[k]) || digits[k] == '_'
  }

  function RenderLiteral(l: Literal): (t: string)
    ensures |t| >= 3 && t[0] == '\''
  {
    match l
    case OneChar(c) => ['\'', c, '\'']
    case Escape(c) => ['\'', '\\', c, '\'']
    case HexEscape(hi, lo) => ['\'', '\\', 'x', hi, lo, '\'']
    case UnicodeEscape(digits) => ['\'', '\\', 'u', '{'] + digits + ['}', '\'']
  }

  /** A text starts at a position exactly if it fits and agrees there character by character. */
  lemma StartsMeans(s: string, i: nat, t: string)
    ensures StartsAt(s, i, t) <==> i + |t| <= |s| && forall k :: 0 <= k < |t| ==> s[i + k] == t[k]
  {
    if i + |t| <= |s| {
      var window := s[i..i + |t|];
      assert forall k :: 0 <= k < |t| ==> window[k] == s[i + k];
    }
  }

  lemma LiteralEnds(s: string, q: nat, l: Literal)
    requires GoodLiteral(l) && StartsAt(s, q, RenderLiteral(l))
    ensures q < |s| && QuotedEnd(s, q) == Some(q + |RenderLiteral(l)|)
  {
    hide StartsAt;
    var t := RenderLiteral(l);
    StartsMeans(s, q, t);
    assert s[q] == t[0] && s[q + 1] == t[1] && s[q + 2] == t[2];
    match l
    case OneChar(c) =>
    case Escape(c) => assert s[q + 3] == t[3];
    case HexEscape(hi, lo) => assert s[q + 3] == t[3] && s[q + 4] == t[4] && s[q + 5] == t[5];
    case UnicodeEscape(digits) =>
      var e := q + 4 + |digits|;
      forall k | q + 4 <= k < e ensures IsHex(s[k]) || s[k] == '_' {
        assert s[q + (k - q)] == t[k - q];
      }
      assert s[q + 3] == t[3] && s[q + (4 + |digits|)] == t[4 + |digits|] && s[q + (5 + |digits|)] == t[5 + |digits|];
      HexRunEndIs(s, q + 4, e);
  }

  lemma UnicodeSeen(s: string, q: nat, e: nat)
    requires q + 4 < e && e + 1 < |s| && s[q] == '\'' && s[q + 1] == '\\' && s[q + 2] == 'u' && s[q + 3] == '{'
    requires s[e] == '}' && s[e + 1] == '\''
    ensures StartsAt(s, q, RenderLiteral(UnicodeEscape(s[q + 4..e])))
  {
    hide StartsAt;
    var digits := s[q + 4..e];
    var t := ['\'', '\\', 'u', '{'] + digits + ['}', '\''];
    forall k | 0 <= k < |t| ensures s[q + k] == t[k] {
      if 4 <= k < 4 + |digits| {
        assert t[k] == digits[k - 4];
      }
    }
    StartsMeans(s, q, t);
  }

  lemma EscapeSeen(s: string, q: nat) returns (l: Literal)
    requires q + 1 < |s| && s[q] == '\'' && s[q + 1] == '\\' && EscapeEnd(s, q + 1).Some?
    ensures GoodLiteral(l) && StartsAt(s, q, RenderLiteral(l))
  {
    hide StartsAt;
    var p, e := q + 1, HexRunEnd(s, if q + 4 <= |s| then q + 4 else |s|);
    if Is(s, p + 1, 'u') && Is(s, p + 2, '{') && e > p + 3 && Is(s, e, '}') && Is(s, e + 1, '\'') {
      l := UnicodeEscape(s[p + 3..e]);
      UnicodeSeen(s, q, e);
    } else if Is(s, p + 1, 'x') && p + 3 < |s| && IsHex(s[p + 2]) && IsHex(s[p + 3]) && Is(s, p + 4, '\'') {
      l := HexEscape(s[p + 2], s[p + 3]);
      StartsMeans(s, q, RenderLiteral(l));
    } else {
      l := Escape(s[p + 1]);
      StartsMeans(s, q, RenderLiteral(l));
    }
  }

  /** Every complete literal the scanner sees is one of these. */
  lemma LiteralSeen(s: string, q: nat) returns (l: Literal)
    requires q < |s| && QuotedEnd(s, q).Some?
    ensures GoodLiteral(l) && StartsAt(s, q, RenderLiteral(l))
  {
    hide StartsAt, EscapeEnd;
    if s[q + 1] == '\\' {
      l := EscapeSeen(s, q);
    } else {
      l := OneChar(s[q + 1]);
      StartsMeans(s, q, RenderLiteral(l));
    }
  }

  // ---------- tokens ----------

  datatype Token =
    | Code(c: char)
    | LineComment(text: string)
    | BlockComment(body: Body)
    | CharLiteral(byte: bool, literal: Literal)
    | StringLiteral(byte: bool, items: seq<StringItem>)
    | RawString(byte: bool, hashes: nat, content: string)
    // the last token of a text may lack its end
    | OpenComment(rest: OpenBody)
    | OpenString(byte: bool, items: seq<StringItem>, dangling: bool)
    | OpenRaw(byte: bool, hashes: nat, content: string)

  /** The inside of a comment that the text ends in: text, closed comments, and comments that stay open as well. */
  datatype OpenBody = TextEnd | OpenText(c: char, rest: OpenBody) | Closed(inner: Body, rest: OpenBody) | Deeper(rest: OpenBody)

  function RenderOpenBody(b: OpenBody): string {
    match b
    case TextEnd => ""
    case OpenText(c, rest) => [c] + RenderOpenBody(rest)
    case Closed(inner, rest) => "/*" + RenderBody(inner) + RenderOpenBody(rest)
    case Deeper(rest) => "/*" + RenderOpenBody(rest)
  }

  predicate WellFormedOpen(b: OpenBody) {
    match b
    case TextEnd => true
    case OpenText(c, rest) =>
      && WellFormedOpen(rest)
      && (RenderOpenBody(rest) != [] ==>
            !(c == '/' && RenderOpenBody(rest)[0] == '*') && !(c == '*' && RenderOpenBody(rest)[0] == '/'))
    case Closed(inner, rest) => WellFormed(inner) && WellFormedOpen(rest)
    case Deeper(rest) => WellFormedOpen(rest)
  }

  /** The inside of a string that the text ends in, perhaps on a lone backslash. */
  function RenderOpenString(items: seq<StringItem>, dangling: bool): string {
    if items == [] then (if dangling then "\\" else "")
    else (if items[0].Plain? then [items[0].c] else ['\\', items[0].c]) + RenderOpenString(items[1..], dangling)
  }

  function Prefix(byte: bool): string {
    if byte then "b" else ""
  }

  function RawTail(n: nat, content: string): string {
    content + ("\"" + Hashes(n))
  }

  function Render(t: Token): (r: string)
    ensures r != []
  {
    match t
    case Code(c) => [c]
    case LineComment(text) => "//" + text
    case BlockComment(body) => "/*" + RenderBody(body)
    case CharLiteral(byte, l) => Prefix(byte) + RenderLiteral(l)
    case StringLiteral(byte, items) => Prefix(byte) + ("\"" + RenderString(items))
    case RawString(byte, n, content) => Prefix(byte) + ("r" + Hashes(n) + "\"" + RawTail(n, content))
    case OpenComment(body) => "/*" + RenderOpenBody(body)
    case OpenString(byte, items, dangling) => Prefix(byte) + ("\"" + RenderOpenString(items, dangling))
    case OpenRaw(byte, n, content) => Prefix(byte) + ("r" + Hashes(n) + "\"" + content)
  }

  function RenderAll(ts: seq<Token>): string {
    if ts == [] then [] else Render(ts[0]) + RenderAll(ts[1..])
  }

  /** A comment or a literal begins here. */
  ghost predicate Opens(text: string) {
    || StartsAt(text, 0, "//") || StartsAt(text, 0, "/*") || StartsAt(text, 0, "\"") || StartsAt(text, 0, "b\"")
    || (exists byte, n :: 0 <= n <= 255 && StartsAt(text, 0, Prefix(byte) + ("r" + Hashes(n) + "\"")))
    || (exists byte, l :: GoodLiteral(l) && StartsAt(text, 0, Prefix(byte) + RenderLiteral(l)))
  }

  /** The token is well formed and does not run into what follows. */
  ghost predicate Fits(t: Token, rest: string) {
    match t
    case Code(c) => !Opens([c] + rest)
    case LineComment(text) => '\n' !in text && (rest == [] || rest[0] == '\n')
    case BlockComment(body) => WellFormed(body)
    case CharLiteral(_, l) => GoodLiteral(l)
    case StringLiteral(_, items) => PlainsArePlain(items)
    case RawString(_, n, content) =>
      n <= 255 && forall k :: 0 <= k < |content| ==> !StartsAt(RawTail(n, content), k, "\"" + Hashes(n))
    case OpenComment(body) => rest == [] && WellFormedOpen(body)
    case OpenString(_, items, _) => rest == [] && PlainsArePlain(items)
    case OpenRaw(_, n, content) => rest == [] && n <= 255 && forall k :: 0 <= k < |content| ==> !StartsAt(content, k, "\"" + Hashes(n))
  }

  ghost predicate AllFit(ts: seq<Token>) {
    ts == [] || (Fits(ts[0], RenderAll(ts[1..])) && AllFit(ts[1..]))
  }

  // ---------- each token is one piece ----------

  lemma StartsInSuffix(s: string, i: nat, t: string)
    requires i <= |s|
    ensures StartsAt(s, i, t) <==> StartsAt(s[i..], 0, t)
  {
    if i + |t| <= |s| {
      assert s[i..][..|t|] == s[i..i + |t|];
    }
  }

  lemma {:induction false} LineEndIs(s: string, i: nat, e: nat)
    requires i <= e <= |s| && (forall k :: i <= k < e ==> s[k] != '\n') && (e == |s| || s[e] == '\n')
    ensures LineEnd(s, i) == e
    decreases e - i
  {
    if i < e {
      LineEndIs(s, i + 1, e);
    }
  }

  lemma LineCommentIsOnePiece(s: string, i: nat, text: string)
    requires StartsAt(s, i, "//" + text) && '\n' !in text
    requires i + 2 + |text| == |s| || s[i + 2 + |text|] == '\n'
    ensures Scan(s, i) == Piece(true, i + 2 + |text|)
  {
    hide StartsAt, LineEnd;
    var t := "//" + text;
    StartsSplit(s, i, "//", text);
    StartsMeans(s, i, t);
    forall k | i + 2 <= k < i + 2 + |text| ensures s[k] != '\n' {
      assert s[i + (k - i)] == t[k - i] && t[k - i] == text[k - i - 2];
    }
    LineEndIs(s, i + 2, i + 2 + |text|);
  }

  /** Where a text starts with a quote, a `b` or an `r`, no comment does. */
  lemma NoComment(s: string, i: nat)
    requires i < |s| && s[i] != '/'
    ensures !StartsAt(s, i, "//") && !StartsAt(s, i, "/*")
  {
    assert i + 2 <= |s| ==> s[i..i + 2][0] == s[i];
  }

  lemma CharLiteralIsOnePiece(s: string, i: nat, byte: bool, l: Literal)
    requires GoodLiteral(l) && StartsAt(s, i, Prefix(byte) + RenderLiteral(l))
    ensures i < |s| && Scan(s, i) == Piece(true, i + |Prefix(byte) + RenderLiteral(l)|)
  {
    hide StartsAt, QuotedEnd, RenderLiteral, GoodLiteral;
    StartsSplit(s, i, Prefix(byte), RenderLiteral(l));
    LiteralEnds(s, i + |Prefix(byte)|, l);
    StartsMeans(s, i, Prefix(byte) + RenderLiteral(l));
    assert s[i + 0] == (Prefix(byte) + RenderLiteral(l))[0];
    NoComment(s, i);
  }

  lemma ByteStringIsOnePiece(s: string, i: nat, items: seq<StringItem>)
    requires PlainsArePlain(items) && StartsAt(s, i, "b" + ("\"" + RenderString(items)))
    ensures i < |s| && Scan(s, i) == Piece(true, i + 2 + |RenderString(items)|)
  {
    hide StartsAt, StringEnd, PlainsArePlain, RenderString, RawEnd;
    var r := RenderString(items);
    assert "b" + ("\"" + r) == "b\"" + r;
    StartsSplit(s, i, "b\"", r);
    assert "b" + "\"" == "b\"";
    StartsSplit(s, i, "b", "\"");
    StartsChar(s, i, 'b');
    StartsChar(s, i + 1, '"');
    NoComment(s, i);
    StringIsSkipped(s, i + 2, items);
  }

  lemma ByteRawIsOnePiece(s: string, i: nat, n: nat, content: string)
    requires n <= 255 && StartsAt(s, i, "b" + ("r" + Hashes(n) + "\"" + RawTail(n, content)))
    requires forall k :: 0 <= k < |content| ==> !StartsAt(RawTail(n, content), k, "\"" + Hashes(n))
    ensures i < |s| && Scan(s, i) == Piece(true, i + 1 + |content| + 3 + 2 * n)
  {
    hide StartsAt, RawEnd, Scan;
    HashesLength(n);
    var opening := "r" + Hashes(n) + "\"";
    assert "b" + (opening + RawTail(n, content)) == "b" + opening + RawTail(n, content);
    StartsSplit(s, i, "b" + opening, RawTail(n, content));
    RawOpensPiece(s, i, true, n);
    RawBodyEnds(s, i + 3 + n, n, content);
  }

  // ---------- what the end of the text leaves open ----------

  lemma {:induction false} OpenBodyRunsOut(s: string, i: nat, b: OpenBody, depth: nat)
    requires WellFormedOpen(b) && StartsAt(s, i, RenderOpenBody(b)) && i + |RenderOpenBody(b)| == |s|
    ensures CommentEnd(s, i, depth + 1) == |s|
    decreases b
  {
    hide StartsAt, CommentEnd;
    var t := RenderOpenBody(b);
    if t == [] {
      CommentAtEnd(s, depth + 1);
    } else {
      CommentSteps(s, i, depth);
      match b
      case OpenText(c, rest) =>
        var r := RenderOpenBody(rest);
        StartsSplit(s, i, [c], r);
        if r == [] {
          LastIsNoDelimiter(s, i);
        } else {
          TextIsNoDelimiter(s, i, c, r);
        }
        OpenBodyRunsOut(s, i + 1, rest, depth);
      case Closed(inner, rest) =>
        var a, r := RenderBody(inner), RenderOpenBody(rest);
        StartsSplit(s, i, "/*" + a, r);
        StartsSplit(s, i, "/*", a);
        BodyIsSkipped(s, i + 2, inner, depth + 1);
        OpenBodyRunsOut(s, i + 2 + |a|, rest, depth);
      case Deeper(rest) =>
        StartsSplit(s, i, "/*", RenderOpenBody(rest));
        OpenBodyRunsOut(s, i + 2, rest, depth + 1);
    }
  }

  lemma CommentAtEnd(s: string, depth: nat)
    ensures CommentEnd(s, |s|, depth) == |s|
  {
  }

  lemma LastIsNoDelimiter(s: string, i: nat)
    requires i + 1 == |s|
    ensures !StartsAt(s, i, "/*") && !StartsAt(s, i, "*/")
  {
  }

  lemma OpenCommentIsOnePiece(s: string, i: nat, b: OpenBody)
    requires WellFormedOpen(b) && StartsAt(s, i, "/*" + RenderOpenBody(b)) && i + 2 + |RenderOpenBody(b)| == |s|
    ensures Scan(s, i) == Piece(true, |s|)
  {
    hide RawEnd, StringEnd, LineEnd, QuotedEnd, CommentEnd;
    StartsSplit(s, i, "/*", RenderOpenBody(b));
    OpenBodyRunsOut(s, i + 2, b, 0);
  }

  lemma {:induction false} OpenStringRunsOut(s: string, i: nat, items: seq<StringItem>, dangling: bool)
    requires PlainsArePlain(items) && StartsAt(s, i, RenderOpenString(items, dangling)) && i + |RenderOpenString(items, dangling)| == |s|
    ensures StringEnd(s, i) == |s|
    decreases |items|
  {
    if items != [] {
      var head := if items[0].Plain? then [items[0].c] else ['\\', items[0].c];
      StartsSplit(s, i, head, RenderOpenString(items[1..], dangling));
      assert s[i..i + |head|][0] == head[0];
      OpenStringRunsOut(s, i + |head|, items[1..], dangling);
    } else if dangling {
      assert s[i..i + 1][0] == '\\';
    }
  }

  lemma OpenStringIsOnePiece(s: string, i: nat, byte: bool, items: seq<StringItem>, dangling: bool)
    requires PlainsArePlain(items) && StartsAt(s, i, Prefix(byte) + ("\"" + RenderOpenString(items, dangling)))
    requires i + |Prefix(byte) + ("\"" + RenderOpenString(items, dangling))| == |s|
    ensures i < |s| && Scan(s, i) == Piece(true, |s|)
  {
    hide StartsAt, StringEnd, PlainsArePlain, RenderOpenString, RawEnd;
    var r := RenderOpenString(items, dangling);
    StartsSplit(s, i, Prefix(byte), "\"" + r);
    StartsSplit(s, i + |Prefix(byte)|, "\"", r);
    StartsChar(s, i + |Prefix(byte)|, '"');
    if byte {
      StartsChar(s, i, 'b');
      StartsSplit(s, i, "b", "\"");
      assert "b" + "\"" == "b\"";
    }
    NoComment(s, i);
    OpenStringRunsOut(s, i + |Prefix(byte)| + 1, items, dangling);
  }

  lemma {:induction false} RawRunsOut(s: string, i: nat, n: nat)
    requires i <= |s| && forall k :: i <= k < |s| ==> !StartsAt(s, k, "\"" + Hashes(n))
    ensures RawEnd(s, i, n) == |s|
    decreases |s| - i
  {
    if i + 1 + n <= |s| {
      RawRunsOut(s, i + 1, n);
    }
  }

  /** A raw string opens, with or without its `b`, and runs to wherever its end is. */
  lemma RawOpensPiece(s: string, i: nat, byte: bool, n: nat)
    requires n <= 255 && StartsAt(s, i, Prefix(byte) + ("r" + Hashes(n) + "\""))
    ensures i < |s| && i + |Prefix(byte)| + 2 + n <= |s|
    ensures Scan(s, i) == Piece(true, RawEnd(s, i + |Prefix(byte)| + 2 + n, n))
  {
    hide StartsAt, RawEnd, StringEnd, HashRun, LineEnd, CommentEnd;
    HashesLength(n);
    var p := i + |Prefix(byte)|;
    StartsSplit(s, i, Prefix(byte), "r" + Hashes(n) + "\"");
    StartsSplit(s, p, "r" + Hashes(n), "\"");
    StartsSplit(s, p, "r", Hashes(n));
    StartsChar(s, p, 'r');
    StartsChar(s, p + 1 + n, '"');
    StartsHashes(s, p + 1, n);
    HashRunIs(s, p + 1, n);
    if byte {
      StartsChar(s, i, 'b');
    }
    NoComment(s, i);
  }

  lemma OpenRawIsOnePiece(s: string, i: nat, byte: bool, n: nat, content: string)
    requires n <= 255 && StartsAt(s, i, Prefix(byte) + ("r" + Hashes(n) + "\"" + content))
    requires i + |Prefix(byte)| + 2 + n + |content| == |s|
    requires forall k :: 0 <= k < |content| ==> !StartsAt(content, k, "\"" + Hashes(n))
    ensures i < |s| && Scan(s, i) == Piece(true, |s|)
  {
    hide StartsAt, RawEnd, Scan, Prefix;
    HashesLength(n);
    var opening := "r" + Hashes(n) + "\"";
    var from := i + |Prefix(byte)| + 2 + n;
    assert Prefix(byte) + (opening + content) == Prefix(byte) + opening + content;
    StartsSplit(s, i, Prefix(byte) + opening, content);
    RawOpensPiece(s, i, byte, n);
    SuffixIs(s, from, content);
    NoneInSuffix(s, from, content, "\"" + Hashes(n));
    RawRunsOut(s, from, n);
  }

  lemma NoneInSuffix(s: string, from: nat, content: string, closing: string)
    requires from <= |s| && s[from..] == content && forall k :: 0 <= k < |content| ==> !StartsAt(content, k, closing)
    ensures forall k :: from <= k < |s| ==> !StartsAt(s, k, closing)
  {
    hide StartsAt;
    forall k | from <= k < |s| ensures !StartsAt(s, k, closing) {
      StartsInSuffix(s, k, closing);
      StartsInSuffix(content, k - from, closing);
      assert s[k..] == content[k - from..];
    }
  }

  lemma SuffixIs(s: string, i: nat, t: string)
    requires StartsAt(s, i, t) && i + |t| == |s|
    ensures s[i..] == t
  {
  }

  /** A character at which nothing begins is code, and stays. */
  lemma CodeIsOnePiece(s: string, i: nat)
    requires i < |s| && !Opens(s[i..])
    ensures Scan(s, i) == Piece(false, i + 1)
  {
    hide StartsAt, QuotedEnd, HashRun, LineEnd, CommentEnd, RawEnd, StringEnd;
    var text := s[i..];
    StartsInSuffix(s, i, "//");
    StartsInSuffix(s, i, "/*");
    StartsInSuffix(s, i, "\"");
    StartsInSuffix(s, i, "b\"");
    StartsChar(s, i, '"');
    if CharLiteralEnd(s, i).Some? {
      LiteralOpens(s, i);
      assert false;
    }
    if RawHashes(s, i).Some? {
      RawOpensHere(s, i);
      assert false;
    }
  }

  lemma LiteralOpens(s: string, i: nat)
    requires i < |s| && CharLiteralEnd(s, i).Some?
    ensures Opens(s[i..])
  {
    hide StartsAt, QuotedEnd, RenderLiteral, GoodLiteral;
    var byte := s[i] == 'b';
    var l := LiteralSeen(s, if byte then i + 1 else i);
    if byte {
      StartsChar(s, i, 'b');
      StartsSplit(s, i, "b", RenderLiteral(l));
    } else {
      assert "" + RenderLiteral(l) == RenderLiteral(l);
    }
    StartsInSuffix(s, i, Prefix(byte) + RenderLiteral(l));
    assert StartsAt(s[i..], 0, Prefix(byte) + RenderLiteral(l));
  }

  lemma RawOpensHere(s: string, i: nat)
    requires i < |s| && RawHashes(s, i).Some?
    ensures Opens(s[i..])
  {
    hide StartsAt, HashRun, Hashes;
    var byte := s[i] == 'b';
    var n := RawHashes(s, i).value;
    var j := RawStart(s, i);
    HashesStart(s, j, n);
    StartsChar(s, j - 1, 'r');
    StartsChar(s, j + n, '"');
    StartsSplit(s, j - 1, "r", Hashes(n));
    StartsSplit(s, j - 1, "r" + Hashes(n), "\"");
    var t := "r" + Hashes(n) + "\"";
    if byte {
      StartsChar(s, i, 'b');
      StartsSplit(s, i, "b", t);
    } else {
      assert "" + t == t;
    }
    StartsInSuffix(s, i, Prefix(byte) + t);
    assert StartsAt(s[i..], 0, Prefix(byte) + t);
  }

  lemma HashesStart(s: string, i: nat, n: nat)
    requires i + n <= |s| && forall k :: i <= k < i + n ==> s[k] == '#'
    ensures |Hashes(n)| == n && StartsAt(s, i, Hashes(n))
  {
    StartsMeans(s, i, Hashes(n));
  }

  /** A token that fits, at its place in a text, is one piece: kept if it is code, blanked if not. */
  lemma TokenIsOnePiece(s: string, i: nat, t: Token, rest: string)
    requires i <= |s| && s[i..] == Render(t) + rest && Fits(t, rest)
    ensures i < |s| && Scan(s, i) == Piece(!t.Code?, i + |Render(t)|)
  {
    hide StartsAt, Scan, RenderString, RenderOpenString, RenderOpenBody, WellFormedOpen, RenderBody, RenderLiteral, PlainsArePlain, WellFormed, GoodLiteral, Opens, Hashes;
    StartsHere(s, i, Render(t), rest);
    HashesLength(if t.RawString? || t.OpenRaw? then t.hashes else 0);
    match t
    case Code(c) => CodeIsOnePiece(s, i);
    case LineComment(text) =>
      assert rest != [] ==> s[i..][2 + |text|] == rest[0];
      LineCommentIsOnePiece(s, i, text);
    case BlockComment(body) => BlockCommentIsOnePiece(s, i, body);
    case CharLiteral(byte, l) => CharLiteralIsOnePiece(s, i, byte, l);
    case StringLiteral(byte, items) =>
      if byte {
        ByteStringIsOnePiece(s, i, items);
      } else {
        assert "" + ("\"" + RenderString(items)) == "\"" + RenderString(items);
        StringIsOnePiece(s, i, items);
      }
    case RawString(byte, n, content) =>
      if byte {
        ByteRawIsOnePiece(s, i, n, content);
      } else {
        var r := "r" + Hashes(n) + "\"" + RawTail(n, content);
        assert "" + r == r;
        RawStringIsOnePiece(s, i, n, content);
      }
    case OpenComment(body) => OpenCommentIsOnePiece(s, i, body);
    case OpenString(byte, items, dangling) => OpenStringIsOnePiece(s, i, byte, items, dangling);
    case OpenRaw(byte, n, content) => OpenRawIsOnePiece(s, i, byte, n, content);
  }

  lemma StartsHere(s: string, i: nat, t: string, rest: string)
    requires i <= |s| && s[i..] == t + rest
    ensures StartsAt(s, i, t) && i + |t| <= |s| && s[i + |t|..] == rest
  {
    assert |s| - i == |t| + |rest|;
    assert s[i..i + |t|] == s[i..][..|t|];
    assert s[i + |t|..] == s[i..][|t|..];
  }

  lemma HashesLength(n: nat)
    ensures |Hashes(n)| == n
  {
  }

  // ---------- the law ----------

  /** What is left of a token list: code as it is, everything else as blanks and newlines. */
  function Cleaned(ts: seq<Token>): string {
    if ts == [] then []
    else (if ts[0].Code? then Render(ts[0]) else Blank(Render(ts[0]))) + Cleaned(ts[1..])
  }

  lemma PieceOfToken(s: string, i: nat, t: Token, rest: string)
    requires i <= |s| && s[i..] == Render(t) + rest && Fits(t, rest)
    ensures i < |s| && i + |Render(t)| <= |s| && s[i + |Render(t)|..] == rest
    ensures SanitizeFrom(s, i) == (if t.Code? then Render(t) else Blank(Render(t))) + SanitizeFrom(s, i + |Render(t)|)
  {
    hide Scan, Render, Fits, Blank, PieceText;
    TokenIsOnePiece(s, i, t, rest);
    StartsHere(s, i, Render(t), rest);
    TextOfPiece(s, i, t);
  }

  lemma TextOfPiece(s: string, i: nat, t: Token)
    requires i < |s| && StartsAt(s, i, Render(t)) && Scan(s, i) == Piece(!t.Code?, i + |Render(t)|)
    ensures PieceText(s, i) == if t.Code? then Render(t) else Blank(Render(t))
  {
    hide Scan, Render, Blank;
    CodeRendersItself(t);
    assert t.Code? ==> s[i..i + 1][0] == s[i];
  }

  lemma {:induction false} TokensAreCleaned(s: string, i: nat, ts: seq<Token>)
    requires i <= |s| && s[i..] == RenderAll(ts) && AllFit(ts)
    ensures SanitizeFrom(s, i) == Cleaned(ts)
    decreases |ts|
  {
    hide SanitizeFrom, Render, Fits, Blank;
    if ts == [] {
      assert i == |s|;
      NothingLeft(s);
    } else {
      PieceOfToken(s, i, ts[0], RenderAll(ts[1..]));
      TokensAreCleaned(s, i + |Render(ts[0])|, ts[1..]);
    }
  }

  lemma NothingLeft(s: string)
    ensures SanitizeFrom(s, |s|) == []
  {
  }

  lemma CodeRendersItself(t: Token)
    ensures t.Code? ==> Render(t) == [t.c]
  {
  }

  /** The sanitiser's law: on any source written from tokens that do not run into each other, it keeps every character of
      code and blanks every comment and every literal, each exactly. */
  lemma SanitizeCleansTokens(ts: seq<Token>)
    requires AllFit(ts)
    ensures Sanitize(RenderAll(ts)) == Cleaned(ts)
  {
    hide AllFit, SanitizeFrom;
    assert RenderAll(ts)[0..] == RenderAll(ts);
    TokensAreCleaned(RenderAll(ts), 0, ts);
  }

  // ---------- every text is tokens ----------

  /** A text and what it starts with, joined again. */
  lemma Joined(s: string, i: nat, e: nat)
    requires i <= e <= |s|
    ensures s[i..] == s[i..e] + s[e..]
  {
  }

  /** The inside of a comment, read off a text: up to its closer, or open to the end. */
  lemma {:induction false} ReadComment(s: string, i: nat) returns (closed: bool, body: Body, rest: OpenBody, e: nat)
    requires i <= |s|
    ensures i <= e <= |s|
    ensures closed ==> WellFormed(body) && s[i..e] == RenderBody(body)
    ensures !closed ==> WellFormedOpen(rest) && e == |s| && s[i..] == RenderOpenBody(rest)
    decreases |s| - i
  {
    hide StartsAt;
    body, rest := Close, TextEnd;
    if i == |s| {
      closed, e := false, i;
    } else if StartsAt(s, i, "*/") {
      closed, e := true, i + 2;
      StartsIs(s, i, "*/");
    } else if StartsAt(s, i, "/*") {
      StartsIs(s, i, "/*");
      var inside, inner, unclosed, m := ReadComment(s, i + 2);
      if inside {
        closed, body, rest, e := ReadComment(s, m);
        Joined(s, i, m);
        assert s[i..m] == "/*" + RenderBody(inner);
        assert closed ==> s[i..e] == s[i..m] + s[m..e];
        if closed { body := Nested(inner, body); } else { rest := Closed(inner, rest); }
      } else {
        closed, e, rest := false, |s|, Deeper(unclosed);
        Joined(s, i, i + 2);
      }
    } else {
      closed, body, rest, e := ReadComment(s, i + 1);
      NoDelimiterHere(s, i);
      assert s[i..] == [s[i]] + s[i + 1..];
      if closed {
        assert s[i..e] == [s[i]] + s[i + 1..e];
        assert RenderBody(body)[0] == s[i + 1..e][0] == s[i + 1];
        body := Text(s[i], body);
      } else {
        assert RenderOpenBody(rest) != [] ==> RenderOpenBody(rest)[0] == s[i + 1..][0] == s[i + 1];
        rest := OpenText(s[i], rest);
      }
    }
  }

  lemma StartsIs(s: string, i: nat, t: string)
    requires StartsAt(s, i, t)
    ensures i + |t| <= |s| && s[i..i + |t|] == t
  {
  }

  lemma NoDelimiterHere(s: string, i: nat)
    requires i < |s| && !StartsAt(s, i, "/*") && !StartsAt(s, i, "*/")
    ensures i + 1 < |s| ==> !(s[i] == '/' && s[i + 1] == '*') && !(s[i] == '*' && s[i + 1] == '/')
  {
    if i + 1 < |s| {
      assert s[i..i + 2] == [s[i], s[i + 1]];
    }
  }

  /** The inside of a string, read off a text: up to its closing quote, or open to the end. */
  lemma {:induction false} ReadString(s: string, i: nat) returns (closed: bool, items: seq<StringItem>, dangling: bool, e: nat)
    requires i <= |s|
    ensures i <= e <= |s| && PlainsArePlain(items)
    ensures closed ==> s[i..e] == RenderString(items)
    ensures !closed ==> e == |s| && s[i..] == RenderOpenString(items, dangling)
    decreases |s| - i
  {
    dangling := false;
    if i == |s| {
      closed, items, e := false, [], i;
    } else if s[i] == '"' {
      closed, items, e := true, [], i + 1;
    } else if s[i] == '\\' && i + 1 == |s| {
      closed, items, dangling, e := false, [], true, |s|;
    } else {
      var item := if s[i] == '\\' then Escaped(s[i + 1]) else Plain(s[i]);
      var m := if s[i] == '\\' then i + 2 else i + 1;
      var more;
      closed, more, dangling, e := ReadString(s, m);
      items := [item] + more;
      assert items[1..] == more;
      Joined(s, i, m);
      if closed {
        assert s[i..e] == s[i..m] + s[m..e];
      }
    }
  }

  /** The inside of a raw string, read off a text: up to the first quote with enough hashes, or open to the end. */
  lemma {:induction false} ReadRaw(s: string, i: nat, n: nat) returns (closed: bool, content: string, e: nat)
    requires i <= |s|
    ensures i <= e <= |s|
    ensures closed ==> s[i..e] == RawTail(n, content) && forall k :: 0 <= k < |content| ==> !StartsAt(RawTail(n, content), k, "\"" + Hashes(n))
    ensures !closed ==> e == |s| && s[i..] == content && forall k :: 0 <= k < |content| ==> !StartsAt(content, k, "\"" + Hashes(n))
    decreases |s| - i
  {
    hide StartsAt;
    var closing := "\"" + Hashes(n);
    if i == |s| {
      closed, content, e := false, [], i;
    } else if StartsAt(s, i, closing) {
      StartsIs(s, i, closing);
      closed, content, e := true, [], i + |closing|;
      assert RawTail(n, []) == closing;
    } else {
      var more;
      closed, more, e := ReadRaw(s, i + 1, n);
      content := [s[i]] + more;
      assert s[i..e] == [s[i]] + s[i + 1..e];
      var was := s[i + 1..e];
      if closed {
        RawTailGrows(n, s[i], more);
      } else {
        assert s[i + 1..] == was && s[i..] == s[i..e];
      }
      StartsWithin(s, i, e, closing);
      NoneAfterAll(s[i], was, |more|, closing);
    }
  }

  lemma RawTailGrows(n: nat, c: char, content: string)
    ensures RawTail(n, [c] + content) == [c] + RawTail(n, content)
  {
  }

  lemma NoneAfterAll(c: char, was: string, len: nat, closing: string)
    requires !StartsAt([c] + was, 0, closing) && len <= |was| && forall k :: 0 <= k < len ==> !StartsAt(was, k, closing)
    ensures forall k :: 0 <= k < len + 1 ==> !StartsAt([c] + was, k, closing)
  {
    hide StartsAt;
    forall k | 0 <= k < len + 1 ensures !StartsAt([c] + was, k, closing) {
      if k > 0 {
        StartsInSuffix([c] + was, k, closing);
        StartsInSuffix(was, k - 1, closing);
        assert ([c] + was)[k..] == was[k - 1..];
      }
    }
  }

  lemma StartsWithin(s: string, i: nat, e: nat, t: string)
    requires i <= e <= |s| && !StartsAt(s, i, t)
    ensures !StartsAt(s[i..e], 0, t)
  {
    if |t| <= e - i {
      assert s[i..e][..|t|] == s[i..i + |t|];
    }
  }

  /** A token stands at a position of a text, and what follows it does not spoil it. */
  ghost predicate StandsAt(s: string, i: nat, t: Token, e: nat) {
    i < e <= |s| && s[i..] == Render(t) + s[e..] && Fits(t, s[e..])
  }

  lemma ReadLineComment(s: string, i: nat) returns (t: Token, e: nat)
    requires i <= |s| && StartsAt(s, i, "//")
    ensures StandsAt(s, i, t, e)
  {
    hide StartsAt, LineEnd;
    StartsIs(s, i, "//");
    e := LineEnd(s, i + 2);
    t := LineComment(s[i + 2..e]);
    Joined(s, i, e);
    assert s[i..e] == s[i..i + 2] + s[i + 2..e];
    assert forall k :: 0 <= k < |t.text| ==> t.text[k] == s[i + 2 + k];
    assert s[e..] != [] ==> s[e..][0] == s[e];
  }

  lemma ReadBlockComment(s: string, i: nat) returns (t: Token, e: nat)
    requires i <= |s| && StartsAt(s, i, "/*")
    ensures StandsAt(s, i, t, e)
  {
    hide StartsAt, WellFormed, WellFormedOpen, RenderBody, RenderOpenBody;
    StartsIs(s, i, "/*");
    var closed, body, rest;
    closed, body, rest, e := ReadComment(s, i + 2);
    Joined(s, i, e);
    assert s[i..e] == s[i..i + 2] + s[i + 2..e];
    if closed {
      t := BlockComment(body);
    } else {
      assert s[i + 2..e] == s[i + 2..] && s[e..] == [];
      t := OpenComment(rest);
    }
  }

  lemma StandsByParts(s: string, i: nat, m: nat, e: nat, t: Token)
    requires i < m <= e <= |s| && Render(t) == s[i..m] + s[m..e] && Fits(t, s[e..])
    ensures StandsAt(s, i, t, e)
  {
    hide Render, Fits;
    Joined(s, i, e);
    assert s[i..e] == s[i..m] + s[m..e];
  }

  lemma StringFits(byte: bool, items: seq<StringItem>, dangling: bool)
    requires PlainsArePlain(items)
    ensures forall rest :: Fits(StringLiteral(byte, items), rest)
    ensures Fits(OpenString(byte, items, dangling), [])
    ensures Render(StringLiteral(byte, items)) == Prefix(byte) + "\"" + RenderString(items)
    ensures Render(OpenString(byte, items, dangling)) == Prefix(byte) + "\"" + RenderOpenString(items, dangling)
  {
    hide PlainsArePlain, Prefix, RenderString, RenderOpenString;
    Regrouped(Prefix(byte), "\"", RenderString(items));
    Regrouped(Prefix(byte), "\"", RenderOpenString(items, dangling));
  }

  lemma ReadStringToken(s: string, i: nat, byte: bool) returns (t: Token, e: nat)
    requires i <= |s| && StartsAt(s, i, Prefix(byte) + "\"")
    ensures StandsAt(s, i, t, e)
  {
    hide StartsAt, RenderString, RenderOpenString, PlainsArePlain, Render, Fits, StandsAt, Prefix;
    var m := i + |Prefix(byte) + "\""|;
    StartsIs(s, i, Prefix(byte) + "\"");
    var closed, items, dangling;
    closed, items, dangling, e := ReadString(s, m);
    StringFits(byte, items, dangling);
    if closed {
      t := StringLiteral(byte, items);
    } else {
      assert s[m..e] == s[m..] && s[e..] == [];
      t := OpenString(byte, items, dangling);
    }
    StandsByParts(s, i, m, e, t);
  }

  lemma RawFits(byte: bool, n: nat, content: string)
    requires n <= 255
    ensures (forall k :: 0 <= k < |content| ==> !StartsAt(RawTail(n, content), k, "\"" + Hashes(n))) ==>
      forall rest :: Fits(RawString(byte, n, content), rest)
    ensures (forall k :: 0 <= k < |content| ==> !StartsAt(content, k, "\"" + Hashes(n))) ==> Fits(OpenRaw(byte, n, content), [])
  {
    hide StartsAt, Hashes, RawTail;
  }

  lemma RawRenders(byte: bool, n: nat, content: string)
    ensures
      var opening := Prefix(byte) + ("r" + Hashes(n) + "\"");
      Render(RawString(byte, n, content)) == opening + RawTail(n, content) && Render(OpenRaw(byte, n, content)) == opening + content
  {
    hide RawTail, Hashes, Prefix;
    Regrouped(Prefix(byte), "r" + Hashes(n) + "\"", RawTail(n, content));
    Regrouped(Prefix(byte), "r" + Hashes(n) + "\"", content);
  }

  lemma Regrouped(a: string, b: string, c: string)
    ensures a + (b + c) == a + b + c
  {
  }

  lemma ReadRawToken(s: string, i: nat, byte: bool, n: nat) returns (t: Token, e: nat)
    requires i <= |s| && n <= 255 && StartsAt(s, i, Prefix(byte) + ("r" + Hashes(n) + "\""))
    ensures StandsAt(s, i, t, e)
  {
    hide StartsAt, Hashes, RawTail, Render, Fits, StandsAt, Prefix;
    var m := i + |Prefix(byte) + ("r" + Hashes(n) + "\"")|;
    StartsIs(s, i, Prefix(byte) + ("r" + Hashes(n) + "\""));
    var closed, content;
    closed, content, e := ReadRaw(s, m, n);
    RawFits(byte, n, content);
    RawRenders(byte, n, content);
    if closed {
      t := RawString(byte, n, content);
    } else {
      assert s[m..e] == s[m..] && s[e..] == [];
      t := OpenRaw(byte, n, content);
    }
    StandsByParts(s, i, m, e, t);
  }

  lemma ReadLiteral(s: string, i: nat, byte: bool, l: Literal) returns (t: Token, e: nat)
    requires i <= |s| && GoodLiteral(l) && StartsAt(s, i, Prefix(byte) + RenderLiteral(l))
    ensures StandsAt(s, i, t, e)
  {
    hide StartsAt, GoodLiteral, RenderLiteral;
    t := CharLiteral(byte, l);
    StartsIs(s, i, Render(t));
    e := i + |Render(t)|;
    Joined(s, i, e);
  }

  /** Some token stands at every position. */
  lemma ReadToken(s: string, i: nat) returns (t: Token, e: nat)
    requires i < |s|
    ensures StandsAt(s, i, t, e)
  {
    hide StartsAt, Hashes, GoodLiteral, RenderLiteral, StandsAt;
    var text := s[i..];
    StartsInSuffix(s, i, "//");
    StartsInSuffix(s, i, "/*");
    StartsInSuffix(s, i, "\"");
    StartsInSuffix(s, i, "b\"");
    if !Opens(text) {
      t, e := Code(s[i]), i + 1;
      CodeStands(s, i);
    } else if StartsAt(s, i, "//") {
      t, e := ReadLineComment(s, i);
    } else if StartsAt(s, i, "/*") {
      t, e := ReadBlockComment(s, i);
    } else if StartsAt(s, i, "\"") {
      assert "" + "\"" == "\"";
      t, e := ReadStringToken(s, i, false);
    } else if StartsAt(s, i, "b\"") {
      assert "b" + "\"" == "b\"";
      t, e := ReadStringToken(s, i, true);
    } else if byte, n :| 0 <= n <= 255 && StartsAt(text, 0, Prefix(byte) + ("r" + Hashes(n) + "\"")) {
      StartsInSuffix(s, i, Prefix(byte) + ("r" + Hashes(n) + "\""));
      t, e := ReadRawToken(s, i, byte, n);
    } else {
      var byte, l :| GoodLiteral(l) && StartsAt(text, 0, Prefix(byte) + RenderLiteral(l));
      StartsInSuffix(s, i, Prefix(byte) + RenderLiteral(l));
      t, e := ReadLiteral(s, i, byte, l);
    }
  }

  lemma CodeStands(s: string, i: nat)
    requires i < |s| && !Opens(s[i..])
    ensures StandsAt(s, i, Code(s[i]), i + 1)
  {
    hide Opens;
    assert s[i..] == [s[i]] + s[i + 1..];
  }

  /** Every text whatsoever is written from tokens that do not run into each other. */
  lemma {:induction false} EveryTextIsTokens(s: string, i: nat) returns (ts: seq<Token>)
    requires i <= |s|
    ensures AllFit(ts) && RenderAll(ts) == s[i..]
    decreases |s| - i
  {
    hide Fits, Render;
    if i == |s| {
      ts := [];
    } else {
      var t, e := ReadToken(s, i);
      var more := EveryTextIsTokens(s, e);
      ts := [t] + more;
      assert ts[1..] == more;
    }
  }

  /** So the law speaks of every source: each is a list of tokens, and its sanitised form keeps the code among them and
      blanks the rest. */
  lemma EverySourceIsCleaned(s: string) returns (ts: seq<Token>)
    ensures AllFit(ts) && RenderAll(ts) == s && Sanitize(s) == Cleaned(ts)
  {
    hide AllFit, RenderAll, Sanitize, Cleaned;
    ts := EveryTextIsTokens(s, 0);
    assert s[0..] == s;
    SanitizeCleansTokens(ts);
  }
}
