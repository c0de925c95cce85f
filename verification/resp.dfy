/** The Redis wire protocol as the benchmark speaks it: commands out, replies in. */
module Resp {
  import opened Options

  type Byte = b: int | 0 <= b < 256
  type Bytes = seq<Byte>

  const CR: Byte := 13
  const LF: Byte := 10
  const CRLF: Bytes := [CR, LF]
  const STAR: Byte := 42
  const DOLLAR: Byte := 36
  const PLUS: Byte := 43
  const MINUS: Byte := 45
  const COLON: Byte := 58
  const UNDERSCORE: Byte := 95

  // ---------- numbers ----------

  function Digit(n: nat): Byte
    requires n < 10
  {
    48 + n
  }

  predicate IsDigit(b: Byte) {
    48 <= b <= 57
  }

  function Decimal(n: nat): (t: Bytes)
    ensures t != [] && forall i :: 0 <= i < |t| ==> IsDigit(t[i])
  {
    if n < 10 then [Digit(n)] else Decimal(n / 10) + [Digit(n % 10)]
  }

  /** Digits, with single underscores allowed between them. */
  function ParseDigits(t: Bytes): Option<nat>
    decreases |t|
  {
    if t == [] || !IsDigit(t[|t| - 1]) then None
    else
      var d := t[|t| - 1] - 48;
      if |t| == 1 then Some(d)
      else
        var front := t[..|t| - 1];
        match ParseDigits(if front[|front| - 1] == UNDERSCORE then front[..|front| - 1] else front)
        case Some(n) => Some(10 * n + d)
        case None => None
  }

  predicate IsSpaceByte(b: Byte) {
    b == 32 || 9 <= b <= 13
  }

  function StripLeft(t: Bytes): (u: Bytes)
    ensures |u| <= |t|
  {
    if t != [] && IsSpaceByte(t[0]) then StripLeft(t[1..]) else t
  }

  function StripRight(t: Bytes): (u: Bytes)
    ensures |u| <= |t|
  {
    if t != [] && IsSpaceByte(t[|t| - 1]) then StripRight(t[..|t| - 1]) else t
  }

  /** A number as the reader accepts it: surrounding space, a sign, digits. */
  function ParseInt(t: Bytes): Option<int> {
    var u := StripRight(StripLeft(t));
    if u != [] && u[0] == MINUS then
      match ParseDigits(u[1..]) { case Some(n) => Some(0 - n as int) case None => None }
    else
      match ParseDigits(if u != [] && u[0] == PLUS then u[1..] else u) { case Some(n) => Some(n) case None => None }
  }

  lemma {:induction false} DecimalParses(n: nat)
    ensures ParseDigits(Decimal(n)) == Some(n)
    decreases n
  {
    if n >= 10 {
      DecimalParses(n / 10);
      var t := Decimal(n);
      assert t[..|t| - 1] == Decimal(n / 10);
      assert Decimal(n / 10)[|Decimal(n / 10)| - 1] != UNDERSCORE;
    }
  }

  lemma DecimalIsInt(n: nat)
    ensures ParseInt(Decimal(n)) == Some(n)
  {
    DecimalParses(n);
    var t := Decimal(n);
    assert IsDigit(t[0]) && IsDigit(t[|t| - 1]);
    assert StripLeft(t) == t && StripRight(t) == t;
  }

  // ---------- reading ----------

  datatype Value = Text(bytes: Bytes) | Integer(n: int) | Nil | List(items: seq<Value>)

  datatype RespError = Closed | Malformed | Reply(message: Bytes) | NotText

  /** A value or an error, and what is left in the stream. */
  datatype Outcome<T> = Got(value: T, rest: Bytes) | Fail(error: RespError, rest: Bytes)

  /** What the caller sees of an outcome: the value, or the error raised. */
  function AsResult<T>(o: Outcome<T>): Result<T, RespError> {
    match o
    case Got(v, _) => Ok(v)
    case Fail(e, _) => Err(e)
  }

  /** The length of the next line, its newline included. */
  function LineLength(s: Bytes): (n: nat)
    ensures n <= |s| && (s != [] ==> n > 0)
    ensures forall k :: 0 <= k < n - 1 ==> s[k] != LF
    ensures n < |s| ==> n > 0 && s[n - 1] == LF
  {
    if s == [] then 0 else if s[0] == LF then 1 else 1 + LineLength(s[1..])
  }

  function ReadLine(s: Bytes): (r: Outcome<Bytes>)
    ensures |r.rest| <= |s| && (r.Got? ==> |r.rest| < |s|)
  {
    var n := LineLength(s);
    if n == 0 then Fail(Closed, s)
    else if n < 2 || s[n - 1] != LF || s[n - 2] != CR then Fail(Malformed, s[n..])
    else Got(s[..n - 2], s[n..])
  }

  /** A line holding a number. */
  function ReadNumber(s: Bytes): (r: Outcome<int>)
    ensures |r.rest| <= |s| && (r.Got? ==> |r.rest| < |s|)
  {
    match ReadLine(s)
    case Fail(e, rest) => Fail(e, rest)
    case Got(line, rest) =>
      match ParseInt(line)
      case Some(n) => Got(n, rest)
      case None => Fail(Malformed, rest)
  }

  function Min(a: nat, b: nat): nat { if a < b then a else b }

  /** What a read of `n` bytes takes: fewer only at the end of the stream. */
  function Available(s: Bytes, n: nat): nat {
    Min(n, |s|)
  }

  function ReadBulk(utf8: Bytes -> bool, s: Bytes, length: int): (r: Outcome<Value>)
    ensures |r.rest| <= |s|
  {
    if length < 0 then Fail(Malformed, s)
    else
      var n := Available(s, length);
      var m := Available(s[n..], 2);
      var rest := s[n + m..];
      if n != length || s[n..n + m] != CRLF then Fail(Malformed, rest)
      else if utf8(s[..n]) then Got(Text(s[..n]), rest) else Fail(NotText, rest)
  }

  /** One reply. `utf8` tells the byte strings that decode as text. */
  function ReadResp(utf8: Bytes -> bool, s: Bytes): (r: Outcome<Value>)
    ensures |r.rest| <= |s| && (r.Got? ==> |r.rest| < |s|)
    decreases |s|, 0
  {
    if s == [] then Fail(Closed, s)
    else if s[0] == PLUS then
      match ReadLine(s[1..])
      case Fail(e, rest) => Fail(e, rest)
      case Got(line, rest) => if utf8(line) then Got(Text(line), rest) else Fail(NotText, rest)
    else if s[0] == MINUS then
      match ReadLine(s[1..])
      case Fail(e, rest) => Fail(e, rest)
      case Got(line, rest) => Fail(if utf8(line) then Reply(line) else NotText, rest)
    else if s[0] == COLON then
      match ReadNumber(s[1..])
      case Fail(e, rest) => Fail(e, rest)
      case Got(n, rest) => Got(Integer(n), rest)
    else if s[0] == DOLLAR then
      match ReadNumber(s[1..])
      case Fail(e, rest) => Fail(e, rest)
      case Got(n, rest) => if n == -1 then Got(Nil, rest) else ReadBulk(utf8, rest, n)
    else if s[0] == STAR then
      match ReadNumber(s[1..])
      case Fail(e, rest) => Fail(e, rest)
      case Got(n, rest) =>
        if n == -1 then Got(Nil, rest)
        else match ReadItems(utf8, rest, n)
          case Got(items, end) => Got(List(items), end)
          case Fail(e, end) => Fail(e, end)
    else Fail(Malformed, s[1..])
  }

  /** `n` replies, one after the other; none for a negative count. */
  function ReadItems(utf8: Bytes -> bool, s: Bytes, n: int): (r: Outcome<seq<Value>>)
    ensures |r.rest| <= |s|
    decreases |s|, 1
  {
    if n <= 0 then Got([], s)
    else match ReadResp(utf8, s)
      case Fail(e, rest) => Fail(e, rest)
      case Got(v, rest) =>
        match ReadItems(utf8, rest, n - 1)
        case Got(items, end) => Got([v] + items, end)
        case Fail(e, end) => Fail(e, end)
  }

  // ---------- a reply is a prefix of its stream ----------

  lemma {:induction false} LineExtends(s: Bytes, t: Bytes)
    requires ReadLine(s).Got?
    ensures ReadLine(s + t) == Got(ReadLine(s).value, ReadLine(s).rest + t)
  {
    var n := LineLength(s);
    LineLengthIs(s + t, n);
    assert (s + t)[..n - 2] == s[..n - 2] && (s + t)[n..] == s[n..] + t;
  }

  lemma {:induction false} LineLengthIs(s: Bytes, n: nat)
    requires 0 < n <= |s| && s[n - 1] == LF && forall k :: 0 <= k < n - 1 ==> s[k] != LF
    ensures LineLength(s) == n
    decreases n
  {
    if n > 1 {
      LineLengthIs(s[1..], n - 1);
    }
  }

  lemma NumberExtends(s: Bytes, t: Bytes)
    requires ReadNumber(s).Got?
    ensures ReadNumber(s + t) == Got(ReadNumber(s).value, ReadNumber(s).rest + t)
  {
    hide ReadLine, ParseInt;
    LineExtends(s, t);
  }

  lemma BulkExtends(utf8: Bytes -> bool, s: Bytes, length: int, t: Bytes)
    requires ReadBulk(utf8, s, length).Got?
    ensures ReadBulk(utf8, s + t, length) == Got(ReadBulk(utf8, s, length).value, ReadBulk(utf8, s, length).rest + t)
  {
    var n := length;
    assert |s[n..n + Available(s[n..], 2)]| == 2;
    assert (s + t)[..n] == s[..n] && (s + t)[n..n + 2] == s[n..n + 2] && (s + t)[n + 2..] == s[n + 2..] + t;
  }

  /** More bytes behind a complete reply change nothing but what is left. */
  lemma {:induction false} ReplyExtends(utf8: Bytes -> bool, s: Bytes, t: Bytes)
    requires ReadResp(utf8, s).Got?
    ensures ReadResp(utf8, s + t) == Got(ReadResp(utf8, s).value, ReadResp(utf8, s).rest + t)
    decreases |s|, 0
  {
    hide ReadLine, ReadNumber, ReadBulk;
    assert (s + t)[0] == s[0] && (s + t)[1..] == s[1..] + t;
    if s[0] == PLUS {
      LineExtends(s[1..], t);
    } else {
      NumberExtends(s[1..], t);
      var n, rest := ReadNumber(s[1..]).value, ReadNumber(s[1..]).rest;
      if n != -1 {
        if s[0] == DOLLAR {
          BulkExtends(utf8, rest, n, t);
        } else if s[0] == STAR {
          ItemsExtend(utf8, rest, n, t);
        }
      }
    }
  }

  lemma {:induction false} ItemsExtend(utf8: Bytes -> bool, s: Bytes, n: int, t: Bytes)
    requires ReadItems(utf8, s, n).Got?
    ensures ReadItems(utf8, s + t, n) == Got(ReadItems(utf8, s, n).value, ReadItems(utf8, s, n).rest + t)
    decreases |s|, 1
  {
    hide ReadResp;
    if n > 0 {
      ReplyExtends(utf8, s, t);
      ItemsExtend(utf8, ReadResp(utf8, s).rest, n - 1, t);
    }
  }

  // ---------- writing ----------

  function EncodePart(p: Bytes): Bytes {
    [DOLLAR] + Decimal(|p|) + CRLF + p + CRLF
  }

  function EncodeParts(parts: seq<Bytes>): Bytes {
    if parts == [] then [] else EncodePart(parts[0]) + EncodeParts(parts[1..])
  }

  function EncodeCommand(parts: seq<Bytes>): Bytes {
    [STAR] + Decimal(|parts|) + CRLF + EncodeParts(parts)
  }

  function Texts(parts: seq<Bytes>): seq<Value> {
    if parts == [] then [] else [Text(parts[0])] + Texts(parts[1..])
  }

  /** Build the frame one part at a time. */
  method WriteCommand(parts: seq<Bytes>) returns (frame: Bytes)
    ensures frame == EncodeCommand(parts)
  {
    var header := [STAR] + Decimal(|parts|) + CRLF;
    frame := header;
    for i := 0 to |parts|
      invariant frame + EncodeParts(parts[i..]) == EncodeCommand(parts)
    {
      var part := parts[i];
      assert parts[i..][0] == part && parts[i..][1..] == parts[i + 1..];
      ghost var before := frame;
      frame := frame + [DOLLAR] + Decimal(|part|) + CRLF;
      frame := frame + part;
      frame := frame + CRLF;
      assert frame == before + EncodePart(part);
    }
    assert parts[|parts|..] == [];
  }

  // ---------- round trips ----------

  lemma HeaderReads(n: nat, t: Bytes)
    ensures ReadNumber(Decimal(n) + CRLF + t) == Got(n as int, t)
  {
    var d := Decimal(n);
    var s := d + CRLF + t;
    var k := |d| + 2;
    assert s[k - 1] == LF && s[k - 2] == CR;
    LineLengthIs(s, k);
    assert s[..k - 2] == d && s[k..] == t;
    DecimalIsInt(n);
  }

  lemma PartReads(utf8: Bytes -> bool, p: Bytes, t: Bytes)
    requires utf8(p)
    ensures ReadResp(utf8, EncodePart(p) + t) == Got(Text(p), t)
  {
    hide ReadNumber, Decimal;
    var s := EncodePart(p) + t;
    var body := p + CRLF + t;
    assert s[1..] == Decimal(|p|) + CRLF + body;
    HeaderReads(|p|, body);
    assert body[..|p|] == p && body[|p|..|p| + 2] == CRLF && body[|p| + 2..] == t;
  }

  lemma {:induction false} PartsRead(utf8: Bytes -> bool, parts: seq<Bytes>, t: Bytes)
    requires forall i :: 0 <= i < |parts| ==> utf8(parts[i])
    ensures ReadItems(utf8, EncodeParts(parts) + t, |parts|) == Got(Texts(parts), t)
    decreases |parts|
  {
    hide ReadResp, EncodePart;
    if parts == [] {
      assert EncodeParts(parts) + t == t;
    } else {
      var rest := EncodeParts(parts[1..]) + t;
      assert EncodeParts(parts) + t == EncodePart(parts[0]) + rest;
      PartReads(utf8, parts[0], rest);
      PartsRead(utf8, parts[1..], t);
    }
  }

  /** Reading an encoded command gives back its parts and leaves exactly what follows, whatever bytes the parts hold. */
  lemma CommandRoundTrip(utf8: Bytes -> bool, parts: seq<Bytes>, t: Bytes)
    requires forall i :: 0 <= i < |parts| ==> utf8(parts[i])
    ensures ReadResp(utf8, EncodeCommand(parts) + t) == Got(List(Texts(parts)), t)
  {
    hide ReadNumber, ReadItems, Decimal, EncodeParts, Texts;
    var s := EncodeCommand(parts) + t;
    var body := EncodeParts(parts) + t;
    assert s[1..] == Decimal(|parts|) + CRLF + body;
    HeaderReads(|parts|, body);
    PartsRead(utf8, parts, t);
  }

  /** The parts read back are the parts written: the encoding loses nothing. */
  lemma {:induction false} TextsAreParts(parts: seq<Bytes>)
    ensures |Texts(parts)| == |parts| && forall i :: 0 <= i < |parts| ==> Texts(parts)[i] == Text(parts[i])
    decreases |parts|
  {
    if parts != [] {
      TextsAreParts(parts[1..]);
    }
  }

  /** A command cut short anywhere is never taken for a complete one. */
  lemma TruncatedCommandFails(utf8: Bytes -> bool, parts: seq<Bytes>, n: nat)
    requires forall i :: 0 <= i < |parts| ==> utf8(parts[i])
    requires n < |EncodeCommand(parts)|
    ensures ReadResp(utf8, EncodeCommand(parts)[..n]).Fail?
  {
    hide ReadResp, EncodeCommand;
    var whole := EncodeCommand(parts);
    var head, tail := whole[..n], whole[n..];
    assert head + tail == whole && whole + [] == whole;
    CommandRoundTrip(utf8, parts, []);
    if ReadResp(utf8, head).Got? {
      ReplyExtends(utf8, head, tail);
      assert false;
    }
  }

  /** Commands written one after another. */
  function EncodeAll(commands: seq<seq<Bytes>>): Bytes {
    if commands == [] then [] else EncodeCommand(commands[0]) + EncodeAll(commands[1..])
  }

  function Lists(commands: seq<seq<Bytes>>): seq<Value> {
    if commands == [] then [] else [List(Texts(commands[0]))] + Lists(commands[1..])
  }

  /** A stream of commands decodes one by one. */
  lemma {:induction false} StreamDecodesOneByOne(utf8: Bytes -> bool, commands: seq<seq<Bytes>>, t: Bytes)
    requires forall i, j :: 0 <= i < |commands| && 0 <= j < |commands[i]| ==> utf8(commands[i][j])
    ensures ReadItems(utf8, EncodeAll(commands) + t, |commands|) == Got(Lists(commands), t)
    decreases |commands|
  {
    hide ReadResp, EncodeCommand, Texts;
    if commands == [] {
      assert EncodeAll(commands) + t == t;
    } else {
      var rest := EncodeAll(commands[1..]) + t;
      assert EncodeAll(commands) + t == EncodeCommand(commands[0]) + rest;
      CommandRoundTrip(utf8, commands[0], rest);
      StreamDecodesOneByOne(utf8, commands[1..], t);
    }
  }

  // ---------- every reply a server can send ----------

  /** A reply as the server writes it. */
  datatype Wire =
    | Simple(line: Bytes)
    | Error(line: Bytes)
    | Number(n: int)
    | Bulk(bytes: Bytes)
    | NullBulk
    | NullArray
    | Array(items: seq<Wire>)

  function RenderInt(n: int): Bytes {
    if n < 0 then [MINUS] + Decimal(-n) else Decimal(n)
  }

  function Render(w: Wire): Bytes {
    match w
    case Simple(line) => [PLUS] + line + CRLF
    case Error(line) => [MINUS] + line + CRLF
    case Number(n) => [COLON] + RenderInt(n) + CRLF
    case Bulk(bytes) => EncodePart(bytes)
    case NullBulk => [DOLLAR] + RenderInt(-1) + CRLF
    case NullArray => [STAR] + RenderInt(-1) + CRLF
    case Array(items) => [STAR] + Decimal(|items|) + CRLF + RenderAll(items)
  }

  function RenderAll(ws: seq<Wire>): Bytes {
    if ws == [] then [] else Render(ws[0]) + RenderAll(ws[1..])
  }

  /** Lines hold no newline, texts decode, and no error is among the items. */
  predicate Plain(utf8: Bytes -> bool, w: Wire) {
    match w
    case Simple(line) => LF !in line && utf8(line)
    case Error(_) => false
    case Bulk(bytes) => utf8(bytes)
    case Array(items) => AllPlain(utf8, items)
    case _ => true
  }

  predicate AllPlain(utf8: Bytes -> bool, ws: seq<Wire>) {
    ws == [] || (Plain(utf8, ws[0]) && AllPlain(utf8, ws[1..]))
  }

  function ValueOf(w: Wire): Value {
    match w
    case Simple(line) => Text(line)
    case Error(line) => Text(line)
    case Number(n) => Integer(n)
    case Bulk(bytes) => Text(bytes)
    case NullBulk => Nil
    case NullArray => Nil
    case Array(items) => List(ValuesOf(items))
  }

  function ValuesOf(ws: seq<Wire>): seq<Value> {
    if ws == [] then [] else [ValueOf(ws[0])] + ValuesOf(ws[1..])
  }

  lemma LineReads(line: Bytes, t: Bytes)
    requires LF !in line
    ensures ReadLine(line + CRLF + t) == Got(line, t)
  {
    var s, k := line + CRLF + t, |line| + 2;
    assert s[k - 1] == LF && s[k - 2] == CR;
    LineLengthIs(s, k);
    assert s[..k - 2] == line && s[k..] == t;
  }

  lemma RenderedIntParses(n: int)
    ensures ParseInt(RenderInt(n)) == Some(n) && LF !in RenderInt(n)
  {
    if n >= 0 {
      DecimalIsInt(n);
    } else {
      var d := Decimal(-n);
      var u := [MINUS] + d;
      DecimalParses(-n);
      assert IsDigit(d[|d| - 1]) && u[|u| - 1] == d[|d| - 1];
      assert StripLeft(u) == u && StripRight(u) == u;
      assert u[1..] == d;
    }
  }

  lemma NumberReads(n: int, t: Bytes)
    ensures ReadNumber(RenderInt(n) + CRLF + t) == Got(n, t)
  {
    hide ParseInt, ReadLine, RenderInt;
    RenderedIntParses(n);
    LineReads(RenderInt(n), t);
  }

  /** Replies of any shape and depth are read back as what they mean, and nothing behind them is touched. */
  lemma {:induction false} ReplyRoundTrip(utf8: Bytes -> bool, w: Wire, t: Bytes)
    requires Plain(utf8, w)
    ensures ReadResp(utf8, Render(w) + t) == Got(ValueOf(w), t)
    decreases w, 0
  {
    hide ReadLine, ReadNumber, ReadBulk, RenderInt, Decimal, EncodePart, ReadItems;
    var s := Render(w) + t;
    match w
    case Simple(line) =>
      assert s[1..] == line + CRLF + t;
      LineReads(line, t);
    case Number(n) =>
      assert s[1..] == RenderInt(n) + CRLF + t;
      NumberReads(n, t);
    case Bulk(bytes) => PartReads(utf8, bytes, t);
    case NullBulk =>
      assert s[1..] == RenderInt(-1) + CRLF + t;
      NumberReads(-1, t);
    case NullArray =>
      assert s[1..] == RenderInt(-1) + CRLF + t;
      NumberReads(-1, t);
    case Array(items) =>
      assert s[1..] == Decimal(|items|) + CRLF + (RenderAll(items) + t);
      HeaderReads(|items|, RenderAll(items) + t);
      RepliesRoundTrip(utf8, items, t);
  }

  lemma {:induction false} RepliesRoundTrip(utf8: Bytes -> bool, ws: seq<Wire>, t: Bytes)
    requires AllPlain(utf8, ws)
    ensures ReadItems(utf8, RenderAll(ws) + t, |ws|) == Got(ValuesOf(ws), t)
    decreases ws, 1
  {
    hide ReadResp, Render, ValueOf, Plain;
    if ws == [] {
      assert RenderAll(ws) + t == t;
    } else {
      var rest := RenderAll(ws[1..]) + t;
      assert RenderAll(ws) + t == Render(ws[0]) + rest;
      ReplyRoundTrip(utf8, ws[0], rest);
      RepliesRoundTrip(utf8, ws[1..], t);
    }
  }

  /** An error reply is raised, never returned. */
  lemma ErrorIsRaised(utf8: Bytes -> bool, line: Bytes, t: Bytes)
    requires LF !in line && utf8(line)
    ensures ReadResp(utf8, Render(Error(line)) + t) == Fail(Reply(line), t)
  {
    hide ReadLine;
    var s := Render(Error(line)) + t;
    assert s[1..] == line + CRLF + t;
    LineReads(line, t);
  }

  /** Items up to an error are read, the error is raised, and the items behind it are left in the stream. */
  lemma {:induction false} ItemsStopAtError(utf8: Bytes -> bool, before: seq<Wire>, line: Bytes, n: int, t: Bytes)
    requires AllPlain(utf8, before) && LF !in line && utf8(line) && n > |before|
    ensures ReadItems(utf8, RenderAll(before) + Render(Error(line)) + t, n) == Fail(Reply(line), t)
    decreases |before|
  {
    hide ReadResp, Render, Plain;
    if before == [] {
      assert RenderAll(before) + Render(Error(line)) + t == Render(Error(line)) + t;
      ErrorIsRaised(utf8, line, t);
    } else {
      var rest := RenderAll(before[1..]) + Render(Error(line)) + t;
      assert RenderAll(before) + Render(Error(line)) + t == Render(before[0]) + rest;
      ReplyRoundTrip(utf8, before[0], rest);
      ItemsStopAtError(utf8, before[1..], line, n - 1, t);
    }
  }

  // ---------- refusals ----------

  /** A line that does not end in CR LF is consumed up to its newline, or to the end of the stream, and refused. */
  lemma BadLineIsRefused(line: Bytes, t: Bytes)
    requires LF !in line
    ensures (line == [] || line[|line| - 1] != CR) ==> ReadLine(line + [LF] + t) == Fail(Malformed, t)
    ensures line != [] ==> ReadLine(line) == Fail(Malformed, [])
    ensures ReadLine([]) == Fail(Closed, [])
  {
    var s := line + [LF] + t;
    LineLengthIs(s, |line| + 1);
    assert s[|line|..] == [LF] + t && s[|line| + 1..] == t;
    if line != [] {
      LineWithoutEnd(line);
      assert s[|line| - 1] == line[|line| - 1];
    }
  }

  lemma {:induction false} LineWithoutEnd(s: Bytes)
    requires LF !in s
    ensures LineLength(s) == |s|
    decreases |s|
  {
    if s != [] {
      LineWithoutEnd(s[1..]);
    }
  }

  /** What a bulk header promises but the stream does not keep is refused: a length below -1 at once, bytes cut short or
      without their terminator after they are consumed, and bytes that are no text. */
  lemma BadBulkIsRefused(utf8: Bytes -> bool, n: int, body: Bytes, end: Bytes, t: Bytes)
    ensures n < -1 ==> ReadResp(utf8, [DOLLAR] + RenderInt(n) + CRLF + t) == Fail(Malformed, t)
    ensures n > |body| ==> ReadResp(utf8, [DOLLAR] + RenderInt(n) + CRLF + body) == Fail(Malformed, [])
    ensures n == |body| && |end| == 2 && end != CRLF ==>
      ReadResp(utf8, [DOLLAR] + RenderInt(n) + CRLF + (body + end + t)) == Fail(Malformed, t)
    ensures !utf8(body) ==> ReadResp(utf8, EncodePart(body) + t) == Fail(NotText, t)
  {
    hide ReadNumber, RenderInt, Decimal, ReadBulk;
    BulkHeader(utf8, n, t);
    BulkHeader(utf8, n, body);
    BulkHeader(utf8, n, body + end + t);
    BadBodies(utf8, n, body, end, t);
    var rest := body + CRLF + t;
    assert EncodePart(body) + t == [DOLLAR] + Decimal(|body|) + CRLF + rest;
    assert (EncodePart(body) + t)[1..] == Decimal(|body|) + CRLF + rest;
    HeaderReads(|body|, rest);
  }

  lemma BulkHeader(utf8: Bytes -> bool, n: int, rest: Bytes)
    ensures n != -1 ==> ReadResp(utf8, [DOLLAR] + RenderInt(n) + CRLF + rest) == ReadBulk(utf8, rest, n)
  {
    hide ReadNumber, RenderInt, ReadBulk;
    var s := [DOLLAR] + RenderInt(n) + CRLF + rest;
    assert s[1..] == RenderInt(n) + CRLF + rest;
    NumberReads(n, rest);
  }

  lemma BadBodies(utf8: Bytes -> bool, n: int, body: Bytes, end: Bytes, t: Bytes)
    ensures n < -1 ==> ReadBulk(utf8, t, n) == Fail(Malformed, t)
    ensures n > |body| ==> ReadBulk(utf8, body, n) == Fail(Malformed, [])
    ensures n == |body| && |end| == 2 && end != CRLF ==> ReadBulk(utf8, body + end + t, n) == Fail(Malformed, t)
    ensures !utf8(body) ==> ReadBulk(utf8, body + CRLF + t, |body|) == Fail(NotText, t)
  {
    if n == |body| && |end| == 2 {
      var s := body + end + t;
      assert s[n..n + 2] == end && s[n + 2..] == t;
    }
    var s := body + CRLF + t;
    assert s[..|body|] == body && s[|body|..|body| + 2] == CRLF && s[|body| + 2..] == t;
  }

  /** An array with a count below -1 reads as an empty list, as a range of a negative length is empty. */
  lemma NegativeArrayIsEmpty(utf8: Bytes -> bool, n: int, t: Bytes)
    requires n < -1
    ensures ReadResp(utf8, [STAR] + RenderInt(n) + CRLF + t) == Got(List([]), t)
  {
    hide ReadNumber, RenderInt;
    var s := [STAR] + RenderInt(n) + CRLF + t;
    assert s[1..] == RenderInt(n) + CRLF + t;
    NumberReads(n, t);
  }

  /** Any other first byte is refused. */
  lemma UnknownPrefixIsRefused(utf8: Bytes -> bool, b: Byte, t: Bytes)
    requires b !in {PLUS, MINUS, COLON, DOLLAR, STAR}
    ensures ReadResp(utf8, [b] + t) == Fail(Malformed, t)
  {
    assert ([b] + t)[1..] == t;
  }

  // ---------- the stream ----------

  /** A byte stream that reads consume. */
  class ByteStream {
    var rest: Bytes

    constructor (bytes: Bytes)
      ensures rest == bytes
    {
      rest := bytes;
    }

    method Take(n: nat) returns (data: Bytes)
      modifies this
      ensures data == old(rest)[..Available(old(rest), n)] && rest == old(rest)[Available(old(rest), n)..]
    {
      var k := Available(rest, n);
      data, rest := rest[..k], rest[k..];
    }

    method TakeLine() returns (line: Result<Bytes, RespError>)
      modifies this
      ensures rest == ReadLine(old(rest)).rest
      ensures line == AsResult(ReadLine(old(rest)))
    {
      ghost var s := rest;
      var n := LineLength(rest);
      var data := Take(n);
      if data == [] {
        return Err(Closed);
      }
      if n < 2 || data[n - 1] != LF || data[n - 2] != CR {
        return Err(Malformed);
      }
      assert data[..n - 2] == s[..n - 2];
      line := Ok(data[..n - 2]);
    }

    method TakeNumber() returns (r: Result<int, RespError>)
      modifies this
      ensures rest == ReadNumber(old(rest)).rest
      ensures r == AsResult(ReadNumber(old(rest)))
    {
      hide ReadLine, ParseInt;
      var line := TakeLine();
      if line.Err? {
        return Err(line.error);
      }
      var n := ParseInt(line.value);
      r := if n.Some? then Ok(n.value) else Err(Malformed);
    }

    method TakeBulk(utf8: Bytes -> bool, length: int) returns (r: Result<Value, RespError>)
      modifies this
      ensures rest == ReadBulk(utf8, old(rest), length).rest
      ensures r == AsResult(ReadBulk(utf8, old(rest), length))
    {
      ghost var s := rest;
      if length < 0 {
        return Err(Malformed);
      }
      var data := Take(length);
      var terminator := Take(2);
      var n := Available(s, length);
      assert rest == s[n + Available(s[n..], 2)..];
      assert terminator == s[n..n + Available(s[n..], 2)];
      if |data| != length || terminator != CRLF {
        return Err(Malformed);
      }
      r := if utf8(data) then Ok(Text(data)) else Err(NotText);
    }

    /** Read one reply; arrays read their items in turn from the same stream. */
    method TakeResp(utf8: Bytes -> bool) returns (r: Result<Value, RespError>)
      modifies this
      ensures rest == ReadResp(utf8, old(rest)).rest
      ensures r == AsResult(ReadResp(utf8, old(rest)))
      decreases |rest|, 0
    {
      hide ReadLine, ReadNumber, ReadBulk;
      ghost var s := rest;
      var prefix := Take(1);
      if prefix == [] {
        return Err(Closed);
      }
      assert prefix[0] == s[0] && rest == s[1..];
      if prefix[0] == PLUS || prefix[0] == MINUS {
        var line := TakeLine();
        if line.Err? {
          return Err(line.error);
        }
        if !utf8(line.value) {
          return Err(NotText);
        }
        return if prefix[0] == PLUS then Ok(Text(line.value)) else Err(Reply(line.value));
      }
      if prefix[0] != COLON && prefix[0] != DOLLAR && prefix[0] != STAR {
        return Err(Malformed);
      }
      var n := TakeNumber();
      if n.Err? {
        return Err(n.error);
      }
      if prefix[0] == COLON {
        return Ok(Integer(n.value));
      }
      if n.value == -1 {
        return Ok(Nil);
      }
      if prefix[0] == DOLLAR {
        r := TakeBulk(utf8, n.value);
        return;
      }
      var items := TakeItems(utf8, n.value);
      r := if items.Ok? then Ok(List(items.value)) else Err(items.error);
    }

    method TakeItems(utf8: Bytes -> bool, count: int) returns (r: Result<seq<Value>, RespError>)
      modifies this
      ensures rest == ReadItems(utf8, old(rest), count).rest
      ensures r == AsResult(ReadItems(utf8, old(rest), count))
      decreases |rest|, 1
    {
      hide ReadResp;
      var items: seq<Value> := [];
      var k := 0;
      PrependNone(ReadItems(utf8, rest, count));
      while k < count
        invariant 0 <= k && (k <= count || k == 0) && |rest| <= |old(rest)|
        invariant k > 0 ==> |rest| < |old(rest)|
        invariant ReadItems(utf8, old(rest), count) == Prepend(items, ReadItems(utf8, rest, count - k))
      {
        var item := TakeResp(utf8);
        if item.Err? {
          return Err(item.error);
        }
        PrependOne(items, item.value, ReadItems(utf8, rest, count - k - 1));
        items := items + [item.value];
        k := k + 1;
      }
      assert items + [] == items;
      r := Ok(items);
    }
  }

  function Prepend(items: seq<Value>, r: Outcome<seq<Value>>): Outcome<seq<Value>> {
    match r
    case Got(more, rest) => Got(items + more, rest)
    case Fail(e, rest) => Fail(e, rest)
  }

  lemma PrependNone(r: Outcome<seq<Value>>)
    ensures Prepend([], r) == r
  {
    if r.Got? {
      assert [] + r.value == r.value;
    }
  }

  lemma PrependOne(items: seq<Value>, v: Value, r: Outcome<seq<Value>>)
    ensures Prepend(items + [v], r) == Prepend(items, Prepend([v], r))
  {
    if r.Got? {
      assert items + [v] + r.value == items + ([v] + r.value);
    }
  }
}
