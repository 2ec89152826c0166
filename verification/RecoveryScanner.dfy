/** The duplicate-member scanner of recovery: a token stream over JSON text and
    a stack of open containers. Text is a sequence of UTF-16 code units. */
module RecoveryScanner {
  import opened Basics

  type Unit = u: nat | u < 0x10000
  type Text = seq<Unit>

  const Quote: Unit := 0x22
  const Backslash: Unit := 0x5C
  const OpenBrace: Unit := 0x7B
  const CloseBrace: Unit := 0x7D
  const OpenBracket: Unit := 0x5B
  const CloseBracket: Unit := 0x5D
  const Colon: Unit := 0x3A
  const Comma: Unit := 0x2C
  const LowerU: Unit := 0x75

  // ------------------------------------------------------------------------- tokens

  datatype Token = Mark(u: Unit) | Quoted(raw: Text)

  predicate IsMark(u: Unit) {
    u == OpenBrace || u == CloseBrace || u == OpenBracket || u == CloseBracket || u == Colon || u == Comma
  }

  predicate IsLineEnd(u: Unit) {
    u == 0x0A || u == 0x0D || u == 0x2028 || u == 0x2029
  }

  /** Where a quoted string that starts before `text` ends, if it does. */
  function QuotedLength(text: Text): (n: Option<nat>)
    ensures n.Some? ==> n.value < |text| && text[n.value] == Quote
  {
    if text == [] then None
    else if text[0] == Quote then Some(0)
    else if text[0] == Backslash then
      if |text| == 1 || IsLineEnd(text[1]) then None
      else match QuotedLength(text[2..]) case None => None case Some(n) => Some(n + 2)
    else match QuotedLength(text[1..]) case None => None case Some(n) => Some(n + 1)
  }

  /** The first token of the text and what follows it; other units are skipped. */
  function FirstToken(text: Text): (r: Option<(Token, Text)>)
    ensures r.Some? ==> |r.value.1| < |text|
  {
    if text == [] then None
    else if IsMark(text[0]) then Some((Mark(text[0]), text[1..]))
    else if text[0] == Quote && QuotedLength(text[1..]).Some? then
      var n := QuotedLength(text[1..]).value;
      Some((Quoted(text[1..n + 1]), text[n + 2..]))
    else FirstToken(text[1..])
  }

  function Tokens(text: Text): seq<Token>
    decreases |text|
  {
    match FirstToken(text)
    case None => []
    case Some((token, rest)) => [token] + Tokens(rest)
  }

  // ---------------------------------------------------------------- decoded strings

  function HexValue(u: Unit): Option<nat> {
    if 0x30 <= u <= 0x39 then Some(u - 0x30)
    else if 0x41 <= u <= 0x46 then Some(u - 0x41 + 10)
    else if 0x61 <= u <= 0x66 then Some(u - 0x61 + 10)
    else None
  }

  /** What a one-letter escape stands for. */
  function SimpleEscape(u: Unit): Option<Unit> {
    if u == Quote || u == Backslash || u == 0x2F then Some(u)
    else if u == 0x62 then Some(0x08)
    else if u == 0x66 then Some(0x0C)
    else if u == 0x6E then Some(0x0A)
    else if u == 0x72 then Some(0x0D)
    else if u == 0x74 then Some(0x09)
    else None
  }

  function HexUnit(raw: Text): (r: Option<Unit>)
    requires |raw| == 4
  {
    if HexValue(raw[0]).None? || HexValue(raw[1]).None? || HexValue(raw[2]).None? || HexValue(raw[3]).None? then None
    else
      var n := ((HexValue(raw[0]).value * 16 + HexValue(raw[1]).value) * 16 + HexValue(raw[2]).value) * 16 + HexValue(raw[3]).value;
      if n < 0x10000 then Some(n) else None
  }

  /** The value of a string token, as JSON.parse reads it. */
  function Unescape(raw: Text): Option<Text> {
    if raw == [] then Some([])
    else if raw[0] == Backslash then
      if |raw| >= 2 && SimpleEscape(raw[1]).Some? then
        match Unescape(raw[2..]) case None => None case Some(t) => Some([SimpleEscape(raw[1]).value] + t)
      else if |raw| >= 6 && raw[1] == LowerU && HexUnit(raw[2..6]).Some? then
        match Unescape(raw[6..]) case None => None case Some(t) => Some([HexUnit(raw[2..6]).value] + t)
      else None
    else if raw[0] < 0x20 || raw[0] == Quote then None
    else match Unescape(raw[1..]) case None => None case Some(t) => Some([raw[0]] + t)
  }

  // -------------------------------------------------------------------- containers

  datatype Container = ObjectScope(keys: set<Text>, expectingKey: bool) | ArrayScope

  /** One token against the innermost container; None is a refusal. */
  function Take(open: seq<Container>, token: Token): Option<seq<Container>> {
    if token == Mark(OpenBrace) then Some(open + [ObjectScope({}, true)])
    else if token == Mark(OpenBracket) then Some(open + [ArrayScope])
    else if token == Mark(CloseBrace) || token == Mark(CloseBracket) then Some(if open == [] then open else open[..|open| - 1])
    else if open == [] || open[|open| - 1].ArrayScope? then Some(open)
    else
      var n := |open| - 1;
      if token == Mark(Colon) then Some(open[n := open[n].(expectingKey := false)])
      else if token == Mark(Comma) then Some(open[n := open[n].(expectingKey := true)])
      else if open[n].expectingKey && token.Quoted? then
        var key := Unescape(token.raw);
        if key.None? || key.value in open[n].keys then None
        else Some(open[n := open[n].(keys := open[n].keys + {key.value})])
      else Some(open)
  }

  function TakeAll(open: seq<Container>, tokens: seq<Token>): Option<seq<Container>>
    decreases |tokens|
  {
    if tokens == [] then Some(open)
    else match Take(open, tokens[0]) case None => None case Some(next) => TakeAll(next, tokens[1..])
  }

  /** The scanner: reads tokens one by one and keeps the open containers. */
  method Scan(text: Text) returns (accepted: bool)
    ensures accepted <==> TakeAll([], Tokens(text)).Some?
  {
    var containers: seq<Container> := [];
    var rest := text;
    var next := FirstToken(rest);
    while next.Some?
      invariant next == FirstToken(rest)
      invariant TakeAll([], Tokens(text)) == TakeAll(containers, Tokens(rest))
      decreases |rest|
    {
      var token := next.value.0;
      var remaining := next.value.1;
      assert Tokens(rest)[1..] == Tokens(remaining);
      if token == Mark(OpenBrace) {
        containers := containers + [ObjectScope({}, true)];
      } else if token == Mark(OpenBracket) {
        containers := containers + [ArrayScope];
      } else if token == Mark(CloseBrace) || token == Mark(CloseBracket) {
        if containers != [] {
          containers := containers[..|containers| - 1];
        }
      } else if containers != [] && containers[|containers| - 1].ObjectScope? {
        var n := |containers| - 1;
        var current := containers[n];
        if token == Mark(Colon) {
          containers := containers[n := current.(expectingKey := false)];
        } else if token == Mark(Comma) {
          containers := containers[n := current.(expectingKey := true)];
        } else if current.expectingKey && token.Quoted? {
          var key := Unescape(token.raw);
          if key.None? || key.value in current.keys {
            return false;
          }
          containers := containers[n := current.(keys := current.keys + {key.value})];
        }
      }
      rest := remaining;
      next := FirstToken(rest);
    }
    accepted := true;
  }

  // -------------------------------------------------------------- printed JSON values

  /** One unit of a string, as it can be written. */
  datatype Piece = Plain(u: Unit) | Escaped(u: Unit) | Hex(digits: Text)
  {
    predicate Valid() {
      match this
      case Plain(u) => u >= 0x20 && u != Quote && u != Backslash
      case Escaped(u) => SimpleEscape(u).Some?
      case Hex(digits) => |digits| == 4 && HexUnit(digits).Some?
    }

    function Printed(): Text {
      match this
      case Plain(u) => [u]
      case Escaped(u) => [Backslash, u]
      case Hex(digits) => [Backslash, LowerU] + digits
    }

    function Meaning(): Unit
      requires Valid()
    {
      match this
      case Plain(u) => u
      case Escaped(u) => SimpleEscape(u).value
      case Hex(digits) => HexUnit(digits).value
    }
  }

  /** A JSON value with one way of writing it: blanks and escapes included. */
  datatype Value =
    | Scalar(text: Text)
    | Str(pieces: seq<Piece>)
    | EmptyArr(blank: Text)
    | Arr(elements: Elements)
    | EmptyObj(blank: Text)
    | Obj(members: Members)
    | Padded(before: Text, value: Value, after: Text)
  datatype Elements = LastElement(value: Value) | MoreElements(value: Value, rest: Elements)
  datatype Members =
    | LastMember(before: Text, name: seq<Piece>, after: Text, value: Value)
    | MoreMembers(before: Text, name: seq<Piece>, after: Text, value: Value, rest: Members)

  /** Text without tokens: blanks, numbers, true, false and null. */
  predicate Tokenless(text: Text) {
    forall u | u in text :: !IsMark(u) && u != Quote
  }

  predicate ValidPieces(pieces: seq<Piece>) {
    forall p | p in pieces :: p.Valid()
  }

  predicate ValidValue(v: Value) {
    match v
    case Scalar(text) => Tokenless(text)
    case Str(pieces) => ValidPieces(pieces)
    case EmptyArr(blank) => Tokenless(blank)
    case Arr(elements) => ValidElements(elements)
    case EmptyObj(blank) => Tokenless(blank)
    case Obj(members) => ValidMembers(members)
    case Padded(before, value, after) => Tokenless(before) && ValidValue(value) && Tokenless(after)
  }

  predicate ValidElements(es: Elements) {
    ValidValue(es.value) && (es.MoreElements? ==> ValidElements(es.rest))
  }

  predicate ValidMembers(ms: Members) {
    && Tokenless(ms.before) && ValidPieces(ms.name) && Tokenless(ms.after) && ValidValue(ms.value)
    && (ms.MoreMembers? ==> ValidMembers(ms.rest))
  }

  function PrintPieces(pieces: seq<Piece>): Text {
    if pieces == [] then [] else pieces[0].Printed() + PrintPieces(pieces[1..])
  }

  function PrintString(pieces: seq<Piece>): Text {
    [Quote] + PrintPieces(pieces) + [Quote]
  }

  function Print(v: Value): Text {
    match v
    case Scalar(text) => text
    case Str(pieces) => PrintString(pieces)
    case EmptyArr(blank) => [OpenBracket] + blank + [CloseBracket]
    case Arr(elements) => [OpenBracket] + PrintElements(elements) + [CloseBracket]
    case EmptyObj(blank) => [OpenBrace] + blank + [CloseBrace]
    case Obj(members) => [OpenBrace] + PrintMembers(members) + [CloseBrace]
    case Padded(before, value, after) => before + Print(value) + after
  }

  function PrintElements(es: Elements): Text {
    Print(es.value) + if es.LastElement? then [] else [Comma] + PrintElements(es.rest)
  }

  function PrintMembers(ms: Members): Text {
    ms.before + PrintString(ms.name) + ms.after + [Colon] + Print(ms.value)
    + if ms.LastMember? then [] else [Comma] + PrintMembers(ms.rest)
  }

  function Meanings(pieces: seq<Piece>): Text
    requires ValidPieces(pieces)
  {
    if pieces == [] then [] else [pieces[0].Meaning()] + Meanings(pieces[1..])
  }

  /** The decoded names of the members, in order. */
  function NamesOf(ms: Members): seq<Text>
    requires ValidMembers(ms)
  {
    [Meanings(ms.name)] + if ms.LastMember? then [] else NamesOf(ms.rest)
  }

  /** No object, at any depth, has two members of one decoded name. */
  predicate Unambiguous(v: Value)
    requires ValidValue(v)
  {
    match v
    case Arr(elements) => AllUnambiguous(elements)
    case Obj(members) => Distinct(NamesOf(members)) && ValuesUnambiguous(members)
    case Padded(_, value, _) => Unambiguous(value)
    case _ => true
  }

  predicate AllUnambiguous(es: Elements)
    requires ValidElements(es)
  {
    Unambiguous(es.value) && (es.MoreElements? ==> AllUnambiguous(es.rest))
  }

  predicate ValuesUnambiguous(ms: Members)
    requires ValidMembers(ms)
  {
    Unambiguous(ms.value) && (ms.MoreMembers? ==> ValuesUnambiguous(ms.rest))
  }

  // ---------------------------------------------------------- the tokens of a value

  function TokensOf(v: Value): seq<Token> {
    match v
    case Scalar(_) => []
    case Str(pieces) => [Quoted(PrintPieces(pieces))]
    case EmptyArr(_) => [Mark(OpenBracket), Mark(CloseBracket)]
    case Arr(elements) => [Mark(OpenBracket)] + ElementTokens(elements) + [Mark(CloseBracket)]
    case EmptyObj(_) => [Mark(OpenBrace), Mark(CloseBrace)]
    case Obj(members) => [Mark(OpenBrace)] + MemberTokens(members) + [Mark(CloseBrace)]
    case Padded(_, value, _) => TokensOf(value)
  }

  function ElementTokens(es: Elements): seq<Token> {
    TokensOf(es.value) + if es.LastElement? then [] else [Mark(Comma)] + ElementTokens(es.rest)
  }

  function MemberTokens(ms: Members): seq<Token> {
    [Quoted(PrintPieces(ms.name)), Mark(Colon)] + TokensOf(ms.value)
    + if ms.LastMember? then [] else [Mark(Comma)] + MemberTokens(ms.rest)
  }

  lemma {:induction false} SkipTokenless(text: Text, rest: Text)
    requires Tokenless(text)
    ensures Tokens(text + rest) == Tokens(rest)
  {
    if text != [] {
      assert forall u | u in text[1..] :: u in text;
      SkipTokenless(text[1..], rest);
      assert (text + rest)[1..] == text[1..] + rest;
      assert text[0] in text;
      assert FirstToken(text + rest) == FirstToken(text[1..] + rest);
    } else {
      assert text + rest == rest;
    }
  }

  lemma {:induction false} TakeMark(u: Unit, rest: Text)
    requires IsMark(u)
    ensures Tokens([u] + rest) == [Mark(u)] + Tokens(rest)
  {
    assert ([u] + rest)[1..] == rest;
  }

  lemma HexIsNoEnd(digits: Text)
    requires |digits| == 4 && HexUnit(digits).Some?
    ensures forall u | u in digits :: u != Quote && u != Backslash
  {
  }

  lemma {:induction false} PlainRun(run: Text, rest: Text)
    requires forall u | u in run :: u != Quote && u != Backslash
    ensures QuotedLength(run + rest)
         == (match QuotedLength(rest) case None => None case Some(n) => Some(n + |run|))
  {
    if run != [] {
      assert forall u | u in run[1..] :: u in run;
      PlainRun(run[1..], rest);
      assert (run + rest)[1..] == run[1..] + rest;
      assert run[0] in run;
    } else {
      assert run + rest == rest;
    }
  }

  lemma {:induction false} PieceRun(p: Piece, rest: Text)
    requires p.Valid()
    ensures QuotedLength(p.Printed() + rest)
         == (match QuotedLength(rest) case None => None case Some(n) => Some(n + |p.Printed()|))
  {
    var text := p.Printed() + rest;
    match p
    case Plain(_) => PlainRun(p.Printed(), rest);
    case Escaped(u) => assert text[2..] == rest;
    case Hex(digits) =>
      HexIsNoEnd(digits);
      PlainRun(digits, rest);
      assert text[2..] == digits + rest;
  }

  lemma ValidParts(pieces: seq<Piece>)
    requires ValidPieces(pieces) && pieces != []
    ensures pieces[0].Valid() && ValidPieces(pieces[1..])
  {
    assert pieces[0] in pieces;
    assert forall p | p in pieces[1..] :: p in pieces;
  }

  lemma RightAssociate(a: Text, b: Text, c: Text)
    ensures (a + b) + c == a + (b + c)
  {
  }

  lemma {:induction false} StringEnds(pieces: seq<Piece>, rest: Text)
    requires ValidPieces(pieces)
    ensures QuotedLength(PrintPieces(pieces) + ([Quote] + rest)) == Some(|PrintPieces(pieces)|)
  {
    var tail := [Quote] + rest;
    if pieces == [] {
      assert PrintPieces(pieces) + tail == tail;
    } else {
      ValidParts(pieces);
      var first, body := pieces[0].Printed(), PrintPieces(pieces[1..]);
      StringEnds(pieces[1..], rest);
      PieceRun(pieces[0], body + tail);
      RightAssociate(first, body, tail);
      assert PrintPieces(pieces) == first + body;
    }
  }

  lemma {:induction false} TakeString(pieces: seq<Piece>, rest: Text)
    requires ValidPieces(pieces)
    ensures Tokens(PrintString(pieces) + rest) == [Quoted(PrintPieces(pieces))] + Tokens(rest)
  {
    var body := PrintPieces(pieces);
    var text := PrintString(pieces) + rest;
    StringEnds(pieces, rest);
    assert text[1..] == body + ([Quote] + rest);
    assert text[1..|body| + 1] == body && text[|body| + 2..] == rest;
  }

  lemma {:induction false} TakePair(start: Unit, inside: Text, tokens: seq<Token>, end: Unit, rest: Text)
    requires IsMark(start) && IsMark(end)
    requires Tokens(inside + ([end] + rest)) == tokens + Tokens([end] + rest)
    ensures Tokens([start] + inside + [end] + rest) == [Mark(start)] + tokens + [Mark(end)] + Tokens(rest)
  {
    assert [start] + inside + [end] + rest == [start] + (inside + ([end] + rest));
    TakeMark(start, inside + ([end] + rest));
    TakeMark(end, rest);
    var after := Tokens(rest);
    assert [Mark(start)] + (tokens + ([Mark(end)] + after)) == [Mark(start)] + tokens + [Mark(end)] + after;
  }

  lemma {:induction false} TakeBlankPair(start: Unit, blank: Text, end: Unit, rest: Text)
    requires IsMark(start) && IsMark(end) && Tokenless(blank)
    ensures Tokens([start] + blank + [end] + rest) == [Mark(start), Mark(end)] + Tokens(rest)
  {
    SkipTokenless(blank, [end] + rest);
    TakePair(start, blank, [], end, rest);
    assert [Mark(start)] + [] + [Mark(end)] == [Mark(start), Mark(end)];
  }

  lemma {:induction false} TakePadded(before: Text, middle: Text, tokens: seq<Token>, after: Text, rest: Text)
    requires Tokenless(before) && Tokenless(after)
    requires Tokens(middle + (after + rest)) == tokens + Tokens(after + rest)
    ensures Tokens(before + middle + after + rest) == tokens + Tokens(rest)
  {
    assert before + middle + after + rest == before + (middle + (after + rest));
    SkipTokenless(before, middle + (after + rest));
    SkipTokenless(after, rest);
  }

  /** Printing a value and reading its tokens back, whatever follows. */
  lemma {:induction false} PrintedTokens(v: Value, rest: Text)
    requires ValidValue(v)
    ensures Tokens(Print(v) + rest) == TokensOf(v) + Tokens(rest)
    decreases v
  {
    match v
    case Scalar(text) => SkipTokenless(text, rest);
    case Str(pieces) => TakeString(pieces, rest);
    case EmptyArr(blank) => TakeBlankPair(OpenBracket, blank, CloseBracket, rest);
    case Arr(elements) =>
      PrintedElements(elements, [CloseBracket] + rest);
      TakePair(OpenBracket, PrintElements(elements), ElementTokens(elements), CloseBracket, rest);
    case EmptyObj(blank) => TakeBlankPair(OpenBrace, blank, CloseBrace, rest);
    case Obj(members) =>
      PrintedMembers(members, [CloseBrace] + rest);
      TakePair(OpenBrace, PrintMembers(members), MemberTokens(members), CloseBrace, rest);
    case Padded(before, value, after) =>
      PrintedTokens(value, after + rest);
      TakePadded(before, Print(value), TokensOf(value), after, rest);
  }

  lemma {:induction false} PrintedElements(es: Elements, rest: Text)
    requires ValidElements(es)
    ensures Tokens(PrintElements(es) + rest) == ElementTokens(es) + Tokens(rest)
    decreases es
  {
    if es.LastElement? {
      assert PrintElements(es) == Print(es.value);
      PrintedTokens(es.value, rest);
      assert ElementTokens(es) == TokensOf(es.value);
    } else {
      var more := PrintElements(es.rest) + rest;
      assert PrintElements(es) + rest == Print(es.value) + ([Comma] + more);
      PrintedTokens(es.value, [Comma] + more);
      TakeMark(Comma, more);
      PrintedElements(es.rest, rest);
      Regroup(TokensOf(es.value), [Mark(Comma)], ElementTokens(es.rest), Tokens(rest));
    }
  }

  lemma Regroup<T>(a: seq<T>, b: seq<T>, c: seq<T>, d: seq<T>)
    ensures a + (b + (c + d)) == (a + (b + c)) + d
  {
  }

  lemma LeftToRight<T>(a: seq<T>, b: seq<T>, c: seq<T>, d: seq<T>, e: seq<T>)
    ensures a + b + c + d + e == a + (b + (c + (d + e)))
  {
  }

  /** A name and its value, up to what follows the value. */
  lemma {:induction false} PrintedMember(ms: Members, tokens: seq<Token>, tail: Text)
    requires Tokenless(ms.before) && ValidPieces(ms.name) && Tokenless(ms.after)
    requires Tokens(Print(ms.value) + tail) == tokens
    ensures Tokens(ms.before + PrintString(ms.name) + ms.after + [Colon] + (Print(ms.value) + tail))
         == [Quoted(PrintPieces(ms.name)), Mark(Colon)] + tokens
  {
    var name := PrintString(ms.name);
    var rest := [Colon] + (Print(ms.value) + tail);
    LeftToRight(ms.before, name, ms.after, [Colon], Print(ms.value) + tail);
    SkipTokenless(ms.before, name + (ms.after + rest));
    TakeString(ms.name, ms.after + rest);
    SkipTokenless(ms.after, rest);
    TakeMark(Colon, Print(ms.value) + tail);
  }

  lemma {:induction false} PrintedMembers(ms: Members, rest: Text)
    requires ValidMembers(ms)
    ensures Tokens(PrintMembers(ms) + rest) == MemberTokens(ms) + Tokens(rest)
    decreases ms
  {
    var front := ms.before + PrintString(ms.name) + ms.after + [Colon];
    var named := [Quoted(PrintPieces(ms.name)), Mark(Colon)];
    if ms.LastMember? {
      assert PrintMembers(ms) == front + Print(ms.value);
      assert PrintMembers(ms) + rest == front + (Print(ms.value) + rest);
      PrintedTokens(ms.value, rest);
      PrintedMember(ms, TokensOf(ms.value) + Tokens(rest), rest);
      assert MemberTokens(ms) == named + TokensOf(ms.value);
      assert named + (TokensOf(ms.value) + Tokens(rest)) == named + TokensOf(ms.value) + Tokens(rest);
    } else {
      PrintedTokens(ms.value, [Comma] + (PrintMembers(ms.rest) + rest));
      PrintedMembers(ms.rest, rest);
      PrintedMoreMembers(ms, rest);
    }
  }

  lemma {:induction false} PrintedMoreMembers(ms: Members, rest: Text)
    requires ms.MoreMembers? && ValidMembers(ms)
    requires var more := [Comma] + (PrintMembers(ms.rest) + rest);
             Tokens(Print(ms.value) + more) == TokensOf(ms.value) + Tokens(more)
    requires Tokens(PrintMembers(ms.rest) + rest) == MemberTokens(ms.rest) + Tokens(rest)
    ensures Tokens(PrintMembers(ms) + rest) == MemberTokens(ms) + Tokens(rest)
  {
    var front := ms.before + PrintString(ms.name) + ms.after + [Colon];
    var named := [Quoted(PrintPieces(ms.name)), Mark(Colon)];
    var more := [Comma] + (PrintMembers(ms.rest) + rest);
    LeftToRight(front, Print(ms.value), [Comma], PrintMembers(ms.rest), rest);
    assert PrintMembers(ms) == front + Print(ms.value) + ([Comma] + PrintMembers(ms.rest));
    Regroup(front, Print(ms.value), [Comma] + PrintMembers(ms.rest), rest);
    assert PrintMembers(ms) + rest == front + (Print(ms.value) + more);
    TakeMark(Comma, PrintMembers(ms.rest) + rest);
    PrintedMember(ms, TokensOf(ms.value) + Tokens(more), more);
    MemberTokensSplit(named, TokensOf(ms.value), MemberTokens(ms.rest), Tokens(rest));
    assert MemberTokens(ms) == named + TokensOf(ms.value) + ([Mark(Comma)] + MemberTokens(ms.rest));
  }

  lemma MemberTokensSplit(named: seq<Token>, value: seq<Token>, rest: seq<Token>, after: seq<Token>)
    ensures named + (value + ([Mark(Comma)] + (rest + after))) == named + value + ([Mark(Comma)] + rest) + after
  {
  }

  // ---------------------------------------------------------------- decoding a name

  lemma {:induction false} DecodesPiece(p: Piece, rest: Text)
    requires p.Valid() && Unescape(rest).Some?
    ensures Unescape(p.Printed() + rest) == Some([p.Meaning()] + Unescape(rest).value)
  {
    var raw := p.Printed() + rest;
    match p
    case Plain(u) => assert raw[1..] == rest;
    case Escaped(u) => assert raw[2..] == rest;
    case Hex(digits) =>
      assert raw[1] == LowerU && SimpleEscape(LowerU).None?;
      assert raw[2..6] == digits && raw[6..] == rest;
  }

  lemma {:induction false} Decodes(pieces: seq<Piece>)
    requires ValidPieces(pieces)
    ensures Unescape(PrintPieces(pieces)) == Some(Meanings(pieces))
  {
    if pieces != [] {
      ValidParts(pieces);
      Decodes(pieces[1..]);
      DecodesPiece(pieces[0], PrintPieces(pieces[1..]));
    }
  }

  // -------------------------------------------------------------- taking the tokens

  lemma {:induction false} TakeConcat(open: seq<Container>, xs: seq<Token>, ys: seq<Token>)
    ensures TakeAll(open, xs + ys) == (match TakeAll(open, xs) case None => None case Some(next) => TakeAll(next, ys))
    decreases |xs|
  {
    if xs == [] {
      assert xs + ys == ys;
    } else {
      assert (xs + ys)[1..] == xs[1..] + ys;
      match Take(open, xs[0])
      case None =>
      case Some(next) => TakeConcat(next, xs[1..], ys);
    }
  }

  lemma {:induction false} TakeOne(open: seq<Container>, token: Token)
    ensures TakeAll(open, [token]) == Take(open, token)
  {
    match Take(open, token)
    case None =>
    case Some(next) => assert [token][1..] == [] && TakeAll(next, []) == Some(next);
  }

  /** Where a value may stand: not where a member name is expected. */
  predicate AtValue(open: seq<Container>) {
    open == [] || open[|open| - 1].ArrayScope? || !open[|open| - 1].expectingKey
  }

  lemma {:induction false} TakeValue(open: seq<Container>, v: Value)
    requires ValidValue(v) && AtValue(open)
    ensures TakeAll(open, TokensOf(v)) == if Unambiguous(v) then Some(open) else None
    decreases v
  {
    match v
    case Scalar(_) =>
    case Str(pieces) => TakeOne(open, Quoted(PrintPieces(pieces)));
    case EmptyArr(_) =>
      TakeEmptyPair(open, ArrayScope, OpenBracket, CloseBracket);
    case Arr(elements) =>
      TakeElements(open + [ArrayScope], elements);
      TakeScoped(open, ArrayScope, ArrayScope, AllUnambiguous(elements), OpenBracket, ElementTokens(elements), CloseBracket);
    case EmptyObj(_) =>
      TakeEmptyPair(open, ObjectScope({}, true), OpenBrace, CloseBrace);
    case Obj(members) =>
      TakeMembers(open, {}, members);
      TakeScoped(open, ObjectScope({}, true), ObjectScope({} + NameSet(members), false), Unambiguous(v),
                 OpenBrace, MemberTokens(members), CloseBrace);
    case Padded(_, value, _) => TakeValue(open, value);
  }

  /** A container opened, filled and closed. */
  lemma {:induction false} TakeScoped(open: seq<Container>, scope: Container, filled: Container, ok: bool, start: Unit, inside: seq<Token>, end: Unit)
    requires Take(open, Mark(start)) == Some(open + [scope]) && (end == CloseBracket || end == CloseBrace)
    requires TakeAll(open + [scope], inside) == if ok then Some(open + [filled]) else None
    ensures TakeAll(open, [Mark(start)] + inside + [Mark(end)]) == if ok then Some(open) else None
  {
    assert [Mark(start)] + inside + [Mark(end)] == [Mark(start)] + (inside + [Mark(end)]);
    TakeConcat(open, [Mark(start)], inside + [Mark(end)]);
    TakeOne(open, Mark(start));
    TakeConcat(open + [scope], inside, [Mark(end)]);
    if ok {
      TakeOne(open + [filled], Mark(end));
      assert (open + [filled])[..|open|] == open;
    }
  }

  lemma {:induction false} TakeEmptyPair(open: seq<Container>, scope: Container, start: Unit, end: Unit)
    requires Take(open, Mark(start)) == Some(open + [scope]) && (end == CloseBracket || end == CloseBrace)
    ensures TakeAll(open, [Mark(start), Mark(end)]) == Some(open)
  {
    TakeScoped(open, scope, scope, true, start, [], end);
    assert [Mark(start)] + [] + [Mark(end)] == [Mark(start), Mark(end)];
  }

  lemma TopReplaced(open: seq<Container>, top: Container, other: Container)
    ensures (open + [top])[|open|] == top
    ensures (open + [top])[|open| := other] == open + [other]
  {
  }

  lemma {:induction false} TakeElements(open: seq<Container>, es: Elements)
    requires ValidElements(es) && open != [] && open[|open| - 1].ArrayScope?
    ensures TakeAll(open, ElementTokens(es)) == if AllUnambiguous(es) then Some(open) else None
    decreases es
  {
    TakeValue(open, es.value);
    if es.LastElement? {
      assert ElementTokens(es) == TokensOf(es.value);
    } else {
      var more := ElementTokens(es.rest);
      TakeConcat(open, TokensOf(es.value), [Mark(Comma)] + more);
      TakeConcat(open, [Mark(Comma)], more);
      TakeOne(open, Mark(Comma));
      TakeElements(open, es.rest);
    }
  }

  function NameSet(ms: Members): set<Text>
    requires ValidMembers(ms)
  {
    set name | name in NamesOf(ms)
  }

  /** A member's name and colon: refused when the name was there before. */
  lemma {:induction false} TakeName(open: seq<Container>, keys: set<Text>, pieces: seq<Piece>)
    requires ValidPieces(pieces)
    ensures TakeAll(open + [ObjectScope(keys, true)], [Quoted(PrintPieces(pieces)), Mark(Colon)])
         == if Meanings(pieces) in keys then None else Some(open + [ObjectScope(keys + {Meanings(pieces)}, false)])
  {
    var name := Meanings(pieces);
    var start := open + [ObjectScope(keys, true)];
    var quoted := Quoted(PrintPieces(pieces));
    Decodes(pieces);
    TopReplaced(open, ObjectScope(keys, true), ObjectScope(keys + {name}, true));
    assert [quoted, Mark(Colon)][1..] == [Mark(Colon)];
    if name !in keys {
      TopReplaced(open, ObjectScope(keys + {name}, true), ObjectScope(keys + {name}, false));
      TakeOne(open + [ObjectScope(keys + {name}, true)], Mark(Colon));
    }
  }

  lemma {:induction false} TakeComma(open: seq<Container>, keys: set<Text>)
    ensures TakeAll(open + [ObjectScope(keys, false)], [Mark(Comma)]) == Some(open + [ObjectScope(keys, true)])
  {
    TopReplaced(open, ObjectScope(keys, false), ObjectScope(keys, true));
    TakeOne(open + [ObjectScope(keys, false)], Mark(Comma));
  }

  /** The member is acceptable after the names in keys. */
  predicate MembersAcceptable(ms: Members, keys: set<Text>)
    requires ValidMembers(ms)
  {
    Distinct(NamesOf(ms)) && NameSet(ms) !! keys && ValuesUnambiguous(ms)
  }

  lemma {:induction false} AcceptableSplit(ms: Members, keys: set<Text>)
    requires ValidMembers(ms)
    ensures ms.LastMember? ==> (MembersAcceptable(ms, keys) <==> Meanings(ms.name) !in keys && Unambiguous(ms.value))
    ensures ms.MoreMembers? ==> (MembersAcceptable(ms, keys)
              <==> Meanings(ms.name) !in keys && Unambiguous(ms.value) && MembersAcceptable(ms.rest, keys + {Meanings(ms.name)}))
    ensures ms.MoreMembers? ==> keys + {Meanings(ms.name)} + NameSet(ms.rest) == keys + NameSet(ms)
    ensures ms.LastMember? ==> keys + NameSet(ms) == keys + {Meanings(ms.name)}
  {
    NamesSplit(ms);
  }

  lemma {:induction false} TakeMembers(open: seq<Container>, keys: set<Text>, ms: Members)
    requires ValidMembers(ms)
    ensures TakeAll(open + [ObjectScope(keys, true)], MemberTokens(ms))
         == if MembersAcceptable(ms, keys) then Some(open + [ObjectScope(keys + NameSet(ms), false)]) else None
    decreases ms
  {
    var start := open + [ObjectScope(keys, true)];
    var name := Meanings(ms.name);
    var named := [Quoted(PrintPieces(ms.name)), Mark(Colon)];
    var valued := open + [ObjectScope(keys + {name}, false)];
    AcceptableSplit(ms, keys);
    TakeName(open, keys, ms.name);
    TakeValue(valued, ms.value);
    if ms.LastMember? {
      assert MemberTokens(ms) == named + TokensOf(ms.value);
      TakeConcat(start, named, TokensOf(ms.value));
    } else {
      var tail := [Mark(Comma)] + MemberTokens(ms.rest);
      assert MemberTokens(ms) == named + (TokensOf(ms.value) + tail);
      TakeConcat(start, named, TokensOf(ms.value) + tail);
      TakeConcat(valued, TokensOf(ms.value), tail);
      TakeConcat(valued, [Mark(Comma)], MemberTokens(ms.rest));
      TakeComma(open, keys + {name});
      TakeMembers(open, keys + {name}, ms.rest);
    }
  }

  lemma {:induction false} NamesSplit(ms: Members)
    requires ValidMembers(ms)
    ensures Meanings(ms.name) in NameSet(ms)
    ensures ms.LastMember? ==> NameSet(ms) == {Meanings(ms.name)} && Distinct(NamesOf(ms))
    ensures ms.MoreMembers? ==>
              && NameSet(ms) == {Meanings(ms.name)} + NameSet(ms.rest)
              && (Distinct(NamesOf(ms)) <==> Meanings(ms.name) !in NameSet(ms.rest) && Distinct(NamesOf(ms.rest)))
  {
    if ms.MoreMembers? {
      assert NamesOf(ms) == [Meanings(ms.name)] + NamesOf(ms.rest);
      assert NamesOf(ms)[1..] == NamesOf(ms.rest);
      assert forall i | 0 <= i < |NamesOf(ms.rest)| :: NamesOf(ms)[i + 1] == NamesOf(ms.rest)[i];
    }
  }

  /** Whatever blanks and escapes a value is written with, the scanner accepts
      its text exactly when no object in it repeats a decoded member name. */
  lemma {:induction false} ScannerIsExact(v: Value)
    requires ValidValue(v)
    ensures TakeAll([], Tokens(Print(v))).Some? <==> Unambiguous(v)
  {
    PrintedTokens(v, []);
    assert Print(v) + [] == Print(v) && TokensOf(v) + [] == TokensOf(v);
    TakeValue([], v);
  }
}
