/** The JavaScript scanner of the traceability check: comments and space dropped, literals kept whole with their
  * escapes undone, everything else a word or a single mark. Characters are classified as in ASCII. */
module JsScanner {
  import opened Bytes

  datatype Kind = Identifier | StringLiteral | StaticTemplate | DynamicTemplate | Punctuation

  datatype Token = Token(kind: Kind, value: string)

  // Characters.

  predicate Space(c: char) {
    c == ' ' || '\U{9}' <= c <= '\U{d}' || '\U{1c}' <= c <= '\U{1f}'
  }

  predicate Quote(c: char) {
    c == '\'' || c == '"' || c == '`'
  }

  predicate WordStart(c: char) {
    'a' <= c <= 'z' || 'A' <= c <= 'Z' || c == '_' || c == '$'
  }

  predicate WordChar(c: char) {
    WordStart(c) || '0' <= c <= '9'
  }

  function Unescaped(c: char): char {
    match c
    case 'b' => '\U{8}'
    case 'f' => '\U{c}'
    case 'n' => '\n'
    case 'r' => '\r'
    case 't' => '\t'
    case 'v' => '\U{b}'
    case '0' => '\0'
    case _ => c
  }

  // The pieces of a literal: a plain character, an escape, or a line continued.

  datatype Piece = Plain(c: char) | Escaped(c: char) | ContinuedLf | ContinuedCrLf | ContinuedCr

  function PieceText(p: Piece): (t: string)
    ensures |t| > 0
  {
    match p
    case Plain(c) => [c]
    case Escaped(c) => ['\\', c]
    case ContinuedLf => ['\\', '\n']
    case ContinuedCrLf => ['\\', '\r', '\n']
    case ContinuedCr => ['\\', '\r']
  }

  function PieceValue(p: Piece): string {
    match p
    case Plain(c) => [c]
    case Escaped(c) => [Unescaped(c)]
    case _ => []
  }

  /** The piece at the front of the text behind an opening quote; none if the text ends inside an escape. */
  function FirstPiece(s: string): Option<Piece>
    requires s != []
  {
    if s[0] != '\\' then Some(Plain(s[0]))
    else if |s| == 1 then None
    else if s[1] == '\n' then Some(ContinuedLf)
    else if s[1] == '\r' then if |s| > 2 && s[2] == '\n' then Some(ContinuedCrLf) else Some(ContinuedCr)
    else Some(Escaped(s[1]))
  }

  lemma FirstPieceIsThere(s: string)
    requires s != [] && FirstPiece(s).Some?
    ensures PieceText(FirstPiece(s).value) <= s
  {
  }

  function BodyText(body: seq<Piece>): string {
    if body == [] then [] else PieceText(body[0]) + BodyText(body[1..])
  }

  function BodyValue(body: seq<Piece>): string {
    if body == [] then [] else PieceValue(body[0]) + BodyValue(body[1..])
  }

  /** The body of a literal, up to its closing quote; none if it never closes. */
  function ReadBody(quote: char, s: string): Option<seq<Piece>>
    decreases |s|
  {
    if s == [] then None
    else if s[0] == quote then Some([])
    else
      var p := FirstPiece(s);
      if p.None? then None
      else
        FirstPieceIsThere(s);
        var rest := ReadBody(quote, s[|PieceText(p.value)|..]);
        if rest.None? then None else Some([p.value] + rest.value)
  }

  lemma {:induction false} BodyIsThere(quote: char, s: string)
    requires ReadBody(quote, s).Some?
    ensures BodyText(ReadBody(quote, s).value) + [quote] <= s
    decreases |s|
  {
    if s[0] != quote {
      var p := FirstPiece(s).value;
      FirstPieceIsThere(s);
      var rest := s[|PieceText(p)|..];
      BodyIsThere(quote, rest);
      var tail := ReadBody(quote, rest).value;
      BodyOfMore(p, tail);
      hide ReadBody, BodyText, FirstPiece, PieceText;
      assert s == PieceText(p) + rest;
      assert BodyText([p] + tail) + [quote] == PieceText(p) + (BodyText(tail) + [quote]);
    }
  }

  lemma BodyOfMore(p: Piece, body: seq<Piece>)
    ensures BodyText([p] + body) == PieceText(p) + BodyText(body)
    ensures BodyValue([p] + body) == PieceValue(p) + BodyValue(body)
  {
    assert ([p] + body)[1..] == body;
  }

  /** The pieces a literal with this quote can be written with; a bare carriage return must not meet a line feed. */
  predicate BodyValid(quote: char, body: seq<Piece>) {
    && (forall i :: 0 <= i < |body| ==>
          && (body[i].Plain? ==> body[i].c != quote && body[i].c != '\\')
          && (body[i].Escaped? ==> body[i].c != '\n' && body[i].c != '\r'))
    && (forall i :: 0 <= i < |body| - 1 && body[i] == ContinuedCr ==> body[i + 1] != Plain('\n'))
  }

  lemma {:induction false} BodyReadsBack(quote: char, body: seq<Piece>, after: string)
    requires Quote(quote) && BodyValid(quote, body)
    ensures ReadBody(quote, BodyText(body) + [quote] + after) == Some(body)
    decreases |body|
  {
    var s := BodyText(body) + [quote] + after;
    if body != [] {
      var p := body[0];
      var rest := BodyText(body[1..]) + [quote] + after;
      assert s == PieceText(p) + rest;
      BodyReadsBack(quote, body[1..], after);
      assert s[|PieceText(p)|..] == rest;
      if p == ContinuedCr {
        if |body| > 1 {
          assert body[1..][0] == body[1];
          FirstChar(body[1]);
        }
        assert rest[0] != '\n';
      }
      assert FirstPiece(s) == Some(p);
      assert [p] + body[1..] == body;
    }
  }

  lemma FirstChar(p: Piece)
    requires p != Plain('\n')
    ensures PieceText(p)[0] != '\n'
  {
  }

  lemma {:induction false} ReadBodyValid(quote: char, s: string)
    requires Quote(quote) && ReadBody(quote, s).Some?
    ensures BodyValid(quote, ReadBody(quote, s).value)
    decreases |s|
  {
    if s[0] != quote {
      var p := FirstPiece(s).value;
      FirstPieceIsThere(s);
      var rest := s[|PieceText(p)|..];
      ReadBodyValid(quote, rest);
      var body := ReadBody(quote, s).value;
      var tail := ReadBody(quote, rest).value;
      assert body == [p] + tail;
      forall i | 0 <= i < |body| - 1 && body[i] == ContinuedCr
        ensures body[i + 1] != Plain('\n')
      {
        if i > 0 {
          assert tail[i - 1] == body[i] && tail[i] == body[i + 1];
        } else {
          assert tail[0] == FirstPiece(rest).value;
        }
      }
    }
  }

  /** A template is dynamic when a bare dollar sign stands right before a bare brace. */
  predicate Interpolates(body: seq<Piece>) {
    exists i :: 0 <= i < |body| - 1 && body[i] == Plain('$') && body[i + 1] == Plain('{')
  }

  function LiteralKind(quote: char, isStatic: bool): Kind {
    if quote == '`' && isStatic then StaticTemplate else if quote == '`' then DynamicTemplate else StringLiteral
  }

  function LiteralToken(quote: char, body: seq<Piece>): Token {
    Token(LiteralKind(quote, !Interpolates(body)), BodyValue(body))
  }

  // The items of a source.

  datatype Item =
    | Blank(c: char)
    | Line(text: string)
    | Block(text: string)
    | Word(name: string)
    | Mark(c: char)
    | Literal(quote: char, body: seq<Piece>)
    | Unclosed(text: string)

  function ItemText(item: Item): string {
    match item
    case Blank(c) => [c]
    case Line(text) => "//" + text + "\n"
    case Block(text) => "/*" + text + "*/"
    case Word(name) => name
    case Mark(c) => [c]
    case Literal(quote, body) => [quote] + BodyText(body) + [quote]
    case Unclosed(text) => text
  }

  /** Only words, marks and closed literals mean anything. */
  function ItemTokens(item: Item): seq<Token> {
    match item
    case Word(name) => [Token(Identifier, name)]
    case Mark(c) => [Token(Punctuation, [c])]
    case Literal(quote, body) => [LiteralToken(quote, body)]
    case _ => []
  }

  function NewlineIn(s: string): nat
    ensures NewlineIn(s) <= |s|
    ensures forall i :: 0 <= i < NewlineIn(s) ==> s[i] != '\n'
    ensures NewlineIn(s) < |s| ==> s[NewlineIn(s)] == '\n'
  {
    if s == [] || s[0] == '\n' then 0 else 1 + NewlineIn(s[1..])
  }

  predicate Closes(s: string, i: int) {
    0 <= i && i + 1 < |s| && s[i] == '*' && s[i + 1] == '/'
  }

  /** Where a block comment closes; the length of the text if it does not. */
  function CloseIn(s: string): nat
    ensures CloseIn(s) <= |s|
    ensures forall i :: 0 <= i < CloseIn(s) ==> !Closes(s, i)
    ensures CloseIn(s) < |s| ==> Closes(s, CloseIn(s))
  {
    if s == [] || Closes(s, 0) then 0
    else
      assert forall i :: 1 <= i ==> (Closes(s, i) <==> Closes(s[1..], i - 1));
      1 + CloseIn(s[1..])
  }

  function WordIn(s: string): nat
    ensures WordIn(s) <= |s|
    ensures forall i :: 0 <= i < WordIn(s) ==> WordChar(s[i])
    ensures WordIn(s) < |s| ==> !WordChar(s[WordIn(s)])
  {
    if s == [] || !WordChar(s[0]) then 0 else 1 + WordIn(s[1..])
  }

  function CommentItem(s: string): Item
    requires |s| >= 2
  {
    if s[1] == '/' then
      var n := NewlineIn(s[2..]);
      if n == |s| - 2 then Unclosed(s) else Line(s[2..][..n])
    else
      var n := CloseIn(s[2..]);
      if n == |s| - 2 then Unclosed(s) else Block(s[2..][..n])
  }

  /** The item at the front of a source. */
  function FirstItem(s: string): Item
    requires s != []
  {
    var c := s[0];
    if Space(c) then Blank(c)
    else if c == '/' && |s| > 1 && (s[1] == '/' || s[1] == '*') then CommentItem(s)
    else if Quote(c) then
      var body := ReadBody(c, s[1..]);
      if body.None? then Unclosed(s) else Literal(c, body.value)
    else if WordStart(c) then Word(s[..WordIn(s)])
    else Mark(c)
  }

  lemma FirstItemIsThere(s: string)
    requires s != []
    ensures |ItemText(FirstItem(s))| > 0 && ItemText(FirstItem(s)) <= s
  {
    var c := s[0];
    if Quote(c) && ReadBody(c, s[1..]).Some? {
      LiteralIsThere(s);
    } else if c == '/' && |s| > 1 && (s[1] == '/' || s[1] == '*') {
      hide CommentItem, ReadBody, WordIn;
      CommentIsThere(s);
    } else {
      hide CommentItem, ReadBody;
    }
  }

  lemma LiteralIsThere(s: string)
    requires s != [] && Quote(s[0]) && ReadBody(s[0], s[1..]).Some?
    ensures ItemText(Literal(s[0], ReadBody(s[0], s[1..]).value)) <= s
  {
    BodyIsThere(s[0], s[1..]);
    var text := BodyText(ReadBody(s[0], s[1..]).value) + [s[0]];
    hide ReadBody, BodyText;
    assert s == [s[0]] + s[1..];
    assert [s[0]] + text <= [s[0]] + s[1..];
  }

  lemma CommentIsThere(s: string)
    requires |s| > 1 && s[0] == '/' && (s[1] == '/' || s[1] == '*')
    ensures |ItemText(CommentItem(s))| > 0 && ItemText(CommentItem(s)) <= s
  {
    var t := s[2..];
    hide ReadBody, BodyText;
    if s[1] == '/' {
      var n := NewlineIn(t);
      hide NewlineIn, CloseIn;
      if n < |t| {
        CutAt(s, "//", n, "\n");
      }
    } else {
      var n := CloseIn(t);
      hide NewlineIn, CloseIn;
      if n < |t| {
        CutAt(s, "/*", n, "*/");
      }
    }
  }

  lemma CutAt(s: string, opening: string, n: nat, closing: string)
    requires |s| >= |opening| && s[..|opening|] == opening
    requires n + |closing| <= |s| - |opening| && s[|opening|..][n..n + |closing|] == closing
    ensures opening + s[|opening|..][..n] + closing <= s
  {
    var t := s[|opening|..];
    assert s == opening + t;
    assert t == t[..n] + (t[n..n + |closing|] + t[n + |closing|..]);
  }

  /** A source taken apart. */
  function Items(s: string): seq<Item>
    decreases |s|
  {
    if s == [] then []
    else
      FirstItemIsThere(s);
      [FirstItem(s)] + Items(s[|ItemText(FirstItem(s))|..])
  }

  function SourceText(items: seq<Item>): string {
    if items == [] then [] else ItemText(items[0]) + SourceText(items[1..])
  }

  function Tokens(items: seq<Item>): seq<Token> {
    if items == [] then [] else ItemTokens(items[0]) + Tokens(items[1..])
  }

  lemma TextOfMore(item: Item, items: seq<Item>)
    ensures SourceText([item] + items) == ItemText(item) + SourceText(items)
  {
    assert ([item] + items)[1..] == items;
  }

  /** Nothing is lost: the items put together again are the source. */
  lemma {:induction false} ItemsCoverSource(s: string)
    ensures SourceText(Items(s)) == s
    decreases |s|
  {
    if s != [] {
      FirstItemIsThere(s);
      hide FirstItem, ItemText, SourceText;
      var text := ItemText(FirstItem(s));
      ItemsCoverSource(s[|text|..]);
      TextOfMore(FirstItem(s), Items(s[|text|..]));
      assert s == text + s[|text|..];
    }
  }

  // When items may stand side by side.

  predicate NoClose(text: string) {
    forall i :: 0 <= i < |text| ==> !Closes(text, i)
  }

  predicate ItemValid(item: Item) {
    match item
    case Blank(c) => Space(c)
    case Line(text) => '\n' !in text
    case Block(text) => NoClose(text)
    case Word(name) => name != [] && WordStart(name[0]) && forall i :: 0 <= i < |name| ==> WordChar(name[i])
    case Mark(c) => !Space(c) && !Quote(c) && !WordStart(c)
    case Literal(quote, body) => Quote(quote) && BodyValid(quote, body)
    case Unclosed(text) => text != [] && FirstItem(text) == item
  }

  /** What must not follow: a word must end, a slash must not become a comment, and nothing comes after the end. */
  predicate MayPrecede(item: Item, after: string) {
    match item
    case Word(_) => after == [] || !WordChar(after[0])
    case Mark(c) => c == '/' ==> after == [] || (after[0] != '/' && after[0] != '*')
    case Unclosed(_) => after == []
    case _ => true
  }

  predicate WellFormed(items: seq<Item>) {
    items == [] ||
    (ItemValid(items[0]) && MayPrecede(items[0], SourceText(items[1..])) && WellFormed(items[1..]))
  }

  lemma CommentValid(s: string)
    requires |s| > 1 && s[0] == '/' && (s[1] == '/' || s[1] == '*')
    ensures CommentItem(s) != Unclosed(s) ==> ItemValid(CommentItem(s))
    ensures CommentItem(s).Line? || CommentItem(s).Block? || CommentItem(s) == Unclosed(s)
  {
    var t := s[2..];
    if s[1] == '*' {
      var n := CloseIn(t);
      forall i | 0 <= i < n
        ensures !Closes(t[..n], i)
      {
        assert !Closes(t, i);
      }
    }
  }

  lemma FirstItemValid(s: string)
    requires s != []
    ensures |ItemText(FirstItem(s))| <= |s|
    ensures ItemValid(FirstItem(s)) && MayPrecede(FirstItem(s), s[|ItemText(FirstItem(s))|..])
  {
    FirstItemIsThere(s);
    var c := s[0];
    if Quote(c) {
      if ReadBody(c, s[1..]).Some? {
        ReadBodyValid(c, s[1..]);
      }
    } else if c == '/' && |s| > 1 && (s[1] == '/' || s[1] == '*') {
      CommentValid(s);
    }
  }

  /** Taking a source apart yields items that may stand side by side. */
  lemma {:induction false} ItemsWellFormed(s: string)
    ensures WellFormed(Items(s))
    decreases |s|
  {
    if s != [] {
      FirstItemIsThere(s);
      FirstItemValid(s);
      var rest := s[|ItemText(FirstItem(s))|..];
      ItemsWellFormed(rest);
      ItemsCoverSource(rest);
      hide FirstItem, ItemText, ItemValid, MayPrecede;
      assert Items(s)[1..] == Items(rest);
    }
  }

  lemma {:induction false} NewlineAt(text: string, after: string)
    requires '\n' !in text
    ensures NewlineIn(text + "\n" + after) == |text|
  {
    var s := text + "\n" + after;
    assert s[|text|] == '\n';
    assert forall i :: 0 <= i < |text| ==> s[i] == text[i];
  }

  lemma {:induction false} CloseAt(text: string, after: string)
    requires NoClose(text)
    ensures CloseIn(text + "*/" + after) == |text|
  {
    var s := text + "*/" + after;
    assert Closes(s, |text|);
    forall i | 0 <= i < |text|
      ensures !Closes(s, i)
    {
      assert !Closes(text, i) && s[i] == text[i];
      assert s[i + 1] == if i + 1 < |text| then text[i + 1] else '*';
    }
  }

  lemma {:induction false} WordAt(name: string, after: string)
    requires forall i :: 0 <= i < |name| ==> WordChar(name[i])
    requires after == [] || !WordChar(after[0])
    ensures WordIn(name + after) == |name|
  {
    var s := name + after;
    assert forall i :: 0 <= i < |name| ==> s[i] == name[i];
    assert after != [] ==> s[|name|] == after[0];
  }

  lemma LineReadsBack(text: string, after: string)
    requires '\n' !in text
    ensures FirstItem("//" + text + "\n" + after) == Line(text)
  {
    var s := "//" + text + "\n" + after;
    var t := text + "\n" + after;
    assert s == "//" + t;
    assert s[2..] == t;
    NewlineAt(text, after);
    assert t[..|text|] == text;
    hide NewlineIn, CloseIn, ReadBody, WordIn;
    assert CommentItem(s) == Line(text);
  }

  lemma BlockReadsBack(text: string, after: string)
    requires NoClose(text)
    ensures FirstItem("/*" + text + "*/" + after) == Block(text)
  {
    var s := "/*" + text + "*/" + after;
    var t := text + "*/" + after;
    assert s == "/*" + t;
    assert s[2..] == t;
    CloseAt(text, after);
    assert t[..|text|] == text;
    hide NewlineIn, CloseIn, ReadBody, WordIn, NoClose;
    assert CommentItem(s) == Block(text);
  }

  lemma LiteralReadsBack(quote: char, body: seq<Piece>, after: string)
    requires Quote(quote) && BodyValid(quote, body)
    ensures FirstItem(ItemText(Literal(quote, body)) + after) == Literal(quote, body)
  {
    var s := ItemText(Literal(quote, body)) + after;
    assert s[1..] == BodyText(body) + [quote] + after;
    BodyReadsBack(quote, body, after);
  }

  lemma FirstItemReadsBack(item: Item, after: string)
    requires ItemValid(item) && MayPrecede(item, after)
    ensures ItemText(item) != [] && FirstItem(ItemText(item) + after) == item
  {
    var s := ItemText(item) + after;
    match item
    case Line(text) => LineReadsBack(text, after);
    case Block(text) => BlockReadsBack(text, after);
    case Literal(quote, body) => LiteralReadsBack(quote, body, after);
    case Word(name) =>
      WordAt(name, after);
      assert s[0] == name[0] && s[..|name|] == name;
    case Unclosed(text) => assert s == text;
    case Mark(c) => assert s[1..] == after;
    case Blank(c) =>
  }

  /** Any list of items that may stand side by side is read back item by item: nothing inside a literal or a comment
    * is taken for anything else, and no separator is lost. */
  lemma {:induction false} ItemsReadBack(items: seq<Item>)
    requires WellFormed(items)
    ensures Items(SourceText(items)) == items
    decreases |items|
  {
    if items != [] {
      var rest := SourceText(items[1..]);
      FirstItemReadsBack(items[0], rest);
      ItemsReadBack(items[1..]);
      hide FirstItem, ItemText, ItemValid, MayPrecede, WellFormed;
      OneMoreItem(items[0], rest);
      assert items == [items[0]] + items[1..];
    }
  }

  lemma OneMoreItem(item: Item, rest: string)
    requires ItemText(item) != [] && FirstItem(ItemText(item) + rest) == item
    ensures Items(ItemText(item) + rest) == [item] + Items(rest)
  {
    hide FirstItem, ItemText;
    var s := ItemText(item) + rest;
    assert s[|ItemText(item)|..] == rest;
  }

  // The scanner.

  function Prepended(done: seq<Piece>, rest: Option<seq<Piece>>): Option<seq<Piece>> {
    if rest.None? then None else Some(done + rest.value)
  }

  /** The character written behind the i-th piece. */
  function Behind(done: seq<Piece>, i: nat, rest: string): Option<char>
    requires i < |done|
  {
    if i + 1 < |done| then Some(PieceText(done[i + 1])[0])
    else if rest == [] then None
    else Some(rest[0])
  }

  ghost predicate InterpolatesBy(done: seq<Piece>, rest: string) {
    exists i :: 0 <= i < |done| && done[i] == Plain('$') && Behind(done, i, rest) == Some('{')
  }

  lemma DollarBeforeQuote(done: seq<Piece>, rest: string)
    requires rest != [] && rest[0] != '{'
    ensures InterpolatesBy(done, rest) <==> Interpolates(done)
  {
    forall i | 0 <= i < |done| - 1
      ensures Behind(done, i, rest) == Some('{') <==> done[i + 1] == Plain('{')
    {
    }
    if InterpolatesBy(done, rest) {
      var i :| 0 <= i < |done| && done[i] == Plain('$') && Behind(done, i, rest) == Some('{');
      assert i < |done| - 1;
    }
    if Interpolates(done) {
      var i :| 0 <= i < |done| - 1 && done[i] == Plain('$') && done[i + 1] == Plain('{');
      assert Behind(done, i, rest) == Some('{');
    }
  }

  lemma {:induction false} BodyAppend(done: seq<Piece>, p: Piece)
    ensures BodyText(done + [p]) == BodyText(done) + PieceText(p)
    ensures BodyValue(done + [p]) == BodyValue(done) + PieceValue(p)
  {
    hide PieceText, PieceValue;
    if done == [] {
      assert [] + [p] == [p] && [p][1..] == [];
    } else {
      hide ReadBody, FirstPiece;
      BodyAppend(done[1..], p);
      BodyOfMore(done[0], done[1..]);
      BodyOfMore(done[0], done[1..] + [p]);
      assert [done[0]] + done[1..] == done;
      assert [done[0]] + (done[1..] + [p]) == done + [p];
      hide BodyText, BodyValue;
    }
  }

  lemma DollarTaken(done: seq<Piece>, p: Piece, s: string)
    requires s != [] && FirstPiece(s) == Some(p) && PieceText(p) <= s
    ensures var rest := s[|PieceText(p)|..];
      InterpolatesBy(done + [p], rest) <==>
        InterpolatesBy(done, s) || (p == Plain('$') && rest != [] && rest[0] == '{')
  {
    var rest := s[|PieceText(p)|..];
    var all := done + [p];
    assert PieceText(p)[0] == s[0];
    forall i | 0 <= i < |done|
      ensures all[i] == done[i] && Behind(all, i, rest) == Behind(done, i, s)
    {
    }
    if InterpolatesBy(done, s) {
      var i :| 0 <= i < |done| && done[i] == Plain('$') && Behind(done, i, s) == Some('{');
      assert all[i] == Plain('$') && Behind(all, i, rest) == Some('{');
    }
    if p == Plain('$') && rest != [] && rest[0] == '{' {
      assert all[|done|] == Plain('$') && Behind(all, |done|, rest) == Some('{');
    }
  }

  lemma PieceTaken(done: seq<Piece>, p: Piece, quote: char, s: string)
    requires s != [] && s[0] != quote && FirstPiece(s) == Some(p)
    ensures PieceText(p) <= s
    ensures BodyText(done + [p]) == BodyText(done) + PieceText(p)
    ensures BodyValue(done + [p]) == BodyValue(done) + PieceValue(p)
    ensures var rest := s[|PieceText(p)|..];
      && Prepended(done, ReadBody(quote, s)) == Prepended(done + [p], ReadBody(quote, rest))
      && (InterpolatesBy(done + [p], rest) <==>
            InterpolatesBy(done, s) || (p == Plain('$') && rest != [] && rest[0] == '{'))
  {
    FirstPieceIsThere(s);
    BodyAppend(done, p);
    DollarTaken(done, p, s);
    var rest := ReadBody(quote, s[|PieceText(p)|..]);
    if rest.Some? {
      assert done + ([p] + rest.value) == done + [p] + rest.value;
    }
  }

  lemma BodyEnds(quote: char, s: string)
    ensures s != [] && s[0] == quote ==> ReadBody(quote, s) == Some([])
    ensures s == [] || (s[0] != quote && FirstPiece(s).None?) ==> ReadBody(quote, s) == None
  {
  }

  lemma NothingDone(quote: char, s: string)
    ensures Prepended([], ReadBody(quote, s)) == ReadBody(quote, s) && !InterpolatesBy([], s)
  {
    assert ReadBody(quote, s).Some? ==> [] + ReadBody(quote, s).value == ReadBody(quote, s).value;
  }

  /** One piece read: a plain character stands for itself, an escape for one character, a continued line for none. */
  method ReadPiece(source: string, start: nat) returns (value: string, next: nat)
    requires start < |source| && FirstPiece(source[start..]).Some?
    ensures var p := FirstPiece(source[start..]).value;
      value == PieceValue(p) && next == start + |PieceText(p)| <= |source|
  {
    if source[start] != '\\' {
      return [source[start]], start + 1;
    }
    var escaped := source[start + 1];
    if escaped == '\n' {
      return [], start + 2;
    }
    if escaped == '\r' {
      if start + 2 < |source| && source[start + 2] == '\n' {
        return [], start + 3;
      }
      return [], start + 2;
    }
    value, next := [Unescaped(escaped)], start + 2;
  }

  /** Inside a literal: these pieces are read, and this is what has been made of them. */
  ghost predicate Reading(source: string, start: nat, current: nat, done: seq<Piece>, value: string, isStatic: bool) {
    && start < current <= |source|
    && Quote(source[start])
    && current == start + 1 + |BodyText(done)|
    && value == BodyValue(done)
    && ReadBody(source[start], source[start + 1..]) == Prepended(done, ReadBody(source[start], source[current..]))
    && (source[start] == '`' ==> (isStatic <==> !InterpolatesBy(done, source[current..])))
  }

  /** A substitution opens here, if this is a template. */
  predicate Opens(source: string, current: nat) {
    current + 1 < |source| && source[current] == '$' && source[current + 1] == '{'
  }

  lemma ReadingStarts(source: string, start: nat)
    requires start < |source| && Quote(source[start])
    ensures Reading(source, start, start + 1, [], [], true)
  {
    NothingDone(source[start], source[start + 1..]);
  }

  lemma ReadingGoesOn(
      source: string, start: nat, current: nat, done: seq<Piece>, value: string, isStatic: bool, p: Piece)
    requires Reading(source, start, current, done, value, isStatic)
    requires current < |source| && source[current] != source[start] && FirstPiece(source[current..]) == Some(p)
    ensures current < current + |PieceText(p)| <= |source|
    ensures var next := current + |PieceText(p)|;
      Reading(source, start, next, done + [p], value + PieceValue(p),
              isStatic && !(source[start] == '`' && Opens(source, current)))
  {
    var s := source[current..];
    PieceTaken(done, p, source[start], s);
    hide ReadBody, BodyText, BodyValue, InterpolatesBy, PieceText, Prepended;
    assert source[current + |PieceText(p)|..] == s[|PieceText(p)|..];
  }

  lemma ReadingCloses(source: string, start: nat, current: nat, done: seq<Piece>, value: string, isStatic: bool)
    requires Reading(source, start, current, done, value, isStatic)
    requires current < |source| && source[current] == source[start]
    ensures ReadBody(source[start], source[start + 1..]) == Some(done) && current == start + 1 + |BodyText(done)|
    ensures Token(LiteralKind(source[start], isStatic), value) == LiteralToken(source[start], done)
  {
    BodyEnds(source[start], source[current..]);
    DollarBeforeQuote(done, source[current..]);
    assert done + [] == done;
  }

  lemma ReadingFails(source: string, start: nat, current: nat, done: seq<Piece>, value: string, isStatic: bool)
    requires Reading(source, start, current, done, value, isStatic)
    requires current == |source| || (source[current] != source[start] && FirstPiece(source[current..]).None?)
    ensures ReadBody(source[start], source[start + 1..]).None?
  {
    BodyEnds(source[start], source[current..]);
  }

  lemma PieceMissing(source: string, current: nat)
    requires current < |source|
    ensures FirstPiece(source[current..]).None? <==> source[current] == '\\' && current + 1 == |source|
  {
  }

  /** One more piece of a literal taken in. */
  method ReadOn(source: string, start: nat, current: nat, characters: string, isStatic: bool, ghost done: seq<Piece>)
    returns (current': nat, characters': string, isStatic': bool, ghost done': seq<Piece>)
    requires Reading(source, start, current, done, characters, isStatic)
    requires start < current < |source| && source[current] != source[start] && FirstPiece(source[current..]).Some?
    ensures current < current' <= |source| && Reading(source, start, current', done', characters', isStatic')
  {
    hide *;
    ghost var s := source[current..];
    ghost var p := FirstPiece(s).value;
    var value, behind := ReadPiece(source, current);
    ReadingGoesOn(source, start, current, done, characters, isStatic, p);
    done' := done + [p];
    isStatic' := isStatic && !(source[start] == '`' && Opens(source, current));
    characters' := characters + value;
    current' := behind;
  }

  /** A literal read from its opening quote: its token and the place behind it, or nothing and the end. */
  method ReadLiteral(source: string, start: nat) returns (token: Option<Token>, next: nat)
    requires start < |source| && Quote(source[start])
    ensures var body := ReadBody(source[start], source[start + 1..]);
      if body.None? then token.None? && next == |source|
      else token == Some(LiteralToken(source[start], body.value)) && next == start + |BodyText(body.value)| + 2
  {
    var quote := source[start];
    var current := start + 1;
    var characters: string := [];
    var isStatic := true;
    ghost var done: seq<Piece> := [];
    ReadingStarts(source, start);
    hide *;
    while current < |source|
      invariant start < current <= |source|
      invariant Reading(source, start, current, done, characters, isStatic)
    {
      PieceMissing(source, current);
      if source[current] == quote {
        ReadingCloses(source, start, current, done, characters, isStatic);
        return Some(Token(LiteralKind(quote, isStatic), characters)), current + 1;
      }
      if source[current] == '\\' && current + 1 >= |source| {
        ReadingFails(source, start, current, done, characters, isStatic);
        return None, |source|;
      }
      current, characters, isStatic, done := ReadOn(source, start, current, characters, isStatic, done);
    }
    ReadingFails(source, start, current, done, characters, isStatic);
    token, next := None, |source|;
  }

  lemma TokensOfMore(item: Item, items: seq<Item>)
    ensures Tokens([item] + items) == ItemTokens(item) + Tokens(items)
  {
    assert ([item] + items)[1..] == items;
  }

  /** Part of the source is read, and this is what it came to. */
  ghost predicate Scanned(source: string, current: nat, tokens: seq<Token>) {
    current <= |source| && Tokens(Items(source)) == tokens + Tokens(Items(source[current..]))
  }

  lemma ItemsOf(s: string)
    requires s != []
    ensures var item := FirstItem(s);
      && 0 < |ItemText(item)| <= |s|
      && Tokens(Items(s)) == ItemTokens(item) + Tokens(Items(s[|ItemText(item)|..]))
  {
    FirstItemIsThere(s);
    hide FirstItem, ItemText, ItemTokens, Tokens;
    TokensOfMore(FirstItem(s), Items(s[|ItemText(FirstItem(s))|..]));
  }

  lemma Grouped(a: seq<Token>, b: seq<Token>, c: seq<Token>)
    ensures a + (b + c) == (a + b) + c
  {
  }

  lemma ScannedOn(source: string, current: nat, tokens: seq<Token>)
    requires Scanned(source, current, tokens) && current < |source|
    ensures var item := FirstItem(source[current..]);
      && current < current + |ItemText(item)| <= |source|
      && Scanned(source, current + |ItemText(item)|, tokens + ItemTokens(item))
  {
    hide FirstItem, ItemText, ItemTokens, Items, Tokens;
    var s := source[current..];
    ItemsOf(s);
    var n := |ItemText(FirstItem(s))|;
    assert source[current + n..] == s[n..];
    Grouped(tokens, ItemTokens(FirstItem(s)), Tokens(Items(s[n..])));
  }

  lemma ScannedFromStart(source: string)
    ensures Scanned(source, 0, [])
  {
    assert source[0..] == source;
    hide Items, Tokens;
    assert [] + Tokens(Items(source)) == Tokens(Items(source));
  }

  lemma ScannedToEnd(source: string, tokens: seq<Token>)
    requires Scanned(source, |source|, tokens)
    ensures tokens == Tokens(Items(source))
  {
    assert source[|source|..] == [];
    assert Items([]) == [] && Tokens([]) == [];
    hide Items, Tokens;
    assert tokens + [] == tokens;
  }

  /** The end of the line from a given place on; the end of the source if there is none. */
  method FindLineEnd(source: string, start: nat) returns (index: nat)
    requires start <= |source|
    ensures index == start + NewlineIn(source[start..])
  {
    index := start;
    while index < |source| && source[index] != '\n'
      invariant start <= index <= |source|
      invariant start + NewlineIn(source[start..]) == index + NewlineIn(source[index..])
    {
      assert source[index..][1..] == source[index + 1..];
      index := index + 1;
    }
  }

  method FindClose(source: string, start: nat) returns (index: nat)
    requires start <= |source|
    ensures index == start + CloseIn(source[start..])
  {
    index := start;
    while index < |source| && !(index + 1 < |source| && source[index] == '*' && source[index + 1] == '/')
      invariant start <= index <= |source|
      invariant start + CloseIn(source[start..]) == index + CloseIn(source[index..])
    {
      assert source[index..][1..] == source[index + 1..];
      index := index + 1;
    }
  }

  /** A word extended as far as it goes. */
  method FindWordEnd(source: string, start: nat) returns (end: nat)
    requires start < |source| && WordStart(source[start])
    ensures end == start + WordIn(source[start..])
  {
    end := start + 1;
    assert source[start..][1..] == source[end..];
    while end < |source|
      invariant start < end <= |source|
      invariant start + WordIn(source[start..]) == end + WordIn(source[end..])
    {
      if !WordChar(source[end]) {
        break;
      }
      assert source[end..][1..] == source[end + 1..];
      end := end + 1;
    }
  }

  /** A comment skipped: behind its end, or to the end of the source. */
  method SkipComment(source: string, start: nat) returns (next: nat)
    requires start + 1 < |source| && source[start] == '/' && (source[start + 1] == '/' || source[start + 1] == '*')
    ensures next == start + |ItemText(FirstItem(source[start..]))|
    ensures ItemTokens(FirstItem(source[start..])) == []
  {
    var s := source[start..];
    assert s[2..] == source[start + 2..];
    if source[start + 1] == '/' {
      var index := FindLineEnd(source, start + 2);
      next := if index == |source| then index else index + 1;
    } else {
      var index := FindClose(source, start + 2);
      next := if index == |source| then index else index + 2;
    }
  }

  predicate CommentStarts(source: string, current: nat) {
    && current + 1 < |source|
    && source[current] == '/'
    && (source[current + 1] == '/' || source[current + 1] == '*')
  }

  lemma ItemAt(source: string, current: nat)
    requires current < |source|
    ensures var item := FirstItem(source[current..]); var c := source[current];
      && (Space(c) ==> item == Blank(c))
      && (Quote(c) ==> item == var body := ReadBody(c, source[current + 1..]);
                               if body.None? then Unclosed(source[current..]) else Literal(c, body.value))
      && (WordStart(c) ==> item == Word(source[current..current + WordIn(source[current..])]))
      && (!Space(c) && !Quote(c) && !WordStart(c) && !CommentStarts(source, current) ==> item == Mark(c))
  {
    var s := source[current..];
    assert s[1..] == source[current + 1..];
    assert s[..WordIn(s)] == source[current..current + WordIn(s)];
    hide ReadBody, WordIn, CommentItem;
  }

  /** The item at one place: the tokens it yields, and the place behind it. */
  method ScanItem(source: string, start: nat) returns (found: seq<Token>, next: nat)
    requires start < |source|
    ensures var item := FirstItem(source[start..]); found == ItemTokens(item) && next == start + |ItemText(item)|
  {
    ItemAt(source, start);
    hide FirstItem, ReadBody, WordIn, BodyText, LiteralToken;
    var c := source[start];
    if Space(c) {
      return [], start + 1;
    }
    if CommentStarts(source, start) {
      next := SkipComment(source, start);
      return [], next;
    }
    if Quote(c) {
      var token, behind := ReadLiteral(source, start);
      return if token.Some? then [token.value] else [], behind;
    }
    if WordStart(c) {
      var end := FindWordEnd(source, start);
      return [Token(Identifier, source[start..end])], end;
    }
    found, next := [Token(Punctuation, [c])], start + 1;
  }

  /** The whole source scanned in one pass. */
  method Tokenize(source: string) returns (tokens: seq<Token>)
    ensures tokens == Tokens(Items(source))
  {
    tokens := [];
    var current := 0;
    ScannedFromStart(source);
    hide Scanned, FirstItem, ItemText, ItemTokens;
    while current < |source|
      invariant current <= |source| && Scanned(source, current, tokens)
    {
      ScannedOn(source, current, tokens);
      var found, next := ScanItem(source, current);
      tokens := tokens + found;
      current := next;
    }
    ScannedToEnd(source, tokens);
  }

  /** What the scanner makes of a written source: exactly the tokens of its items, whatever stands between them and
    * whatever their literals and comments contain. */
  lemma RenderedTokens(items: seq<Item>)
    requires WellFormed(items)
    ensures Tokens(Items(SourceText(items))) == Tokens(items)
  {
    ItemsReadBack(items);
  }

  /** Every source is such a list, and only one. */
  lemma EverySourceHasOneReading(s: string, items: seq<Item>)
    ensures WellFormed(Items(s)) && SourceText(Items(s)) == s
    ensures WellFormed(items) && SourceText(items) == s ==> items == Items(s)
  {
    ItemsWellFormed(s);
    ItemsCoverSource(s);
    if WellFormed(items) {
      ItemsReadBack(items);
    }
  }
}
