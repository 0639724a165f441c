/** The titles of the Vitest declarations in a scanned source. */
module VitestTitles {
  import opened Bytes
  import opened JsScanner

  // Matching parentheses, which are told by a token's value alone.

  function Depth(t: Token): int {
    if t.value == "(" then 1 else if t.value == ")" then -1 else 0
  }

  /** The nesting after some tokens. */
  function Nesting(tokens: seq<Token>): int {
    if tokens == [] then 0 else Nesting(tokens[..|tokens| - 1]) + Depth(tokens[|tokens| - 1])
  }

  /** A closing parenthesis that brings the nesting back to nothing. */
  predicate ClosesAt(tokens: seq<Token>, opening: nat, k: nat) {
    opening <= k < |tokens| && tokens[k].value == ")" && Nesting(tokens[opening..k + 1]) == 0
  }

  /** The first place that closes the parenthesis opened at the given one. */
  method FindMatching(tokens: seq<Token>, opening: nat) returns (index: Option<nat>)
    requires opening <= |tokens|
    ensures index.Some? ==>
      ClosesAt(tokens, opening, index.value) && forall k :: opening <= k < index.value ==> !ClosesAt(tokens, opening, k)
    ensures index.None? ==> forall k :: opening <= k < |tokens| ==> !ClosesAt(tokens, opening, k)
  {
    var depth := 0;
    assert tokens[opening..opening] == [];
    for k := opening to |tokens|
      invariant depth == Nesting(tokens[opening..k])
      invariant forall j :: opening <= j < k ==> !ClosesAt(tokens, opening, j)
    {
      assert tokens[opening..k + 1][..k - opening] == tokens[opening..k];
      if tokens[k].value == "(" {
        depth := depth + 1;
      } else if tokens[k].value == ")" {
        depth := depth - 1;
        if depth == 0 {
          return Some(k);
        }
      }
    }
    index := None;
  }

  function Matching(tokens: seq<Token>, opening: nat): Option<nat>
    requires opening <= |tokens|
  {
    MatchingFrom(tokens, opening, opening)
  }

  function MatchingFrom(tokens: seq<Token>, opening: nat, k: nat): (r: Option<nat>)
    requires opening <= k <= |tokens|
    ensures r.Some? ==> ClosesAt(tokens, opening, r.value) && r.value >= k
    ensures r.Some? ==> forall j :: k <= j < r.value ==> !ClosesAt(tokens, opening, j)
    ensures r.None? ==> forall j :: k <= j < |tokens| ==> !ClosesAt(tokens, opening, j)
    decreases |tokens| - k
  {
    if k == |tokens| then None
    else if ClosesAt(tokens, opening, k) then Some(k)
    else MatchingFrom(tokens, opening, k + 1)
  }

  // The title of a call.

  predicate Modifier(name: string) {
    || name == "concurrent" || name == "each" || name == "fails" || name == "only"
    || name == "sequential" || name == "skip" || name == "todo"
  }

  /** A dot and a name from here on. */
  predicate MemberAt(tokens: seq<Token>, i: nat) {
    i + 1 < |tokens| && tokens[i].value == "." && tokens[i + 1].kind == Identifier
  }

  datatype Chain = Chain(next: nat, each: bool) | Foreign

  /** The chain of modifiers from here on: where it ends, and whether it has a table; foreign names spoil it. */
  function ModifierChain(tokens: seq<Token>, i: nat, each: bool): (r: Chain)
    ensures r.Chain? ==> r.next >= i && (i <= |tokens| ==> r.next <= |tokens|)
    decreases |tokens| - i
  {
    if !MemberAt(tokens, i) then Chain(i, each)
    else if !Modifier(tokens[i + 1].value) then Foreign
    else ModifierChain(tokens, i + 2, each || tokens[i + 1].value == "each")
  }

  /** Behind the table of an `each`, in parentheses or as a tagged template. */
  function BehindTable(tokens: seq<Token>, i: nat): (r: Option<nat>)
    requires i <= |tokens|
    ensures r.Some? ==> i < r.value <= |tokens|
  {
    if i == |tokens| then None
    else if tokens[i].value == "(" then
      var m := Matching(tokens, i);
      if m.None? then None else Some(m.value + 1)
    else if tokens[i].kind == StaticTemplate || tokens[i].kind == DynamicTemplate then Some(i + 1)
    else None
  }

  /** The first argument of the call from here on, if it is a fixed string. */
  function FixedArgument(tokens: seq<Token>, i: nat): Option<string> {
    if i + 1 >= |tokens| || tokens[i].value != "(" then None
    else if tokens[i + 1].kind != StringLiteral && tokens[i + 1].kind != StaticTemplate then None
    else Some(tokens[i + 1].value)
  }

  function Title(tokens: seq<Token>, test: nat): Option<string>
    requires test < |tokens|
  {
    var chain := ModifierChain(tokens, test + 1, false);
    if chain.Foreign? then None
    else if !chain.each then FixedArgument(tokens, chain.next)
    else
      var behind := BehindTable(tokens, chain.next);
      if behind.None? then None else FixedArgument(tokens, behind.value)
  }

  lemma MatchingIsFirst(tokens: seq<Token>, opening: nat, index: Option<nat>)
    requires opening <= |tokens|
    requires index.Some? ==>
      ClosesAt(tokens, opening, index.value) && forall k :: opening <= k < index.value ==> !ClosesAt(tokens, opening, k)
    requires index.None? ==> forall k :: opening <= k < |tokens| ==> !ClosesAt(tokens, opening, k)
    ensures Matching(tokens, opening) == index
  {
    var m := Matching(tokens, opening);
    if m.Some? && index.Some? {
      assert m.value >= index.value && index.value >= m.value;
    }
  }

  method ReadCallTitle(tokens: seq<Token>, test: nat) returns (title: Option<string>)
    requires test < |tokens|
    ensures title == Title(tokens, test)
  {
    var current := test + 1;
    var usesEach := false;
    while MemberAt(tokens, current)
      invariant test < current <= |tokens|
      invariant ModifierChain(tokens, test + 1, false) == ModifierChain(tokens, current, usesEach)
      decreases |tokens| - current
    {
      var name := tokens[current + 1].value;
      if !Modifier(name) {
        return None;
      }
      usesEach := usesEach || name == "each";
      current := current + 2;
    }
    if usesEach {
      if current >= |tokens| {
        return None;
      }
      if tokens[current].value == "(" {
        var m := FindMatching(tokens, current);
        MatchingIsFirst(tokens, current, m);
        if m.None? {
          return None;
        }
        current := m.value + 1;
      } else if tokens[current].kind == StaticTemplate || tokens[current].kind == DynamicTemplate {
        current := current + 1;
      } else {
        return None;
      }
    }
    title := FixedArgument(tokens, current);
  }

  /** A name that declares a test, unless it is a member of something. */
  predicate DeclaresAt(tokens: seq<Token>, i: nat) {
    && i < |tokens|
    && tokens[i].kind == Identifier
    && (tokens[i].value == "it" || tokens[i].value == "test")
    && (i == 0 || tokens[i - 1].value != ".")
  }

  function Titles(tokens: seq<Token>, n: nat): seq<string>
    requires n <= |tokens|
  {
    if n == 0 then []
    else
      var before := Titles(tokens, n - 1);
      if DeclaresAt(tokens, n - 1) && Title(tokens, n - 1).Some? then before + [Title(tokens, n - 1).value] else before
  }

  /** All declarations of a source, in order. */
  method CollectDeclarations(source: string) returns (titles: seq<string>)
    ensures var tokens := Tokens(Items(source)); titles == Titles(tokens, |tokens|)
  {
    var tokens := Tokenize(source);
    titles := [];
    for i := 0 to |tokens|
      invariant titles == Titles(tokens, i)
    {
      if !DeclaresAt(tokens, i) {
        continue;
      }
      var title := ReadCallTitle(tokens, i);
      if title.Some? {
        titles := titles + [title.value];
      }
    }
  }

  // What a declaration looks like, and that it is found.

  function Dot(): Token { Token(Punctuation, ".") }

  function Open(): Token { Token(Punctuation, "(") }

  function Close(): Token { Token(Punctuation, ")") }

  function Named(name: string): Token { Token(Identifier, name) }

  function ModifierTokens(names: seq<string>): seq<Token> {
    if names == [] then [] else [Dot(), Named(names[0])] + ModifierTokens(names[1..])
  }

  lemma {:induction false} ModifierCount(names: seq<string>)
    ensures |ModifierTokens(names)| == 2 * |names|
  {
    if names != [] {
      ModifierCount(names[1..]);
    }
  }

  predicate AllModifiers(names: seq<string>) {
    forall i :: 0 <= i < |names| ==> Modifier(names[i])
  }

  /** Any chain of allowed modifiers is walked to its end. */
  lemma {:induction false} ChainIsWalked(pre: seq<Token>, names: seq<string>, post: seq<Token>, each: bool)
    requires AllModifiers(names) && !MemberAt(post, 0)
    ensures |ModifierTokens(names)| == 2 * |names|
    ensures ModifierChain(pre + ModifierTokens(names) + post, |pre|, each)
         == Chain(|pre| + 2 * |names|, each || "each" in names)
    decreases |names|
  {
    ModifierCount(names);
    var tokens := pre + ModifierTokens(names) + post;
    if names == [] {
      assert tokens == pre + post;
    } else {
      var step := [Dot(), Named(names[0])];
      var rest := names[1..];
      ChainIsWalked(pre + step, rest, post, each || names[0] == "each");
      assert tokens == (pre + step) + ModifierTokens(rest) + post;
      assert tokens[|pre|] == Dot() && tokens[|pre| + 1] == Named(names[0]);
      assert "each" in names <==> names[0] == "each" || "each" in rest;
    }
  }

  /** No literal that reads as a parenthesis. */
  predicate NoFakes(tokens: seq<Token>) {
    forall i :: 0 <= i < |tokens| && tokens[i].kind != Punctuation ==> Depth(tokens[i]) == 0
  }

  /** The nesting that the source's own parentheses make. */
  function TrueNesting(tokens: seq<Token>): int {
    if tokens == [] then 0
    else
      TrueNesting(tokens[..|tokens| - 1])
      + if tokens[|tokens| - 1].kind == Punctuation then Depth(tokens[|tokens| - 1]) else 0
  }

  /** Parentheses within that never close more than they opened, and in the end close all. */
  predicate Balanced(table: seq<Token>) {
    TrueNesting(table) == 0 && forall k :: 0 <= k <= |table| ==> TrueNesting(table[..k]) >= 0
  }

  lemma {:induction false} NestingIsTrue(tokens: seq<Token>)
    requires NoFakes(tokens)
    ensures Nesting(tokens) == TrueNesting(tokens)
  {
    if tokens != [] {
      NestingIsTrue(tokens[..|tokens| - 1]);
    }
  }

  lemma {:induction false} NestingAppend(xs: seq<Token>, ys: seq<Token>)
    ensures Nesting(xs + ys) == Nesting(xs) + Nesting(ys)
  {
    if ys == [] {
      assert xs + ys == xs;
    } else {
      NestingAppend(xs, ys[..|ys| - 1]);
      assert (xs + ys)[..|xs + ys| - 1] == xs + ys[..|ys| - 1];
    }
  }

  lemma OneNesting(t: Token)
    ensures Nesting([t]) == Depth(t)
  {
    assert [t][..0] == [];
  }

  lemma OpenNesting(tokens: seq<Token>)
    ensures Nesting([Open()] + tokens) == 1 + Nesting(tokens)
  {
    NestingAppend([Open()], tokens);
    assert [Open()][..0] == [];
  }

  /** The nesting as the code tells it comes back to nothing at the end, and never falls below before. */
  predicate ClosesItself(table: seq<Token>) {
    Nesting(table) == 0 && forall k :: 0 <= k <= |table| ==> Nesting(table[..k]) >= 0
  }

  lemma DepthsAddUp(tokens: seq<Token>, k: nat)
    requires k < |tokens|
    ensures Nesting(tokens[..k + 1]) == Nesting(tokens[..k]) + Depth(tokens[k])
  {
    assert tokens[..k + 1][..k] == tokens[..k];
  }

  /** The first fall below nothing is by one, and by a closing parenthesis. */
  lemma {:induction false} FirstFall(table: seq<Token>, k: nat) returns (j: nat)
    requires k <= |table| && Nesting(table[..k]) < 0
    ensures j < k && table[j].value == ")" && Nesting(table[..j + 1]) == -1
    decreases k
  {
    assert table[..0] == [];
    DepthsAddUp(table, k - 1);
    if Nesting(table[..k - 1]) < 0 {
      j := FirstFall(table, k - 1);
    } else {
      j := k - 1;
    }
  }

  lemma NestingInside(pre: seq<Token>, table: seq<Token>, post: seq<Token>, k: nat)
    requires k <= |table|
    ensures (pre + [Open()] + table + [Close()] + post)[|pre|..|pre| + 1 + k] == [Open()] + table[..k]
    ensures Nesting([Open()] + table[..k]) == 1 + Nesting(table[..k])
  {
    OpenNesting(table[..k]);
  }

  lemma Middle(pre: seq<Token>, call: seq<Token>, post: seq<Token>)
    ensures (pre + call + post)[|pre|..|pre| + |call|] == call
  {
  }

  lemma CallNesting(table: seq<Token>)
    ensures Nesting([Open()] + (table + [Close()])) == Nesting(table)
  {
    OpenNesting(table + [Close()]);
    NestingAppend(table, [Close()]);
    OneNesting(Close());
  }

  lemma NestingAtEnd(pre: seq<Token>, table: seq<Token>, post: seq<Token>)
    ensures var tokens := pre + [Open()] + table + [Close()] + post;
      Nesting(tokens[|pre|..|pre| + 2 + |table|]) == Nesting(table)
  {
    var call := [Open()] + (table + [Close()]);
    CallNesting(table);
    CallRegrouped(pre, table, post);
    Middle(pre, call, post);
    hide Nesting;
  }

  lemma CallRegrouped(pre: seq<Token>, table: seq<Token>, post: seq<Token>)
    ensures pre + [Open()] + table + [Close()] + post == pre + ([Open()] + (table + [Close()])) + post
    ensures |[Open()] + (table + [Close()])| == 2 + |table|
  {
  }

  /** A table is closed where it is written closed exactly if it closes itself: literals that read as parentheses
    * count, wherever they stand, and may make up for each other. */
  lemma TableIsClosed(pre: seq<Token>, table: seq<Token>, post: seq<Token>)
    ensures Matching(pre + [Open()] + table + [Close()] + post, |pre|) == Some(|pre| + 1 + |table|)
       <==> ClosesItself(table)
  {
    if ClosesItself(table) {
      ClosedAtItsEnd(pre, table, post);
    } else {
      ClosedElsewhere(pre, table, post);
    }
  }

  lemma ClosedAtItsEnd(pre: seq<Token>, table: seq<Token>, post: seq<Token>)
    requires ClosesItself(table)
    ensures Matching(pre + [Open()] + table + [Close()] + post, |pre|) == Some(|pre| + 1 + |table|)
  {
    var tokens := pre + [Open()] + table + [Close()] + post;
    var end := |pre| + 1 + |table|;
    NestingAtEnd(pre, table, post);
    hide Nesting, Matching;
    assert tokens[end] == Close();
    forall k | |pre| <= k < end
      ensures !ClosesAt(tokens, |pre|, k)
    {
      NestingInside(pre, table, post, k - |pre|);
    }
    MatchingIsFirst(tokens, |pre|, Some(end));
  }

  lemma ClosedElsewhere(pre: seq<Token>, table: seq<Token>, post: seq<Token>)
    requires !ClosesItself(table)
    ensures Matching(pre + [Open()] + table + [Close()] + post, |pre|) != Some(|pre| + 1 + |table|)
  {
    var tokens := pre + [Open()] + table + [Close()] + post;
    NestingAtEnd(pre, table, post);
    if Nesting(table) == 0 {
      var k :| 0 <= k <= |table| && Nesting(table[..k]) < 0;
      var j := FirstFall(table, k);
      NestingInside(pre, table, post, j + 1);
      hide Nesting;
      assert tokens[|pre| + 1 + j] == table[j];
      assert ClosesAt(tokens, |pre|, |pre| + 1 + j);
    }
  }

  /** So is a balanced table without such literals. */
  lemma BalancedClosesItself(table: seq<Token>)
    requires Balanced(table) && NoFakes(table)
    ensures ClosesItself(table)
  {
    NestingIsTrue(table);
    forall k | 0 <= k <= |table|
      ensures Nesting(table[..k]) >= 0
    {
      NestingIsTrue(table[..k]);
    }
  }

  predicate FixedTitle(t: Token) {
    t.kind == StringLiteral || t.kind == StaticTemplate
  }

  /** A call without a table yields its own title, whatever allowed modifiers it has. */
  lemma PlainCallYieldsItsTitle(pre: seq<Token>, test: Token, names: seq<string>, title: Token, post: seq<Token>)
    requires AllModifiers(names) && "each" !in names && FixedTitle(title)
    ensures Title(pre + [test] + ModifierTokens(names) + ([Open(), title] + post), |pre|) == Some(title.value)
  {
    var tokens := pre + [test] + ModifierTokens(names) + ([Open(), title] + post);
    ChainIsWalked(pre + [test], names, [Open(), title] + post, false);
    assert |pre + [test]| == |pre| + 1;
    var next := |pre| + 1 + 2 * |names|;
    assert tokens[next] == Open() && tokens[next + 1] == title;
  }

  lemma ArgumentIsRead(front: seq<Token>, title: Token, post: seq<Token>)
    requires FixedTitle(title)
    ensures FixedArgument(front + ([Open(), title] + post), |front|) == Some(title.value)
  {
    var tokens := front + ([Open(), title] + post);
    assert tokens[|front|] == Open() && tokens[|front| + 1] == title;
  }

  lemma TitleBehindTable(tokens: seq<Token>, test: nat, next: nat, end: nat)
    requires test < |tokens| && next < |tokens|
    requires ModifierChain(tokens, test + 1, false) == Chain(next, true)
    requires tokens[next].value == "(" && Matching(tokens, next) == Some(end)
    ensures Title(tokens, test) == FixedArgument(tokens, end + 1)
  {
  }

  /** So does a call with a table that closes itself. */
  lemma TableCallYieldsItsTitle(
      pre: seq<Token>, test: Token, names: seq<string>, table: seq<Token>, title: Token, post: seq<Token>)
    requires AllModifiers(names) && "each" in names && FixedTitle(title) && ClosesItself(table)
    ensures Title(pre + [test] + ModifierTokens(names) + ([Open()] + table + [Close()] + ([Open(), title] + post)), |pre|)
         == Some(title.value)
  {
    hide ModifierChain, Matching, Title, FixedArgument, ModifierTokens, ClosesItself, AllModifiers;
    var call := [Open(), title] + post;
    var behind := [Open()] + table + [Close()] + call;
    var front := pre + [test] + ModifierTokens(names);
    var tokens := front + behind;
    assert behind[0] == Open();
    ChainIsWalked(pre + [test], names, behind, false);
    TableIsClosed(front, table, call);
    assert tokens == front + [Open()] + table + [Close()] + call;
    assert tokens[|front|] == Open();
    TitleBehindTable(tokens, |pre|, |front|, |front| + 1 + |table|);
    var before := front + [Open()] + table + [Close()];
    assert tokens == before + call;
    ArgumentIsRead(before, title, post);
  }

  lemma TitleBehindTemplate(tokens: seq<Token>, test: nat, next: nat)
    requires test < |tokens| && next < |tokens|
    requires ModifierChain(tokens, test + 1, false) == Chain(next, true)
    requires tokens[next].kind == StaticTemplate || tokens[next].kind == DynamicTemplate
    ensures tokens[next].value != "(" ==> Title(tokens, test) == FixedArgument(tokens, next + 1)
    ensures tokens[next].value == "(" && Matching(tokens, next).None? ==> Title(tokens, test) == None
  {
  }

  lemma TemplateReached(
      pre: seq<Token>, test: Token, names: seq<string>, template: Token, call: seq<Token>)
    requires AllModifiers(names) && "each" in names && call != [] && call[0] == Open()
    ensures var front := pre + [test] + ModifierTokens(names);
      ModifierChain(front + ([template] + call), |pre| + 1, false) == Chain(|front|, true)
  {
    var behind := [template] + call;
    assert behind[1] == Open();
    ChainIsWalked(pre + [test], names, behind, false);
  }

  /** A call whose table is a tagged template yields its title too, unless the template is an opening parenthesis by
    * itself. */
  lemma TemplateCallYieldsItsTitle(
      pre: seq<Token>, test: Token, names: seq<string>, template: Token, title: Token, post: seq<Token>)
    requires AllModifiers(names) && "each" in names && FixedTitle(title)
    requires template.kind == StaticTemplate || template.kind == DynamicTemplate
    requires template.value != "("
    ensures Title(pre + [test] + ModifierTokens(names) + ([template] + ([Open(), title] + post)), |pre|)
         == Some(title.value)
  {
    var call := [Open(), title] + post;
    var front := pre + [test] + ModifierTokens(names);
    var tokens := front + ([template] + call);
    TemplateReached(pre, test, names, template, call);
    assert tokens[|front|] == template;
    hide ModifierChain, Matching, Title, FixedArgument, ModifierTokens, AllModifiers;
    TitleBehindTemplate(tokens, |pre|, |front|);
    assert tokens == (front + [template]) + call;
    ArgumentIsRead(front + [template], title, post);
  }

  /** That one swallows the call, as such a literal in a table does. */
  lemma FakeTemplateHidesTheTitle(
      pre: seq<Token>, test: Token, names: seq<string>, template: Token, title: Token, post: seq<Token>)
    requires AllModifiers(names) && "each" in names
    requires template.kind == StaticTemplate || template.kind == DynamicTemplate
    requires template.value == "(" && title.value != "(" && title.value != ")"
    requires forall k :: 0 <= k <= |post| ==> Nesting(post[..k]) >= -1
    ensures Title(pre + [test] + ModifierTokens(names) + ([template] + ([Open(), title] + post)), |pre|) == None
  {
    var call := [Open(), title] + post;
    var front := pre + [test] + ModifierTokens(names);
    var tokens := front + ([template] + call);
    TemplateReached(pre, test, names, template, call);
    assert tokens[|front|] == template;
    TemplateStaysOpen(front, template, title, post);
    hide ModifierChain, Matching, Title, ModifierTokens, AllModifiers, Nesting;
    TitleBehindTemplate(tokens, |pre|, |front|);
  }

  lemma TemplateStaysOpen(front: seq<Token>, template: Token, title: Token, post: seq<Token>)
    requires template.value == "(" && title.value != "(" && title.value != ")"
    requires forall k :: 0 <= k <= |post| ==> Nesting(post[..k]) >= -1
    ensures Matching(front + ([template] + ([Open(), title] + post)), |front|) == None
  {
    var behind := [template] + ([Open(), title] + post);
    var tokens := front + behind;
    forall k | |front| <= k < |tokens|
      ensures !ClosesAt(tokens, |front|, k)
    {
      assert tokens[|front|..k + 1] == behind[..k + 1 - |front|];
      TemplateNesting(template, title, post, k + 1 - |front|);
    }
    MatchingIsFirst(tokens, |front|, None);
  }

  lemma TemplateNesting(template: Token, title: Token, post: seq<Token>, n: nat)
    requires template.value == "(" && title.value != "(" && title.value != ")"
    requires forall k :: 0 <= k <= |post| ==> Nesting(post[..k]) >= -1
    requires 0 < n <= 3 + |post|
    ensures Nesting(([template] + ([Open(), title] + post))[..n]) >= 1
  {
    var head := [template, Open(), title];
    var behind := [template] + ([Open(), title] + post);
    assert behind == head + post;
    assert head[..0] == [];
    DepthsAddUp(head, 0);
    DepthsAddUp(head, 1);
    DepthsAddUp(head, 2);
    assert head[..3] == head;
    if n <= 3 {
      assert behind[..n] == head[..n];
    } else {
      assert behind[..n] == head + post[..n - 3];
      NestingAppend(head, post[..n - 3]);
    }
  }

  /** A literal that is just a closing parenthesis ends the table early: the title is then not found. */
  lemma FakeParenthesisHidesTheTitle(title: Token, post: seq<Token>)
    requires FixedTitle(title)
    ensures var table := [Token(StringLiteral, ")")];
      && Balanced(table)
      && Title([Named("it")] + ModifierTokens(["each"]) + ([Open()] + table + [Close()] + ([Open(), title] + post)), 0)
         == None
  {
    var fake := Token(StringLiteral, ")");
    var table := [fake];
    assert table[..0] == [] && table[..1] == table;
    assert TrueNesting(table) == 0;
    var behind := [Open()] + table + [Close()] + ([Open(), title] + post);
    var front := [Named("it")] + ModifierTokens(["each"]);
    var tokens := front + behind;
    assert [] + [Named("it")] == [Named("it")];
    ChainIsWalked([Named("it")], ["each"], behind, false);
    assert |front| == 3 && tokens[3] == Open() && tokens[4] == fake && tokens[5] == Close();
    assert tokens[3..4] == [Open()] && tokens[3..5] == [Open()] + [fake];
    OpenNesting([fake]);
    assert [fake][..0] == [];
    assert !ClosesAt(tokens, 3, 3);
    MatchingIsFirst(tokens, 3, Some(4));
  }

  /** A literal that is just an opening parenthesis swallows the call: unless what follows closes more than the call
    * itself, nothing ends the table, and the title is not found. */
  lemma FakeOpeningHidesTheTitle(title: Token, post: seq<Token>)
    requires FixedTitle(title) && title.value != "(" && title.value != ")"
    requires forall k :: 0 <= k <= |post| ==> Nesting(post[..k]) >= -1
    ensures var table := [Token(StringLiteral, "(")];
      && Balanced(table)
      && Title([Named("it")] + ModifierTokens(["each"]) + ([Open()] + table + [Close()] + ([Open(), title] + post)), 0)
         == None
  {
    var fake := Token(StringLiteral, "(");
    var table := [fake];
    assert table[..0] == [] && table[..1] == table;
    assert TrueNesting(table) == 0;
    var behind := [Open()] + table + [Close()] + ([Open(), title] + post);
    var front := [Named("it")] + ModifierTokens(["each"]);
    var tokens := front + behind;
    assert [] + [Named("it")] == [Named("it")];
    ChainIsWalked([Named("it")], ["each"], behind, false);
    assert |front| == 3 && tokens[3] == Open() && tokens[4] == fake && tokens[5] == Close();
    assert tokens[3..] == behind;
    forall k | 3 <= k < |tokens|
      ensures !ClosesAt(tokens, 3, k)
    {
      assert tokens[3..k + 1] == behind[..k - 2];
      StaysOpen(title, post, k - 2);
    }
    MatchingIsFirst(tokens, 3, None);
    hide Matching, Nesting;
  }

  lemma StaysOpen(title: Token, post: seq<Token>, n: nat)
    requires title.value != "(" && title.value != ")"
    requires forall k :: 0 <= k <= |post| ==> Nesting(post[..k]) >= -1
    requires 0 < n <= 5 + |post|
    ensures Nesting(([Open()] + [Token(StringLiteral, "(")] + [Close()] + ([Open(), title] + post))[..n]) >= 1
  {
    var head := [Open(), Token(StringLiteral, "("), Close(), Open(), title];
    var behind := [Open()] + [Token(StringLiteral, "(")] + [Close()] + ([Open(), title] + post);
    assert behind == head + post;
    assert head[..0] == [];
    DepthsAddUp(head, 0);
    DepthsAddUp(head, 1);
    DepthsAddUp(head, 2);
    DepthsAddUp(head, 3);
    DepthsAddUp(head, 4);
    assert head[..5] == head;
    if n <= 5 {
      assert behind[..n] == head[..n];
    } else {
      assert behind[..n] == head + post[..n - 5];
      NestingAppend(head, post[..n - 5]);
    }
  }

  /** The two together are harmless in that order. */
  lemma FakesMayCancel()
    ensures var table := [Token(StringLiteral, "("), Token(Punctuation, ","), Token(StringLiteral, ")")];
      ClosesItself(table) && !NoFakes(table)
  {
    var table := [Token(StringLiteral, "("), Token(Punctuation, ","), Token(StringLiteral, ")")];
    assert table[..0] == [] && table[..3] == table;
    DepthsAddUp(table, 0);
    DepthsAddUp(table, 1);
    DepthsAddUp(table, 2);
    assert table[0].kind != Punctuation && Depth(table[0]) == 1;
  }

  /** The declarations found are exactly those places, in order. */
  lemma {:induction false} TitlesAreTheDeclarations(tokens: seq<Token>, n: nat, title: string)
    requires n <= |tokens|
    ensures title in Titles(tokens, n) <==>
      exists i :: 0 <= i < n && DeclaresAt(tokens, i) && Title(tokens, i) == Some(title)
  {
    if n > 0 {
      TitlesAreTheDeclarations(tokens, n - 1, title);
      if DeclaresAt(tokens, n - 1) && Title(tokens, n - 1) == Some(title) {
        assert title in Titles(tokens, n);
      }
    }
  }

  /** A declaration written in a source, among any comments, space and literals, is collected. */
  lemma WrittenDeclarationIsCollected(
      items: seq<Item>, pre: seq<Token>, test: Token, names: seq<string>, title: Token, post: seq<Token>)
    requires WellFormed(items)
    requires Tokens(items) == pre + [test] + ModifierTokens(names) + ([Open(), title] + post)
    requires test == Named("it") || test == Named("test")
    requires pre == [] || pre[|pre| - 1].value != "."
    requires AllModifiers(names) && "each" !in names && FixedTitle(title)
    ensures var tokens := Tokens(Items(SourceText(items))); title.value in Titles(tokens, |tokens|)
  {
    RenderedTokens(items);
    var tokens := Tokens(items);
    PlainCallYieldsItsTitle(pre, test, names, title, post);
    assert tokens[|pre|] == test;
    assert |pre| > 0 ==> tokens[|pre| - 1] == pre[|pre| - 1];
    TitlesAreTheDeclarations(tokens, |tokens|, title.value);
  }

  /** So is one with a table that closes itself. */
  lemma WrittenTableDeclarationIsCollected(
      items: seq<Item>, pre: seq<Token>, test: Token, names: seq<string>, table: seq<Token>, title: Token,
      post: seq<Token>)
    requires WellFormed(items)
    requires Tokens(items)
          == pre + [test] + ModifierTokens(names) + ([Open()] + table + [Close()] + ([Open(), title] + post))
    requires test == Named("it") || test == Named("test")
    requires pre == [] || pre[|pre| - 1].value != "."
    requires AllModifiers(names) && "each" in names && FixedTitle(title) && ClosesItself(table)
    ensures var tokens := Tokens(Items(SourceText(items))); title.value in Titles(tokens, |tokens|)
  {
    RenderedTokens(items);
    var tokens := Tokens(items);
    TableCallYieldsItsTitle(pre, test, names, table, title, post);
    assert tokens[|pre|] == test;
    assert |pre| > 0 ==> tokens[|pre| - 1] == pre[|pre| - 1];
    hide Items, Title, ModifierTokens, ClosesItself;
    TitlesAreTheDeclarations(tokens, |tokens|, title.value);
  }
}
