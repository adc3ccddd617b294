/** The grammar of sh.c, apart from the parser: what the tokens of a line are, with any white space,
    and which trees they stand for. The parser accepts exactly the lines of the grammar. */
module ShellGrammar {
  import opened Shell

  // ---------------------------------------------------------------- tokens

  /** A word, or a symbol; the symbol + is written >>. */
  datatype Tok = W(text: string) | S(kind: char)

  predicate TokOk(t: Tok) {
    match t
    case W(text) => Word(text)
    case S(kind) => kind in "|();&<>+"
  }

  function Spelling(t: Tok): string {
    match t
    case W(text) => text
    case S(kind) => Operator(kind)
  }

  ghost predicate Blank(s: string, i: nat, j: nat) {
    i <= j <= |s| && forall k :: i <= k < j ==> White(s[k])
  }

  /** Token t stands in s at position j, and does not go on after it. */
  ghost predicate Stands(s: string, j: nat, t: Tok) {
    && j + |Spelling(t)| <= |s| && s[j..j + |Spelling(t)|] == Spelling(t)
    && var e := j + |Spelling(t)|;
    && (t.W? && e < |s| ==> White(s[e]) || Symbol(s[e]))
    && (t == S('>') && e < |s| ==> s[e] != '>')
  }

  /** From position i on, s consists of these tokens and white space. */
  ghost predicate Spells(s: string, i: nat, toks: seq<Tok>)
    decreases |toks|
  {
    && i <= |s|
    && if toks == [] then Blank(s, i, |s|) else SpellsFrom(s, i, toks)
  }

  ghost predicate SpellsFrom(s: string, i: nat, toks: seq<Tok>)
    requires toks != []
    decreases |toks|, 0
  {
    exists j: nat :: i <= j && Blank(s, i, j) && Stands(s, j, toks[0]) && Spells(s, j + |Spelling(toks[0])|, toks[1..])
  }

  ghost predicate ToksOk(toks: seq<Tok>) {
    forall k :: 0 <= k < |toks| ==> TokOk(toks[k])
  }

  /** The first token is one of these symbols. */
  ghost predicate Starts(toks: seq<Tok>, kinds: string) {
    toks != [] && toks[0].S? && toks[0].kind in kinds
  }

  lemma SkipBlank(s: string, i: nat)
    requires i <= |s|
    ensures Blank(s, i, Skip(s, i))
    decreases |s| - i
  {
    if i < |s| && White(s[i]) {
      SkipBlank(s, i + 1);
    }
  }

  lemma SkipIs(s: string, i: nat, j: nat)
    requires Blank(s, i, j) && (j < |s| ==> !White(s[j]))
    ensures Skip(s, i) == j
    decreases j - i
  {
    if i < j {
      SkipIs(s, i + 1, j);
    }
  }

  lemma FirstChar(s: string, j: nat, t: Tok)
    requires Stands(s, j, t) && TokOk(t)
    ensures j < |s| && !White(s[j]) && s[j] == Spelling(t)[0] && (t.W? ==> !Symbol(s[j]))
    ensures t.S? ==> s[j] == if t.kind == '+' then '>' else t.kind
  {
    assert s[j] == s[j..j + |Spelling(t)|][0];
  }

  /** White space in front does not matter. */
  lemma SpellsSkip(s: string, i: nat, toks: seq<Tok>)
    requires i <= |s| && ToksOk(toks)
    ensures Spells(s, i, toks) <==> Spells(s, Skip(s, i), toks)
  {
    var j := Skip(s, i);
    SkipBlank(s, i);
    if toks == [] {
      if Spells(s, i, toks) {
        SkipIs(s, i, |s|);
      }
    } else {
      if Spells(s, i, toks) {
        var k := Found(s, i, toks);
        FirstChar(s, k, toks[0]);
        SkipIs(s, i, k);
        assert Blank(s, j, k);
      }
      if Spells(s, j, toks) {
        var k := Found(s, j, toks);
        assert Blank(s, i, k);
      }
    }
  }

  lemma Found(s: string, i: nat, toks: seq<Tok>) returns (j: nat)
    requires toks != [] && Spells(s, i, toks)
    ensures i <= j && Blank(s, i, j) && Stands(s, j, toks[0]) && Spells(s, j + |Spelling(toks[0])|, toks[1..])
  {
    j :| i <= j && Blank(s, i, j) && Stands(s, j, toks[0]) && Spells(s, j + |Spelling(toks[0])|, toks[1..]);
  }

  function KindOf(t: Tok): char {
    if t.W? then 'a' else t.kind
  }

  /** gettoken finds the first token, and goes on to the others. */
  lemma NextTok(s: string, i: nat, t: Tok, rest: seq<Tok>)
    requires Spells(s, i, [t] + rest) && TokOk(t) && ToksOk(rest)
    ensures i <= |s|
    ensures var g := GetToken(s, i);
      && g.kind == KindOf(t) && Text(s, Span(g.q, g.eq)) == Spelling(t) && i < g.next <= |s| && Spells(s, g.next, rest)
      && Skip(s, g.next) == g.next
  {
    hide Spells, Stands, TokOk, Symbol, White, Word, GetToken, Skip;
    var toks := [t] + rest;
    var j := Found(s, i, toks);
    assert toks[1..] == rest;
    FirstChar(s, j, t);
    SkipIs(s, i, j);
    TokenAt(s, i, j, t);
    var e := j + |Spelling(t)|;
    SpellsSkip(s, e, rest);
    SkipTwice(s, e);
  }

  lemma TokenAt(s: string, i: nat, j: nat, t: Tok)
    requires Stands(s, j, t) && TokOk(t) && i <= j <= |s| && Skip(s, i) == j
    ensures var e := j + |Spelling(t)|; e > j && GetToken(s, i) == Token(KindOf(t), j, e, Skip(s, e))
  {
    FirstChar(s, j, t);
    var e := j + |Spelling(t)|;
    if t.W? {
      forall k | j <= k < e
        ensures !White(s[k]) && !Symbol(s[k])
      {
        assert s[k] == s[j..e][k - j];
      }
      WordEndIs(s, j, e);
    } else if t.kind == '+' {
      assert s[j + 1] == s[j..e][1];
    }
  }

  /** What peek sees of the first token. */
  lemma SeesFirst(s: string, i: nat, toks: seq<Tok>, kinds: string)
    requires Spells(s, i, toks) && ToksOk(toks) && forall c :: c in kinds ==> c in "|();&"
    ensures i <= |s| && (Sees(s, Skip(s, i), kinds) <==> Starts(toks, kinds))
    ensures Sees(s, Skip(s, i), "<>") <==> Starts(toks, "<>+")
    ensures GetToken(s, i).kind == NUL <==> toks == []
  {
    hide Spells, Stands, Word;
    if toks == [] {
      NoTok(s, i);
    } else {
      var j := Found(s, i, toks);
      FirstChar(s, j, toks[0]);
      SkipIs(s, i, j);
    }
  }

  lemma NoTok(s: string, i: nat)
    requires Spells(s, i, [])
    ensures i <= |s| && Skip(s, i) == |s|
  {
    SkipIs(s, i, |s|);
  }

  /** The other way round: in front of tokens there is one more. */
  function TokAt(s: string, g: Token): Tok {
    if g.kind == 'a' then W(Text(s, Span(g.q, g.eq))) else S(g.kind)
  }

  lemma OneMore(s: string, i: nat, rest: seq<Tok>)
    requires i <= |s| && GetToken(s, i).kind != NUL && Spells(s, GetToken(s, i).next, rest) && ToksOk(rest)
    ensures var t := TokAt(s, GetToken(s, i)); TokOk(t) && Spells(s, i, [t] + rest)
  {
    var g := GetToken(s, i);
    var t := TokAt(s, g);
    TokenStands(s, i);
    hide GetToken, Stands, TokAt, TokOk, Spells;
    SpellsSkip(s, g.eq, rest);
    SkipBlank(s, i);
    Put(s, i, g.q, t, rest);
  }

  lemma Put(s: string, i: nat, j: nat, t: Tok, rest: seq<Tok>)
    requires Blank(s, i, j) && Stands(s, j, t) && Spells(s, j + |Spelling(t)|, rest)
    ensures Spells(s, i, [t] + rest)
  {
    var toks := [t] + rest;
    assert toks[1..] == rest && toks[0] == t;
  }

  lemma TokenStands(s: string, i: nat)
    requires i <= |s| && GetToken(s, i).kind != NUL
    ensures var g := GetToken(s, i);
      var t := TokAt(s, g);
      TokOk(t) && Stands(s, g.q, t) && g.eq == g.q + |Spelling(t)|
  {
    var g := GetToken(s, i);
    if g.kind == 'a' {
      assert IsWord(s, g.q, g.eq);
      forall k | 0 <= k < g.eq - g.q
        ensures s[g.q..g.eq][k] == s[g.q + k]
      {
      }
    }
  }

  // ---------------------------------------------------------------- the grammar

  /** An argument, or a redirection with its file. */
  datatype Item = Arg(w: string) | File(kind: char, w: string)

  datatype Simple = Plain(items: seq<Item>) | Group(line: Line, files: seq<Item>)

  datatype Pipeline = One(c: Simple) | Join(c: Simple, rest: Pipeline)

  /** Pipelines with any number of & after each, and ; between them. */
  datatype Line = Only(p: Pipeline, backs: nat) | Next(p: Pipeline, backs: nat, rest: Line)

  function Toks(x: Item): seq<Tok> {
    match x
    case Arg(w) => [W(w)]
    case File(kind, w) => [S(kind), W(w)]
  }

  function ItemToks(items: seq<Item>): seq<Tok> {
    if items == [] then [] else Toks(items[0]) + ItemToks(items[1..])
  }

  function Amps(n: nat): seq<Tok> {
    if n == 0 then [] else [S('&')] + Amps(n - 1)
  }

  function SimpleToks(c: Simple): seq<Tok> {
    match c
    case Plain(items) => ItemToks(items)
    case Group(line, files) => [S('(')] + (LineToks(line) + ([S(')')] + ItemToks(files)))
  }

  function PipeToks(p: Pipeline): seq<Tok> {
    match p
    case One(c) => SimpleToks(c)
    case Join(c, rest) => SimpleToks(c) + ([S('|')] + PipeToks(rest))
  }

  function LineToks(l: Line): seq<Tok> {
    match l
    case Only(p, n) => PipeToks(p) + Amps(n)
    case Next(p, n, rest) => PipeToks(p) + (Amps(n) + ([S(';')] + LineToks(rest)))
  }

  /** What is well formed: proper words, at most MAXARGS - 1 arguments, and only redirections after a
      closing parenthesis. */
  ghost predicate ItemsOk(items: seq<Item>) {
    forall k :: 0 <= k < |items| ==> Word(items[k].w) && (items[k].File? ==> IsOperator(items[k].kind))
  }

  ghost predicate SimpleOk(c: Simple) {
    match c
    case Plain(items) => ItemsOk(items) && |Argv(items)| < MAXARGS
    case Group(line, files) => LineOk(line) && ItemsOk(files) && Argv(files) == []
  }

  ghost predicate PipeOk(p: Pipeline) {
    match p
    case One(c) => SimpleOk(c)
    case Join(c, rest) => SimpleOk(c) && PipeOk(rest)
  }

  ghost predicate LineOk(l: Line) {
    match l
    case Only(p, _) => PipeOk(p)
    case Next(p, _, rest) => PipeOk(p) && LineOk(rest)
  }

  /** The tree of a line. */
  function Argv(items: seq<Item>): seq<string> {
    if items == [] then []
    else (match items[0] case Arg(w) => [w] case File(_, _) => []) + Argv(items[1..])
  }

  /** Redirections go around the command from left to right. */
  function Filed(t: Tree, items: seq<Item>): Tree
    decreases |items|
  {
    if items == [] then t
    else match items[0]
      case Arg(_) => Filed(t, items[1..])
      case File(kind, w) => Filed(To(t, w, kind), items[1..])
  }

  function Asyncs(t: Tree, n: nat): Tree
    decreases n
  {
    if n == 0 then t else Asyncs(Async(t), n - 1)
  }

  function SimpleTree(c: Simple): Tree {
    match c
    case Plain(items) => Filed(Run(Argv(items)), items)
    case Group(line, files) => Filed(LineTree(line), files)
  }

  function PipeTree(p: Pipeline): Tree {
    match p
    case One(c) => SimpleTree(c)
    case Join(c, rest) => Piped(SimpleTree(c), PipeTree(rest))
  }

  function LineTree(l: Line): Tree {
    match l
    case Only(p, n) => Asyncs(PipeTree(p), n)
    case Next(p, n, rest) => Then(Asyncs(PipeTree(p), n), LineTree(rest))
  }

  lemma ItemToksOk(items: seq<Item>)
    requires ItemsOk(items)
    ensures ToksOk(ItemToks(items))
  {
    if items != [] {
      ItemToksOk(items[1..]);
    }
  }

  lemma AmpsOk(n: nat)
    ensures ToksOk(Amps(n))
  {
  }

  lemma {:induction false} SimpleToksOk(c: Simple)
    requires SimpleOk(c)
    ensures ToksOk(SimpleToks(c))
    decreases c, 0
  {
    hide TokOk, ItemToks;
    assert TokOk(S('(')) && TokOk(S(')')) by { ParensOk(); }
    match c
    case Plain(items) => ItemToksOk(items);
    case Group(line, files) =>
      LineToksOk(line);
      ItemToksOk(files);
  }

  lemma ParensOk()
    ensures TokOk(S('(')) && TokOk(S(')')) && TokOk(S('|')) && TokOk(S(';')) && TokOk(S('&'))
  {
  }

  lemma {:induction false} PipeToksOk(p: Pipeline)
    requires PipeOk(p)
    ensures ToksOk(PipeToks(p))
    decreases p, 1
  {
    hide TokOk;
    ParensOk();
    SimpleToksOk(p.c);
    if p.Join? {
      PipeToksOk(p.rest);
    }
  }

  lemma {:induction false} LineToksOk(l: Line)
    requires LineOk(l)
    ensures ToksOk(LineToks(l))
    decreases l, 2
  {
    hide TokOk, ToksOk, PipeToks, PipeOk, Amps;
    PipeToksOk(l.p);
    AmpsOk(l.backs);
    if l.Next? {
      LineToksOk(l.rest);
      SemiOk(LineToks(l.rest));
      ToksOkMore(Amps(l.backs), [S(';')] + LineToks(l.rest));
      ToksOkMore(PipeToks(l.p), Amps(l.backs) + ([S(';')] + LineToks(l.rest)));
    } else {
      ToksOkMore(PipeToks(l.p), Amps(l.backs));
    }
  }

  // ---------------------------------------------------------------- lines of the grammar parse

  ghost predicate Matches(s: string, rs: seq<(Span, char)>, files: seq<Item>) {
    && |rs| == |files|
    && forall k :: 0 <= k < |rs| ==> files[k] == File(rs[k].1, Text(s, rs[k].0))
  }

  lemma {:induction false} WrapMatches(s: string, c: Cmd, rs: seq<(Span, char)>, files: seq<Item>)
    requires Matches(s, rs, files)
    ensures Read(s, Wrap(c, rs)) == Filed(Read(s, c), files)
    decreases |rs|
  {
    if rs != [] {
      WrapMatches(s, Redir(c, rs[0].0, rs[0].1), rs[1..], files[1..]);
    }
  }

  lemma {:induction false} BacksParse(s: string, i: nat, n: nat, c: Cmd, rest: seq<Tok>) returns (d: Cmd, j: nat)
    requires Spells(s, i, Amps(n) + rest) && ToksOk(rest) && !Starts(rest, "&")
    ensures i <= |s| && Backs(s, c, i) == (d, j) && Read(s, d) == Asyncs(Read(s, c), n) && Spells(s, j, rest)
    decreases n
  {
    hide Spells, GetToken, Skip, Sees, ToksOk, Read, Amps, Backs, Starts;
    AmpsOk(n);
    ToksOkMore(Amps(n), rest);
    SeesFirst(s, i, Amps(n) + rest, "&");
    SpellsSkip(s, i, Amps(n) + rest);
    BacksStep(s, c, i);
    AmpsHead(n, rest);
    if n == 0 {
      d, j := c, Skip(s, i);
    } else {
      ParensOk();
      AmpsOk(n - 1);
      ToksOkMore(Amps(n - 1), rest);
      NextTok(s, Skip(s, i), S('&'), Amps(n - 1) + rest);
      d, j := BacksParse(s, GetToken(s, Skip(s, i)).next, n - 1, Back(c), rest);
      BackRead(s, c);
    }
  }

  lemma AmpsHead(n: nat, rest: seq<Tok>)
    ensures n == 0 ==> Amps(n) + rest == rest
    ensures n > 0 ==> Amps(n) + rest == [S('&')] + (Amps(n - 1) + rest) && Starts(Amps(n) + rest, "&")
  {
  }

  lemma BacksStep(s: string, c: Cmd, i: nat)
    requires i <= |s|
    ensures var j := Skip(s, i);
      Backs(s, c, i) == if Sees(s, j, "&") then Backs(s, Back(c), GetToken(s, j).next) else (c, j)
  {
    hide Skip, GetToken;
  }

  lemma BackRead(s: string, c: Cmd)
    ensures Read(s, Back(c)) == Async(Read(s, c))
  {
  }

  lemma ToksOkMore(a: seq<Tok>, b: seq<Tok>)
    requires ToksOk(a) && ToksOk(b)
    ensures ToksOk(a + b)
  {
  }

  lemma {:induction false} RedirsParse(s: string, i: nat, files: seq<Item>, rest: seq<Tok>)
    returns (rs: seq<(Span, char)>, j: nat)
    requires Spells(s, i, ItemToks(files) + rest) && ItemsOk(files) && ToksOk(rest) && !Starts(rest, "<>+")
    requires forall k :: 0 <= k < |files| ==> files[k].File?
    ensures i <= |s| && Redirs(s, i) == Ok(rs, j) && Matches(s, rs, files) && Spells(s, j, rest)
    decreases |files|
  {
    hide Spells, GetToken, Skip, Sees, ToksOk, Redirs, Text, IsWord, TokOk, Word, ItemToks, IsOperator, Starts;
    ItemToksOk(files);
    ToksOkMore(ItemToks(files), rest);
    SeesFirst(s, i, ItemToks(files) + rest, "");
    SpellsSkip(s, i, ItemToks(files) + rest);
    RedirsStep(s, i);
    if files == [] {
      NoItems(s, [], [], rest);
      rs, j := [], Skip(s, i);
    } else {
      var kind, w, more := files[0].kind, files[0].w, ItemToks(files[1..]) + rest;
      FileHead(kind, w, files[1..], rest);
      assert files == [File(kind, w)] + files[1..];
      FileOk(files[0]);
      OperatorStarts(kind, [W(w)] + more);
      ItemsOkAfter(files);
      ItemToksOk(files[1..]);
      ToksOkMore(ItemToks(files[1..]), rest);
      ToksOkMore([W(w)], more);
      NextTok(s, Skip(s, i), S(kind), [W(w)] + more);
      var op := GetToken(s, Skip(s, i));
      NextTok(s, op.next, W(w), more);
      var g := GetToken(s, op.next);
      var rs', j' := RedirsParse(s, g.next, files[1..], rest);
      rs, j := [(Span(g.q, g.eq), kind)] + rs', j';
    }
  }

  lemma OperatorStarts(kind: char, toks: seq<Tok>)
    requires IsOperator(kind)
    ensures Starts([S(kind)] + toks, "<>+")
  {
  }

  lemma FileOk(f: Item)
    requires f.File? && Word(f.w) && IsOperator(f.kind)
    ensures TokOk(S(f.kind)) && ToksOk([W(f.w)]) && TokOk(W(f.w))
  {
  }

  /** The redirections in front, up to the next argument. */
  lemma Split(items: seq<Item>) returns (files: seq<Item>, tail: seq<Item>)
    ensures items == files + tail && (forall k :: 0 <= k < |files| ==> files[k].File?) && (tail != [] ==> tail[0].Arg?)
    decreases |items|
  {
    if items == [] || items[0].Arg? {
      files, tail := [], items;
      assert items == files + tail;
    } else {
      var f, t := Split(items[1..]);
      files, tail := [items[0]] + f, t;
      assert items == [items[0]] + items[1..];
    }
  }

  lemma ItemsSplit(a: seq<Item>, b: seq<Item>)
    ensures ItemToks(a + b) == ItemToks(a) + ItemToks(b) && Argv(a + b) == Argv(a) + Argv(b)
    ensures FilesOf(a + b) == FilesOf(a) + FilesOf(b)
  {
    hide ItemToks, Argv, FilesOf;
    ToksSplit(a, b);
    ArgvSplit(a, b);
    FilesSplit(a, b);
  }

  lemma {:induction false} ToksSplit(a: seq<Item>, b: seq<Item>)
    ensures ItemToks(a + b) == ItemToks(a) + ItemToks(b)
    decreases |a|
  {
    if a == [] {
      assert a + b == b;
    } else {
      ToksSplit(a[1..], b);
      assert a + b == [a[0]] + (a[1..] + b);
      ToksHead(a[0], a[1..] + b);
      ToksHead(a[0], a[1..]);
      assert a == [a[0]] + a[1..];
    }
  }

  lemma ToksHead(x: Item, items: seq<Item>)
    ensures ItemToks([x] + items) == Toks(x) + ItemToks(items)
  {
    assert ([x] + items)[1..] == items;
  }

  lemma {:induction false} ArgvSplit(a: seq<Item>, b: seq<Item>)
    ensures Argv(a + b) == Argv(a) + Argv(b)
    decreases |a|
  {
    if a == [] {
      assert a + b == b;
    } else {
      assert (a + b)[1..] == a[1..] + b;
      ArgvSplit(a[1..], b);
    }
  }

  lemma {:induction false} FilesSplit(a: seq<Item>, b: seq<Item>)
    ensures FilesOf(a + b) == FilesOf(a) + FilesOf(b)
    decreases |a|
  {
    hide FilesOf;
    if a == [] {
      assert a + b == b;
      NoFiles();
    } else {
      FilesSplit(a[1..], b);
      assert a + b == [a[0]] + (a[1..] + b);
      FilesHead(a[0], a[1..] + b);
      FilesHead(a[0], a[1..]);
      assert a == [a[0]] + a[1..];
    }
  }

  lemma NoFiles()
    ensures FilesOf([]) == []
  {
  }

  lemma FilesHead(x: Item, items: seq<Item>)
    ensures FilesOf([x] + items) == (if x.File? then [x] else []) + FilesOf(items)
  {
    assert ([x] + items)[1..] == items;
  }

  function FilesOf(items: seq<Item>): seq<Item> {
    if items == [] then [] else (if items[0].File? then [items[0]] else []) + FilesOf(items[1..])
  }

  lemma {:induction false} FiledOf(t: Tree, items: seq<Item>)
    ensures Filed(t, items) == Filed(t, FilesOf(items))
    decreases |items|
  {
    if items != [] {
      match items[0]
      case Arg(_) =>
        FiledOf(t, items[1..]);
        assert FilesOf(items) == FilesOf(items[1..]);
      case File(kind, w) =>
        FiledOf(To(t, w, kind), items[1..]);
        assert FilesOf(items) == [items[0]] + FilesOf(items[1..]);
        assert FilesOf(items)[1..] == FilesOf(items[1..]);
    }
  }

  lemma {:induction false} AllFiles(files: seq<Item>)
    requires forall k :: 0 <= k < |files| ==> files[k].File?
    ensures FilesOf(files) == files && Argv(files) == []
    decreases |files|
  {
    if files != [] {
      AllFiles(files[1..]);
      assert files == [files[0]] + files[1..];
    }
  }

  lemma {:induction false} NoArgs(files: seq<Item>)
    requires Argv(files) == []
    ensures forall k :: 0 <= k < |files| ==> files[k].File?
    decreases |files|
  {
    if files != [] {
      NoArgs(files[1..]);
    }
  }

  /** What may follow a simple command. */
  ghost predicate Ends(rest: seq<Tok>) {
    ToksOk(rest) && (rest == [] || Starts(rest, "|)&;"))
  }

  lemma {:induction false} ArgsParse(s: string, i: nat, args: seq<Span>, rs: seq<(Span, char)>, items: seq<Item>,
                                     rest: seq<Tok>)
    returns (args': seq<Span>, more: seq<(Span, char)>, j: nat)
    requires Spells(s, i, ItemToks(items) + rest) && ItemsOk(items) && Ends(rest) && (items != [] ==> items[0].Arg?)
    requires |args| + |Argv(items)| < MAXARGS && (forall k :: 0 <= k < |args| ==> SpanOk(s, args[k]))
    requires forall k :: 0 <= k < |rs| ==> SpanOk(s, rs[k].0)
    ensures i <= |s| && Args(s, i, args, rs) == Ok(Wrap(Exec(args'), rs + more), j)
    ensures Texts(s, args') == Texts(s, args) + Argv(items) && Matches(s, more, FilesOf(items)) && Spells(s, j, rest)
    decreases |items|
  {
    hide Spells, GetToken, Skip, Sees, Args, Redirs, Text, Texts, IsWord, TokOk, Word, Wrap, ToksOk;
    ItemToksOk(items);
    ToksOkMore(ItemToks(items), rest);
    SeesFirst(s, i, ItemToks(items) + rest, "|)&;");
    SpellsSkip(s, i, ItemToks(items) + rest);
    ArgsStep(s, i, args, rs);
    SameToken(s, i);
    if items == [] {
      assert ItemToks(items) + rest == rest;
      args', more, j := args, [], Skip(s, i);
      assert rs + more == rs && Texts(s, args) + Argv(items) == Texts(s, args);
    } else {
      args', more, j := ArgsOne(s, i, args, rs, items, rest);
    }
  }

  lemma SameToken(s: string, i: nat)
    requires i <= |s|
    ensures GetToken(s, Skip(s, i)) == GetToken(s, i) && Skip(s, Skip(s, i)) == Skip(s, i)
  {
    SkipTwice(s, i);
  }

  /** One argument, and the redirections after it. */
  lemma {:induction false} ArgsOne(s: string, i: nat, args: seq<Span>, rs: seq<(Span, char)>, items: seq<Item>,
                                   rest: seq<Tok>)
    returns (args': seq<Span>, more: seq<(Span, char)>, j: nat)
    requires items != [] && items[0].Arg? && Spells(s, i, ItemToks(items) + rest) && ItemsOk(items) && Ends(rest)
    requires |args| + |Argv(items)| < MAXARGS && (forall k :: 0 <= k < |args| ==> SpanOk(s, args[k]))
    requires forall k :: 0 <= k < |rs| ==> SpanOk(s, rs[k].0)
    ensures i <= |s| && Args(s, i, args, rs) == Ok(Wrap(Exec(args'), rs + more), j)
    ensures Texts(s, args') == Texts(s, args) + Argv(items) && Matches(s, more, FilesOf(items)) && Spells(s, j, rest)
    decreases |items|, 0
  {
    hide Spells, GetToken, Skip, Sees, Args, Redirs, Text, Texts, IsWord, TokOk, Word, Wrap, ToksOk, FilesOf, ItemToks,
         Argv, Ends, Matches;
    var files, tail := Split(items[1..]);
    ItemsParts(items, files, tail);
    var after := ItemToks(tail) + rest;
    TailStarts(tail, rest);
    ThreeToks([W(items[0].w)], ItemToks(files), ItemToks(tail), rest);
    ItemToksOk(files);
    ToksOkMore(ItemToks(files), after);
    WordOk(items[0]);
    NextTok(s, i, W(items[0].w), ItemToks(files) + after);
    var g := GetToken(s, i);
    var r1, k := RedirsParse(s, g.next, files, after);
    StepArg(s, i, args, rs, items[0].w, ItemToks(files) + after, r1, k);
    var r2;
    args', r2, j := ArgsParse(s, k, args + [Span(g.q, g.eq)], rs + r1, tail, rest);
    more := r1 + r2;
    TextsSnoc(s, args, Span(g.q, g.eq));
    MatchesMore(s, r1, files, r2, FilesOf(tail));
    Reassociate(s, args, items[0].w, tail, rs, r1, r2);
  }

  lemma Reassociate(s: string, args: seq<Span>, w: string, tail: seq<Item>, rs: seq<(Span, char)>,
                    r1: seq<(Span, char)>, r2: seq<(Span, char)>)
    ensures Texts(s, args) + [w] + Argv(tail) == Texts(s, args) + ([w] + Argv(tail)) && rs + r1 + r2 == rs + (r1 + r2)
  {
  }

  lemma TextsSnoc(s: string, args: seq<Span>, w: Span)
    ensures Texts(s, args + [w]) == Texts(s, args) + [Text(s, w)]
  {
  }

  lemma MatchesMore(s: string, a: seq<(Span, char)>, fa: seq<Item>, b: seq<(Span, char)>, fb: seq<Item>)
    requires Matches(s, a, fa) && Matches(s, b, fb)
    ensures Matches(s, a + b, fa + fb)
  {
    hide Text;
  }

  lemma WordOk(a: Item)
    requires a.Arg? && Word(a.w)
    ensures TokOk(W(a.w))
  {
  }

  lemma ItemsParts(items: seq<Item>, files: seq<Item>, tail: seq<Item>)
    requires items != [] && items[0].Arg? && items[1..] == files + tail && forall k :: 0 <= k < |files| ==> files[k].File?
    ensures ItemToks(items) == [W(items[0].w)] + (ItemToks(files) + ItemToks(tail))
    ensures Argv(items) == [items[0].w] + Argv(tail) && FilesOf(items) == files + FilesOf(tail)
    ensures ItemsOk(items) ==> ItemsOk(files) && ItemsOk(tail)
  {
    hide ItemToks, Argv, FilesOf, Word, IsOperator, ItemsOk;
    ArgHead(items);
    ItemsSplit(files, tail);
    AllFiles(files);
    assert [] + Argv(tail) == Argv(tail);
    if ItemsOk(items) {
      ItemsOkAfter(items);
      ItemsOkParts(files, tail);
    }
  }

  lemma ItemsOkAfter(items: seq<Item>)
    requires ItemsOk(items) && items != []
    ensures ItemsOk(items[1..])
  {
  }

  lemma ItemsOkParts(a: seq<Item>, b: seq<Item>)
    requires ItemsOk(a + b)
    ensures ItemsOk(a) && ItemsOk(b)
  {
    hide Word, IsOperator;
    assert forall k :: 0 <= k < |a| ==> a[k] == (a + b)[k];
    assert forall k :: 0 <= k < |b| ==> b[k] == (a + b)[k + |a|];
  }

  lemma ArgHead(items: seq<Item>)
    requires items != [] && items[0].Arg?
    ensures ItemToks(items) == [W(items[0].w)] + ItemToks(items[1..]) && Argv(items) == [items[0].w] + Argv(items[1..])
    ensures FilesOf(items) == FilesOf(items[1..])
  {
  }

  lemma ThreeToks(a: seq<Tok>, b: seq<Tok>, c: seq<Tok>, d: seq<Tok>)
    ensures a + (b + c) + d == a + (b + (c + d))
  {
  }

  lemma TailStarts(tail: seq<Item>, rest: seq<Tok>)
    requires (tail != [] ==> tail[0].Arg?) && ItemsOk(tail) && Ends(rest)
    ensures !Starts(ItemToks(tail) + rest, "<>+(") && ToksOk(ItemToks(tail) + rest)
  {
    ItemToksOk(tail);
  }

  lemma StepArg(s: string, i: nat, args: seq<Span>, rs: seq<(Span, char)>, w: string, after: seq<Tok>,
                r1: seq<(Span, char)>, k: nat)
    requires Spells(s, i, [W(w)] + after) && TokOk(W(w)) && ToksOk(after) && i <= |s| && k <= |s|
    requires |args| + 1 < MAXARGS && (forall k :: 0 <= k < |args| ==> SpanOk(s, args[k]))
    requires forall k :: 0 <= k < |rs| ==> SpanOk(s, rs[k].0)
    requires Redirs(s, GetToken(s, i).next) == Ok(r1, k)
    ensures var g := GetToken(s, i);
      && (forall k :: 0 <= k < |args + [Span(g.q, g.eq)]| ==> SpanOk(s, (args + [Span(g.q, g.eq)])[k]))
      && (forall k :: 0 <= k < |rs + r1| ==> SpanOk(s, (rs + r1)[k].0))
      && Args(s, i, args, rs) == Args(s, k, args + [Span(g.q, g.eq)], rs + r1)
  {
    hide Spells, GetToken, Skip, Sees, Args, Redirs, IsWord, TokOk;
    ToksOkMore([W(w)], after);
    SeesFirst(s, i, [W(w)] + after, "|)&;");
    NextTok(s, i, W(w), after);
    ArgsStep(s, i, args, rs);
    SameToken(s, i);
  }

  lemma PlainStarts(items: seq<Item>, rest: seq<Tok>)
    requires ItemsOk(items) && Ends(rest)
    ensures !Starts(ItemToks(items) + rest, "(") && ToksOk(ItemToks(items) + rest)
  {
    ItemToksOk(items);
  }

  lemma PlainExec(s: string, i: nat)
    requires i <= |s| && !Sees(s, Skip(s, i), "(")
    ensures var rs := Redirs(s, Skip(s, i));
      ParseExec(s, i) == if rs.Panic? then Panic else Args(s, rs.next, [], rs.value)
  {
    hide Args, Redirs, Skip, ParseBlock;
  }

  lemma PlainParse(s: string, i: nat, items: seq<Item>, rest: seq<Tok>) returns (c: Cmd, j: nat)
    requires SimpleOk(Plain(items)) && Spells(s, i, ItemToks(items) + rest) && Ends(rest)
    ensures i <= |s| && ParseExec(s, i) == Ok(c, j) && Read(s, c) == SimpleTree(Plain(items)) && Spells(s, j, rest)
  {
    hide Spells, GetToken, Skip, Sees, Args, Redirs, Text, Texts, IsWord, TokOk, Wrap, ToksOk, ItemToks, Argv, Ends,
         Matches, ParseExec, Filed, FilesOf, Read, ItemsOk;
    var files, tail := Split(items);
    ItemsSplit(files, tail);
    ItemsOkParts(files, tail);
    AllFiles(files);
    PlainStarts(items, rest);
    SeesFirst(s, i, ItemToks(items) + rest, "(");
    SpellsSkip(s, i, ItemToks(items) + rest);
    PlainExec(s, i);
    TailStarts(tail, rest);
    assert ItemToks(items) + rest == ItemToks(files) + (ItemToks(tail) + rest);
    assert [] + Argv(tail) == Argv(tail);
    var r1, k := RedirsParse(s, Skip(s, i), files, ItemToks(tail) + rest);
    var args', r2;
    args', r2, j := ArgsParse(s, k, [], r1, tail, rest);
    c := Wrap(Exec(args'), r1 + r2);
    MatchesMore(s, r1, files, r2, FilesOf(tail));
    assert Texts(s, []) + Argv(tail) == Argv(tail);
    PlainRead(s, args', r1 + r2, items);
  }

  lemma PlainRead(s: string, args: seq<Span>, rs: seq<(Span, char)>, items: seq<Item>)
    requires Texts(s, args) == Argv(items) && Matches(s, rs, FilesOf(items))
    ensures Read(s, Wrap(Exec(args), rs)) == SimpleTree(Plain(items))
  {
    hide Matches, FilesOf, Argv, Wrap, Filed, Text;
    WrapMatches(s, Exec(args), rs, FilesOf(items));
    FiledOf(Run(Argv(items)), items);
    ExecRead(s, args);
  }

  lemma ExecRead(s: string, args: seq<Span>)
    ensures Read(s, Exec(args)) == Run(Texts(s, args))
  {
  }

  lemma GroupRead(s: string, c: Cmd, rs: seq<(Span, char)>, line: Line, files: seq<Item>)
    requires Read(s, c) == LineTree(line) && Matches(s, rs, files)
    ensures Read(s, Wrap(c, rs)) == SimpleTree(Group(line, files))
  {
    WrapMatches(s, c, rs, files);
  }

  lemma BlockIs(s: string, i: nat, c: Cmd, k: nat, rs: seq<(Span, char)>, j: nat)
    requires i <= |s| && Sees(s, Skip(s, i), "(") && ParseLine(s, GetToken(s, Skip(s, i)).next) == Ok(c, k) && k <= |s|
    requires Sees(s, Skip(s, k), ")") && Redirs(s, GetToken(s, Skip(s, k)).next) == Ok(rs, j)
    ensures ParseExec(s, i) == Ok(Wrap(c, rs), j)
  {
    hide ParseLine, Redirs, Skip, GetToken, Wrap, WordsOk, Sees;
  }

  lemma {:induction false} SimpleParse(s: string, i: nat, c: Simple, rest: seq<Tok>) returns (d: Cmd, j: nat)
    requires SimpleOk(c) && Spells(s, i, SimpleToks(c) + rest) && Ends(rest)
    ensures i <= |s| && ParseExec(s, i) == Ok(d, j) && Read(s, d) == SimpleTree(c) && Spells(s, j, rest)
    decreases c, 0
  {
    hide Spells, GetToken, Skip, Sees, ParseExec, ParseLine, Redirs, Wrap, Ends, ToksOk, TokOk, ItemToks, Argv, Matches, Read,
         SimpleTree, LineTree, LineToks, ItemsOk, LineOk;
    match c
    case Plain(items) => d, j := PlainParse(s, i, items, rest);
    case Group(line, files) =>
      ParensOk();
      EndsPlain(rest);
      GroupToks(line, files, rest);
      var a := [S(')')] + (ItemToks(files) + rest);
      SeesFirst(s, i, [S('(')] + (LineToks(line) + a), "(");
      SpellsSkip(s, i, [S('(')] + (LineToks(line) + a));
      NextTok(s, Skip(s, i), S('('), LineToks(line) + a);
      var b, k := LineParse(s, GetToken(s, Skip(s, i)).next, line, a);
      SeesFirst(s, k, a, ")");
      SpellsSkip(s, k, a);
      NextTok(s, Skip(s, k), S(')'), ItemToks(files) + rest);
      NoArgs(files);
      var rs;
      rs, j := RedirsParse(s, GetToken(s, Skip(s, k)).next, files, rest);
      d := Wrap(b, rs);
      BlockIs(s, i, b, k, rs, j);
      GroupRead(s, b, rs, line, files);
  }

  lemma EndsPlain(rest: seq<Tok>)
    requires Ends(rest)
    ensures ToksOk(rest) && !Starts(rest, "<>+") && !Starts(rest, "(")
  {
  }

  lemma GroupToks(line: Line, files: seq<Item>, rest: seq<Tok>)
    requires LineOk(line) && ItemsOk(files) && ToksOk(rest)
    ensures var a := [S(')')] + (ItemToks(files) + rest);
      && SimpleToks(Group(line, files)) + rest == [S('(')] + (LineToks(line) + a)
      && ToksOk(a) && ToksOk(LineToks(line) + a) && ToksOk(ItemToks(files) + rest) && Starts(a, ")")
      && ToksOk([S('(')] + (LineToks(line) + a)) && Starts([S('(')] + (LineToks(line) + a), "(")
  {
    hide ItemToks, LineToks, TokOk, ItemsOk, LineOk;
    ParensOk();
    LineToksOk(line);
    ItemToksOk(files);
    var a := [S(')')] + (ItemToks(files) + rest);
    assert SimpleToks(Group(line, files)) + rest == [S('(')] + (LineToks(line) + a);
  }

  ghost predicate PipeEnds(rest: seq<Tok>) {
    ToksOk(rest) && (rest == [] || Starts(rest, ")&;"))
  }

  lemma PipeIs(s: string, i: nat, c: Cmd, k: nat)
    requires i <= |s| && k <= |s| && ParseExec(s, i) == Ok(c, k)
    ensures !Sees(s, Skip(s, k), "|") ==> ParsePipe(s, i) == Ok(c, Skip(s, k))
    ensures Sees(s, Skip(s, k), "|") ==>
      var r := ParsePipe(s, GetToken(s, Skip(s, k)).next);
      ParsePipe(s, i) == if r.Panic? then Panic else Ok(Pipe(c, r.value), r.next)
  {
    hide ParseExec, Skip, GetToken, Sees;
  }

  lemma {:induction false} PipeParse(s: string, i: nat, p: Pipeline, rest: seq<Tok>) returns (d: Cmd, j: nat)
    requires PipeOk(p) && Spells(s, i, PipeToks(p) + rest) && PipeEnds(rest)
    ensures i <= |s| && ParsePipe(s, i) == Ok(d, j) && Read(s, d) == PipeTree(p) && Spells(s, j, rest)
    decreases p, 1
  {
    hide Spells, GetToken, Skip, Sees, ParseExec, ParsePipe, SimpleToks, SimpleTree, SimpleOk, ToksOk, TokOk;
    ParensOk();
    match p
    case One(c) =>
      PipeEndsEnds(rest);
      var k;
      d, k := SimpleParse(s, i, c, rest);
      SeesFirst(s, k, rest, "|");
      SpellsSkip(s, k, rest);
      PipeIs(s, i, d, k);
      j := Skip(s, k);
    case Join(c, q) =>
      JoinToks(c, q, rest);
      var a := [S('|')] + (PipeToks(q) + rest);
      var l, k := SimpleParse(s, i, c, a);
      SeesFirst(s, k, a, "|");
      SpellsSkip(s, k, a);
      NextTok(s, Skip(s, k), S('|'), PipeToks(q) + rest);
      var r;
      r, j := PipeParse(s, GetToken(s, Skip(s, k)).next, q, rest);
      PipeIs(s, i, l, k);
      d := Pipe(l, r);
  }

  lemma PipeEndsEnds(rest: seq<Tok>)
    requires PipeEnds(rest)
    ensures Ends(rest) && ToksOk(rest) && !Starts(rest, "|")
  {
  }

  lemma JoinToks(c: Simple, q: Pipeline, rest: seq<Tok>)
    requires SimpleOk(c) && PipeOk(q) && ToksOk(rest)
    ensures var a := [S('|')] + (PipeToks(q) + rest);
      && PipeToks(Join(c, q)) + rest == SimpleToks(c) + a && ToksOk(a) && Ends(a) && Starts(a, "|")
      && ToksOk(PipeToks(q) + rest)
  {
    hide SimpleToks, TokOk, SimpleOk;
    ParensOk();
    PipeToksOk(q);
    var a, b := [S('|')] + (PipeToks(q) + rest), PipeToks(q);
    hide PipeToks;
    JoinIs(c, q);
    ThreeToks(SimpleToks(c), [S('|')], b, rest);
  }

  lemma JoinIs(c: Simple, q: Pipeline)
    ensures PipeToks(Join(c, q)) == SimpleToks(c) + ([S('|')] + PipeToks(q))
  {
  }

  ghost predicate LineEnds(rest: seq<Tok>) {
    ToksOk(rest) && (rest == [] || Starts(rest, ")"))
  }

  lemma LineIs(s: string, i: nat, c: Cmd, k: nat, b: Cmd, m: nat)
    requires i <= |s| && k <= |s| && ParsePipe(s, i) == Ok(c, k) && Backs(s, c, k) == (b, m)
    ensures m <= |s| && Skip(s, m) == m && (!Sees(s, m, ";") ==> ParseLine(s, i) == Ok(b, m))
    ensures Sees(s, m, ";") ==>
      var r := ParseLine(s, GetToken(s, m).next);
      ParseLine(s, i) == if r.Panic? then Panic else Ok(List(b, r.value), r.next)
  {
    hide ParsePipe, Skip, GetToken, Sees, Backs;
  }

  lemma {:induction false} LineParse(s: string, i: nat, l: Line, rest: seq<Tok>) returns (d: Cmd, j: nat)
    requires LineOk(l) && Spells(s, i, LineToks(l) + rest) && LineEnds(rest)
    ensures i <= |s| && ParseLine(s, i) == Ok(d, j) && Read(s, d) == LineTree(l) && Spells(s, j, rest)
    decreases l, 2
  {
    hide Spells, GetToken, Skip, Sees, ParsePipe, ParseLine, PipeToks, PipeTree, PipeOk, ToksOk, TokOk, Backs, Asyncs, Amps,
         Starts, PipeEnds, LineToks, LineOk, LineTree, Read, LineEnds;
    LineTreeIs(l);
    var a := if l.Only? then rest else [S(';')] + (LineToks(l.rest) + rest);
    LineParts(l, rest);
    var c, k := PipeParse(s, i, l.p, Amps(l.backs) + a);
    var b, m := BacksParse(s, k, l.backs, c, a);
    LineIs(s, i, c, k, b, m);
    SeesFirst(s, m, a, ";");
    if l.Only? {
      d, j := b, m;
    } else {
      ParensOk();
      NextTok(s, m, S(';'), LineToks(l.rest) + rest);
      var r;
      r, j := LineParse(s, GetToken(s, m).next, l.rest, rest);
      d := List(b, r);
      ListRead(s, b, r);
    }
  }

  lemma LineTreeIs(l: Line)
    ensures LineOk(l) ==> PipeOk(l.p) && (l.Next? ==> LineOk(l.rest))
    ensures l.Only? ==> LineTree(l) == Asyncs(PipeTree(l.p), l.backs)
    ensures l.Next? ==> LineTree(l) == Then(Asyncs(PipeTree(l.p), l.backs), LineTree(l.rest))
  {
  }

  lemma ListRead(s: string, b: Cmd, r: Cmd)
    ensures Read(s, List(b, r)) == Then(Read(s, b), Read(s, r))
  {
  }

  lemma LineParts(l: Line, rest: seq<Tok>)
    requires LineOk(l) && LineEnds(rest)
    ensures var a := if l.Only? then rest else [S(';')] + (LineToks(l.rest) + rest);
      && LineToks(l) + rest == PipeToks(l.p) + (Amps(l.backs) + a) && PipeEnds(Amps(l.backs) + a) && ToksOk(a)
      && !Starts(a, "&") && (Starts(a, ";") <==> l.Next?) && (l.Next? ==> ToksOk(LineToks(l.rest) + rest))
  {
    hide PipeToks, TokOk, PipeOk, LineToks, Amps, ToksOk;
    if l.Next? {
      LineToksOk(l.rest);
      ToksOkMore(LineToks(l.rest), rest);
      SemiOk(LineToks(l.rest) + rest);
      NextIs(l, rest);
      AmpsEnd(l.backs, [S(';')] + (LineToks(l.rest) + rest));
    } else {
      OnlyIs(l, rest);
      AmpsEnd(l.backs, rest);
    }
  }

  lemma SemiOk(toks: seq<Tok>)
    requires ToksOk(toks)
    ensures var a := [S(';')] + toks; ToksOk(a) && Starts(a, ";") && !Starts(a, "&") && PipeEnds(a)
  {
    ParensOk();
  }

  lemma AmpsEnd(n: nat, a: seq<Tok>)
    requires PipeEnds(a)
    ensures PipeEnds(Amps(n) + a)
  {
    hide TokOk;
    AmpsOk(n);
    if n == 0 {
      assert Amps(n) + a == a;
    }
  }

  lemma OnlyIs(l: Line, rest: seq<Tok>)
    requires l.Only?
    ensures LineToks(l) + rest == PipeToks(l.p) + (Amps(l.backs) + rest)
  {
    hide PipeToks, Amps;
  }

  lemma NextIs(l: Line, rest: seq<Tok>)
    requires l.Next?
    ensures LineToks(l) + rest == PipeToks(l.p) + (Amps(l.backs) + ([S(';')] + (LineToks(l.rest) + rest)))
  {
    hide PipeToks, Amps;
    var p, n, r := PipeToks(l.p), Amps(l.backs), LineToks(l.rest);
    assert LineToks(l) == p + (n + ([S(';')] + r));
    assert p + (n + ([S(';')] + r)) + rest == p + (n + ([S(';')] + (r + rest)));
  }

  /** A line of the grammar, with any white space, parses to its tree. */
  lemma Parses(s: string, l: Line)
    requires LineOk(l) && Spells(s, 0, LineToks(l))
    ensures ParseCmd(s).Ok? && Read(s, ParseCmd(s).value) == LineTree(l)
  {
    hide Spells, ParseLine, LineTree, LineToks, Read, Skip;
    assert LineToks(l) + [] == LineToks(l);
    var d, j := LineParse(s, 0, l, []);
    NoTok(s, j);
  }

  // ---------------------------------------------------------------- only they do

  /** The symbol in sight is the next token. */
  lemma SeenIs(s: string, i: nat, kinds: string, rest: seq<Tok>)
    requires i <= |s| && Sees(s, Skip(s, i), kinds) && (forall c :: c in kinds ==> c in "|();&") && ToksOk(rest)
    requires Spells(s, GetToken(s, Skip(s, i)).next, rest)
    ensures var k := s[Skip(s, i)]; k in kinds && ToksOk([S(k)] + rest) && Spells(s, i, [S(k)] + rest)
    ensures i < GetToken(s, Skip(s, i)).next <= |s|
  {
    hide Spells;
    SameToken(s, i);
    var k := s[Skip(s, i)];
    assert GetToken(s, i).kind == k;
    OneMore(s, i, rest);
  }

  lemma {:induction false} BacksFrom(s: string, c: Cmd, i: nat, rest: seq<Tok>) returns (n: nat)
    requires i <= |s| && Spells(s, Backs(s, c, i).1, rest) && ToksOk(rest)
    ensures Read(s, Backs(s, c, i).0) == Asyncs(Read(s, c), n) && Spells(s, i, Amps(n) + rest)
    decreases |s| - i
  {
    hide Spells, GetToken, Skip, Sees, Read, ToksOk;
    if Sees(s, Skip(s, i), "&") {
      AmpSeen(s, i);
      var m := BacksFrom(s, Back(c), GetToken(s, Skip(s, i)).next, rest);
      BackRead(s, c);
      AmpsOk(m);
      ToksOkMore(Amps(m), rest);
      SeenIs(s, i, "&", Amps(m) + rest);
      n := m + 1;
      assert Amps(n) + rest == [S('&')] + (Amps(m) + rest);
    } else {
      n := 0;
      SpellsSkip(s, i, rest);
      assert Amps(0) + rest == rest;
    }
  }

  lemma AmpSeen(s: string, i: nat)
    requires i <= |s| && Sees(s, Skip(s, i), "&")
    ensures i < GetToken(s, Skip(s, i)).next <= |s| && s[Skip(s, i)] == '&'
  {
    SameToken(s, i);
  }

  lemma {:induction false} RedirsFrom(s: string, i: nat, rest: seq<Tok>) returns (files: seq<Item>)
    requires i <= |s| && Redirs(s, i).Ok? && Spells(s, Redirs(s, i).next, rest) && ToksOk(rest)
    ensures Matches(s, Redirs(s, i).value, files) && ItemsOk(files) && (forall k :: 0 <= k < |files| ==> files[k].File?)
    ensures Spells(s, i, ItemToks(files) + rest)
    decreases |s| - i
  {
    hide Spells, GetToken, Skip, Sees, ToksOk, Redirs, Text, IsWord, TokOk, Word, IsOperator;
    RedirsStep(s, i);
    if Sees(s, Skip(s, i), "<>") {
      OperatorSeen(s, i);
      var op := GetToken(s, Skip(s, i));
      var g := GetToken(s, op.next);
      var w := Text(s, Span(g.q, g.eq));
      var f := RedirsFrom(s, g.next, rest);
      ItemToksOk(f);
      ToksOkMore(ItemToks(f), rest);
      WordMore(s, op.next, ItemToks(f) + rest);
      OperatorMore(s, i, [W(w)] + (ItemToks(f) + rest));
      files := [File(op.kind, w)] + f;
      FileHead(op.kind, w, f, rest);
    } else {
      files := [];
      SpellsSkip(s, i, rest);
      assert ItemToks(files) + rest == rest;
    }
  }

  lemma FileHead(kind: char, w: string, f: seq<Item>, rest: seq<Tok>)
    ensures ItemToks([File(kind, w)] + f) + rest == [S(kind)] + ([W(w)] + (ItemToks(f) + rest))
  {
    var items := [File(kind, w)] + f;
    assert items[1..] == f;
    assert [S(kind), W(w)] == [S(kind)] + [W(w)];
  }

  lemma OperatorSeen(s: string, i: nat)
    requires i <= |s| && Sees(s, Skip(s, i), "<>")
    ensures i < GetToken(s, Skip(s, i)).next <= |s| && IsOperator(GetToken(s, Skip(s, i)).kind)
  {
    SameToken(s, i);
  }

  lemma OperatorMore(s: string, i: nat, rest: seq<Tok>)
    requires i <= |s| && Sees(s, Skip(s, i), "<>") && Spells(s, GetToken(s, Skip(s, i)).next, rest) && ToksOk(rest)
    ensures Spells(s, i, [S(GetToken(s, Skip(s, i)).kind)] + rest)
  {
    hide Spells, TokOk;
    SameToken(s, i);
    OneMore(s, i, rest);
  }

  lemma WordMore(s: string, i: nat, rest: seq<Tok>)
    requires i <= |s| && GetToken(s, i).kind == 'a' && Spells(s, GetToken(s, i).next, rest) && ToksOk(rest)
    ensures var g := GetToken(s, i);
      var w := Text(s, Span(g.q, g.eq));
      Word(w) && Spells(s, i, [W(w)] + rest) && ToksOk([W(w)] + rest)
  {
    hide Spells, GetToken;
    OneMore(s, i, rest);
  }

  lemma {:induction false} ArgsFrom(s: string, i: nat, args: seq<Span>, rs: seq<(Span, char)>, rest: seq<Tok>)
    returns (items: seq<Item>, args': seq<Span>, more: seq<(Span, char)>)
    requires i <= |s| && |args| < MAXARGS && (forall k :: 0 <= k < |args| ==> SpanOk(s, args[k]))
    requires forall k :: 0 <= k < |rs| ==> SpanOk(s, rs[k].0)
    requires Args(s, i, args, rs).Ok? && Spells(s, Args(s, i, args, rs).next, rest) && ToksOk(rest)
    ensures Args(s, i, args, rs).value == Wrap(Exec(args'), rs + more) && |args'| < MAXARGS
    ensures Texts(s, args') == Texts(s, args) + Argv(items) && Matches(s, more, FilesOf(items)) && ItemsOk(items)
    ensures Spells(s, i, ItemToks(items) + rest)
    decreases |s| - i
  {
    hide Spells, GetToken, Skip, Sees, Args, Redirs, Text, Texts, IsWord, TokOk, Word, Wrap, ToksOk, Matches, ItemsOk;
    ArgsStep(s, i, args, rs);
    SameToken(s, i);
    var g := GetToken(s, i);
    if Sees(s, Skip(s, i), "|)&;") || g.kind == NUL {
      items, args', more := [], args, [];
      SpellsSkip(s, i, rest);
      NoItems(s, args, rs, rest);
    } else {
      ArgSeen(s, i);
      var r := Redirs(s, g.next);
      var w := Span(g.q, g.eq);
      StillOk(s, args, w, rs, r.value);
      var tail, r2;
      tail, args', r2 := ArgsFrom(s, r.next, args + [w], rs + r.value, rest);
      more := r.value + r2;
      items := ArgsJoin(s, i, args, args', rs, r2, tail, rest);
    }
  }

  lemma NoItems(s: string, args: seq<Span>, rs: seq<(Span, char)>, rest: seq<Tok>)
    ensures rs + [] == rs && Texts(s, args) + Argv([]) == Texts(s, args) && Matches(s, [], FilesOf([])) && ItemsOk([])
    ensures ItemToks([]) + rest == rest
  {
  }

  lemma ArgSeen(s: string, i: nat)
    requires i <= |s| && GetToken(s, i).kind == 'a'
    ensures i < GetToken(s, i).next <= |s| && SpanOk(s, Span(GetToken(s, i).q, GetToken(s, i).eq))
  {
  }

  lemma StillOk(s: string, args: seq<Span>, w: Span, rs: seq<(Span, char)>, more: seq<(Span, char)>)
    requires (forall k :: 0 <= k < |args| ==> SpanOk(s, args[k])) && SpanOk(s, w)
    requires (forall k :: 0 <= k < |rs| ==> SpanOk(s, rs[k].0)) && forall k :: 0 <= k < |more| ==> SpanOk(s, more[k].0)
    ensures forall k :: 0 <= k < |args + [w]| ==> SpanOk(s, (args + [w])[k])
    ensures forall k :: 0 <= k < |rs + more| ==> SpanOk(s, (rs + more)[k].0)
  {
    hide SpanOk;
  }

  lemma ArgsJoin(s: string, i: nat, args: seq<Span>, args': seq<Span>, rs: seq<(Span, char)>, r2: seq<(Span, char)>,
                 tail: seq<Item>, rest: seq<Tok>) returns (items: seq<Item>)
    requires i <= |s| && GetToken(s, i).kind == 'a' && GetToken(s, i).next <= |s|
    requires var r := Redirs(s, GetToken(s, i).next); r.Ok? && Spells(s, r.next, ItemToks(tail) + rest)
    requires ToksOk(rest) && ItemsOk(tail) && Matches(s, r2, FilesOf(tail))
    requires var g := GetToken(s, i); Texts(s, args') == Texts(s, args + [Span(g.q, g.eq)]) + Argv(tail)
    ensures Texts(s, args') == Texts(s, args) + Argv(items) && ItemsOk(items) && Spells(s, i, ItemToks(items) + rest)
    ensures var r1 := Redirs(s, GetToken(s, i).next).value;
      Matches(s, r1 + r2, FilesOf(items)) && rs + r1 + r2 == rs + (r1 + r2)
  {
    hide Spells, GetToken, Redirs, Text, Texts, IsWord, TokOk, Word, ToksOk, Matches, ItemToks, Argv, FilesOf;
    var g := GetToken(s, i);
    var w, r1 := Text(s, Span(g.q, g.eq)), Redirs(s, g.next).value;
    ItemToksOk(tail);
    ToksOkMore(ItemToks(tail), rest);
    var files := RedirsFrom(s, g.next, ItemToks(tail) + rest);
    ItemToksOk(files);
    ToksOkMore(ItemToks(files), ItemToks(tail) + rest);
    WordMore(s, i, ItemToks(files) + (ItemToks(tail) + rest));
    items := [Arg(w)] + (files + tail);
    assert items[1..] == files + tail;
    ItemsParts(items, files, tail);
    ThreeToks([W(w)], ItemToks(files), ItemToks(tail), rest);
    MatchesMore(s, r1, files, r2, FilesOf(tail));
    TextsSnoc(s, args, Span(g.q, g.eq));
    Reassociate(s, args, w, tail, rs, r1, r2);
  }

  lemma PlainFrom(s: string, i: nat, rest: seq<Tok>) returns (c: Simple)
    requires i <= |s| && ParseExec(s, i).Ok? && Spells(s, ParseExec(s, i).next, rest) && ToksOk(rest)
    requires !Sees(s, Skip(s, i), "(")
    ensures SimpleOk(c) && SimpleTree(c) == Read(s, ParseExec(s, i).value) && Spells(s, i, SimpleToks(c) + rest)
  {
    hide Spells, GetToken, Skip, Sees, Args, Redirs, Text, Texts, IsWord, TokOk, Word, Wrap, ToksOk, Matches, ItemsOk,
         ItemToks, Argv, FilesOf, Read, Filed, ParseExec, SimpleTree;
    PlainExec(s, i);
    var r := Redirs(s, Skip(s, i));
    var tail, args', r2 := ArgsFrom(s, r.next, [], r.value, rest);
    ItemToksOk(tail);
    ToksOkMore(ItemToks(tail), rest);
    var files := RedirsFrom(s, Skip(s, i), ItemToks(tail) + rest);
    var items := files + tail;
    c := Plain(items);
    ItemsSplit(files, tail);
    AllFiles(files);
    BothOk(files, tail);
    ItemToksOk(items);
    ToksOkMore(ItemToks(items), rest);
    assert ItemToks(items) + rest == ItemToks(files) + (ItemToks(tail) + rest);
    SpellsSkip(s, i, ItemToks(items) + rest);
    MatchesMore(s, r.value, files, r2, FilesOf(tail));
    assert [] + Argv(tail) == Argv(tail);
    NoTexts(s, Argv(tail));
    TextsSize(s, args');
    PlainRead(s, args', r.value + r2, items);
  }

  lemma NoTexts(s: string, more: seq<string>)
    ensures Texts(s, []) + more == more
  {
  }

  lemma TextsSize(s: string, args: seq<Span>)
    ensures |Texts(s, args)| == |args|
  {
  }

  lemma BothOk(a: seq<Item>, b: seq<Item>)
    requires ItemsOk(a) && ItemsOk(b)
    ensures ItemsOk(a + b)
  {
    hide Word, IsOperator;
  }

  /** What parseexec found at an opening parenthesis. */
  lemma BlockFound(s: string, i: nat)
    requires i <= |s| && Sees(s, Skip(s, i), "(") && ParseExec(s, i).Ok?
    ensures i < GetToken(s, Skip(s, i)).next <= |s| && s[Skip(s, i)] == '('
    ensures var c := ParseLine(s, GetToken(s, Skip(s, i)).next);
      && c.Ok? && Sees(s, Skip(s, c.next), ")") && s[Skip(s, c.next)] == ')'
      && GetToken(s, Skip(s, c.next)).next <= |s|
      && var rs := Redirs(s, GetToken(s, Skip(s, c.next)).next);
      rs.Ok? && ParseExec(s, i) == Ok(Wrap(c.value, rs.value), rs.next)
  {
    hide ParseLine, Redirs, Skip, GetToken, Wrap, WordsOk;
    assert i < GetToken(s, Skip(s, i)).next by { ParenSeen(s, i); }
  }

  lemma ParenSeen(s: string, i: nat)
    requires i <= |s| && Sees(s, Skip(s, i), "(")
    ensures i < GetToken(s, Skip(s, i)).next
  {
    SameToken(s, i);
  }

  lemma {:induction false} SimpleFrom(s: string, i: nat, rest: seq<Tok>) returns (c: Simple)
    requires i <= |s| && ParseExec(s, i).Ok? && Spells(s, ParseExec(s, i).next, rest) && ToksOk(rest)
    ensures SimpleOk(c) && SimpleTree(c) == Read(s, ParseExec(s, i).value) && Spells(s, i, SimpleToks(c) + rest)
    decreases |s| - i, 1
  {
    hide Spells, GetToken, Skip, Sees, ParseExec, ParseLine, Redirs, Wrap, ToksOk, TokOk, ItemToks, Argv, Matches, Read,
         SimpleTree, LineTree, LineToks, ItemsOk, LineOk, SimpleToks, IsWord;
    if !Sees(s, Skip(s, i), "(") {
      c := PlainFrom(s, i, rest);
    } else {
      BlockFound(s, i);
      var b := ParseLine(s, GetToken(s, Skip(s, i)).next);
      var k := b.next;
      var rs := Redirs(s, GetToken(s, Skip(s, k)).next);
      var files := RedirsFrom(s, GetToken(s, Skip(s, k)).next, rest);
      AllFiles(files);
      ItemToksOk(files);
      ToksOkMore(ItemToks(files), rest);
      SeenIs(s, k, ")", ItemToks(files) + rest);
      var line := LineFrom(s, GetToken(s, Skip(s, i)).next, [S(')')] + (ItemToks(files) + rest));
      GroupToks(line, files, rest);
      SeenIs(s, i, "(", LineToks(line) + ([S(')')] + (ItemToks(files) + rest)));
      c := Group(line, files);
      GroupRead(s, b.value, rs.value, line, files);
    }
  }

  lemma {:induction false} PipeFrom(s: string, i: nat, rest: seq<Tok>) returns (p: Pipeline)
    requires i <= |s| && ParsePipe(s, i).Ok? && Spells(s, ParsePipe(s, i).next, rest) && ToksOk(rest)
    ensures PipeOk(p) && PipeTree(p) == Read(s, ParsePipe(s, i).value) && Spells(s, i, PipeToks(p) + rest)
    decreases |s| - i, 2
  {
    hide Spells, GetToken, Skip, Sees, ParseExec, ParsePipe, SimpleToks, SimpleTree, SimpleOk, ToksOk, TokOk;
    PipeFound(s, i);
    var k := ParseExec(s, i).next;
    if Sees(s, Skip(s, k), "|") {
      var q := PipeFrom(s, GetToken(s, Skip(s, k)).next, rest);
      PipeToksOk(q);
      ToksOkMore(PipeToks(q), rest);
      SeenIs(s, k, "|", PipeToks(q) + rest);
      var c := SimpleFrom(s, i, [S('|')] + (PipeToks(q) + rest));
      p := Join(c, q);
      JoinToks(c, q, rest);
    } else {
      SpellsSkip(s, k, rest);
      var c := SimpleFrom(s, i, rest);
      p := One(c);
    }
  }

  lemma PipeFound(s: string, i: nat)
    requires i <= |s| && ParsePipe(s, i).Ok?
    ensures ParseExec(s, i).Ok?
    ensures var l := ParseExec(s, i);
      if Sees(s, Skip(s, l.next), "|") then
        && i < GetToken(s, Skip(s, l.next)).next <= |s| && s[Skip(s, l.next)] == '|'
        && var r := ParsePipe(s, GetToken(s, Skip(s, l.next)).next);
        r.Ok? && ParsePipe(s, i) == Ok(Pipe(l.value, r.value), r.next)
      else ParsePipe(s, i) == Ok(l.value, Skip(s, l.next))
  {
    hide ParseExec, Skip, GetToken, IsWord;
    var l := ParseExec(s, i);
    if l.Ok? && Sees(s, Skip(s, l.next), "|") {
      BarSeen(s, l.next);
    }
  }

  lemma BarSeen(s: string, i: nat)
    requires i <= |s| && (Sees(s, Skip(s, i), "|") || Sees(s, Skip(s, i), ";"))
    ensures i < GetToken(s, Skip(s, i)).next
  {
    SameToken(s, i);
  }

  lemma LineFound(s: string, i: nat)
    requires i <= |s| && ParseLine(s, i).Ok?
    ensures ParsePipe(s, i).Ok?
    ensures var p := ParsePipe(s, i);
      var b := Backs(s, p.value, p.next);
      if Sees(s, b.1, ";") then
        && Skip(s, b.1) == b.1 && i < GetToken(s, b.1).next <= |s| && s[b.1] == ';'
        && var r := ParseLine(s, GetToken(s, b.1).next);
        r.Ok? && ParseLine(s, i) == Ok(List(b.0, r.value), r.next)
      else ParseLine(s, i) == Ok(b.0, b.1)
  {
    hide ParsePipe, Skip, GetToken, IsWord, Backs;
    var p := ParsePipe(s, i);
    if p.Ok? {
      var b := Backs(s, p.value, p.next);
      if Sees(s, b.1, ";") {
        BarSeen(s, b.1);
      }
    }
  }

  lemma {:induction false} LineFrom(s: string, i: nat, rest: seq<Tok>) returns (l: Line)
    requires i <= |s| && ParseLine(s, i).Ok? && Spells(s, ParseLine(s, i).next, rest) && ToksOk(rest)
    ensures LineOk(l) && LineTree(l) == Read(s, ParseLine(s, i).value) && Spells(s, i, LineToks(l) + rest)
    decreases |s| - i, 3
  {
    hide Spells, GetToken, Skip, Sees, ParsePipe, ParseLine, PipeToks, PipeTree, PipeOk, ToksOk, TokOk, Backs, Asyncs, Amps,
         LineToks;
    LineFound(s, i);
    var p := ParsePipe(s, i);
    var b := Backs(s, p.value, p.next);
    if Sees(s, b.1, ";") {
      var r := LineFrom(s, GetToken(s, b.1).next, rest);
      LineToksOk(r);
      ToksOkMore(LineToks(r), rest);
      SeenIs(s, b.1, ";", LineToks(r) + rest);
      var n := BacksFrom(s, p.value, p.next, [S(';')] + (LineToks(r) + rest));
      AmpsOk(n);
      ToksOkMore(Amps(n), [S(';')] + (LineToks(r) + rest));
      var q := PipeFrom(s, i, Amps(n) + ([S(';')] + (LineToks(r) + rest)));
      l := Next(q, n, r);
      NextIs(l, rest);
    } else {
      var n := BacksFrom(s, p.value, p.next, rest);
      AmpsOk(n);
      ToksOkMore(Amps(n), rest);
      var q := PipeFrom(s, i, Amps(n) + rest);
      l := Only(q, n);
      OnlyIs(l, rest);
    }
  }

  lemma Derives(s: string) returns (l: Line)
    requires ParseCmd(s).Ok?
    ensures LineOk(l) && Spells(s, 0, LineToks(l)) && LineTree(l) == Read(s, ParseCmd(s).value)
  {
    hide ParseLine, LineToks, LineTree, Read, Spells;
    var r := ParseLine(s, 0);
    Rest(s, r.next);
    l := LineFrom(s, 0, []);
    assert LineToks(l) + [] == LineToks(l);
  }

  lemma Rest(s: string, i: nat)
    requires i <= |s| && Skip(s, i) == |s|
    ensures Spells(s, i, [])
  {
    SkipBlank(s, i);
  }

  /** The parser accepts exactly the lines of the grammar, and gives each its one tree. */
  lemma AcceptsExactly(s: string)
    ensures ParseCmd(s).Ok? <==> exists l :: LineOk(l) && Spells(s, 0, LineToks(l))
    ensures forall l :: LineOk(l) && Spells(s, 0, LineToks(l)) ==> LineTree(l) == Read(s, ParseCmd(s).value)
  {
    hide ParseCmd, LineToks, LineTree, Read, Spells, LineOk;
    if ParseCmd(s).Ok? {
      var l := Derives(s);
    }
    forall l | LineOk(l) && Spells(s, 0, LineToks(l))
      ensures ParseCmd(s).Ok? && LineTree(l) == Read(s, ParseCmd(s).value)
    {
      Parses(s, l);
    }
  }

  // ---------------------------------------------------------------- printing

  /** A tree without the & around it, and how many there are. */
  function Core(t: Tree): Tree {
    if t.Async? then Core(t.tree) else t
  }

  function Depth(t: Tree): nat {
    if t.Async? then Depth(t.tree) + 1 else 0
  }

  /** A tree without the redirections around it, and these. */
  function Inner(t: Tree): Tree {
    if t.To? then Inner(t.tree) else t
  }

  function Around(t: Tree): seq<Item> {
    if t.To? then Around(t.tree) + [File(t.kind, t.file)] else []
  }

  function Size(t: Tree): nat {
    match t
    case Run(_) => 0
    case To(u, _, _) => Size(u) + 1
    case Piped(l, r) => Size(l) + Size(r) + 1
    case Then(l, r) => Size(l) + Size(r) + 1
    case Async(u) => Size(u) + 1
  }

  lemma CoreSize(t: Tree)
    ensures Size(Core(t)) <= Size(t) && (t.Async? ==> Size(Core(t)) < Size(t)) && !Core(t).Async?
    ensures Size(Inner(t)) <= Size(t) && (t.To? ==> Size(Inner(t)) < Size(t)) && !Inner(t).To?
  {
  }

  /** A line for the tree, with only the parentheses that are needed. */
  function AsLine(t: Tree): Line
    decreases Size(t), if t.Then? || t.Async? then 0 else if t.Piped? then 1 else 2
  {
    if t.Then? then
      CoreSize(t.left);
      Next(AsPipe(Core(t.left)), Depth(t.left), AsLine(t.right))
    else
      CoreSize(t);
      Only(AsPipe(Core(t)), Depth(t))
  }

  function AsPipe(t: Tree): Pipeline
    decreases Size(t), if t.Piped? then 0 else if t.Then? || t.Async? then 2 else 1
  {
    if t.Piped? then Join(AsSimple(t.left), AsPipe(t.right)) else One(AsSimple(t))
  }

  function AsSimple(t: Tree): Simple
    decreases Size(t), if t.Piped? then 2 else if t.Then? || t.Async? then 1 else 0
  {
    CoreSize(t);
    var u := Inner(t);
    if u.Run? then Plain(ArgItems(u.args) + Around(t)) else Group(AsLine(u), Around(t))
  }

  function ArgItems(args: seq<string>): seq<Item> {
    seq(|args|, i requires 0 <= i < |args| => Arg(args[i]))
  }

  lemma {:induction false} CoreBack(t: Tree)
    ensures Asyncs(Core(t), Depth(t)) == t && (Printable(t) ==> Printable(Core(t)))
  {
    if t.Async? {
      CoreBack(t.tree);
      AsyncsLast(Core(t.tree), Depth(t.tree));
    }
  }

  lemma {:induction false} AsyncsLast(t: Tree, n: nat)
    ensures Asyncs(t, n + 1) == Async(Asyncs(t, n))
    decreases n
  {
    if n > 0 {
      AsyncsLast(Async(t), n - 1);
    }
  }

  lemma {:induction false} InnerBack(t: Tree)
    ensures Filed(Inner(t), Around(t)) == t && forall k :: 0 <= k < |Around(t)| ==> Around(t)[k].File?
    ensures Printable(t) ==> Printable(Inner(t)) && ItemsOk(Around(t))
  {
    hide Word, IsOperator;
    if t.To? {
      InnerBack(t.tree);
      FiledLast(Inner(t.tree), Around(t.tree), t.kind, t.file);
    }
  }

  lemma {:induction false} FiledLast(t: Tree, items: seq<Item>, kind: char, file: string)
    ensures Filed(t, items + [File(kind, file)]) == To(Filed(t, items), file, kind)
    decreases |items|
  {
    var all := items + [File(kind, file)];
    if items == [] {
      assert all[1..] == [];
    } else {
      assert all[1..] == items[1..] + [File(kind, file)];
      match items[0]
      case Arg(_) => FiledLast(t, items[1..], kind, file);
      case File(k, w) => FiledLast(To(t, w, k), items[1..], kind, file);
    }
  }

  lemma {:induction false} ArgItemsAre(args: seq<string>)
    ensures Argv(ArgItems(args)) == args && FilesOf(ArgItems(args)) == []
    decreases |args|
  {
    if args != [] {
      assert ArgItems(args)[1..] == ArgItems(args[1..]);
      ArgItemsAre(args[1..]);
    }
  }

  lemma PlainBack(t: Tree, args: seq<string>)
    requires Printable(t) && Inner(t) == Run(args)
    ensures var c := Plain(ArgItems(args) + Around(t)); SimpleOk(c) && SimpleTree(c) == t
  {
    hide Word, IsOperator, Argv, FilesOf, Filed, ArgItems;
    var a, f := ArgItems(args), Around(t);
    InnerBack(t);
    ArgItemsAre(args);
    ItemsSplit(a, f);
    AllFiles(f);
    ArgItemsOk(args);
    BothOk(a, f);
    assert args + [] == args && [] + f == f;
    FiledOf(Run(args), a + f);
  }

  lemma ArgItemsOk(args: seq<string>)
    requires forall k :: 0 <= k < |args| ==> Word(args[k])
    ensures ItemsOk(ArgItems(args))
  {
    hide Word;
  }

  lemma {:induction false} AsSimpleIs(t: Tree)
    requires Printable(t)
    ensures SimpleOk(AsSimple(t)) && SimpleTree(AsSimple(t)) == t
    decreases Size(t), if t.Piped? then 2 else if t.Then? || t.Async? then 1 else 0
  {
    hide Filed, Around, Printable, LineTree, LineOk, Size;
    CoreSize(t);
    InnerBack(t);
    var u := Inner(t);
    if u.Run? {
      PlainBack(t, u.args);
    } else {
      AsLineIs(u);
      AllFiles(Around(t));
    }
  }

  lemma {:induction false} AsPipeIs(t: Tree)
    requires Printable(t)
    ensures PipeOk(AsPipe(t)) && PipeTree(AsPipe(t)) == t
    decreases Size(t), if t.Piped? then 0 else if t.Then? || t.Async? then 2 else 1
  {
    hide SimpleTree, SimpleOk, AsSimple;
    if t.Piped? {
      AsSimpleIs(t.left);
      AsPipeIs(t.right);
    } else {
      AsSimpleIs(t);
    }
  }

  lemma {:induction false} AsLineIs(t: Tree)
    requires Printable(t)
    ensures LineOk(AsLine(t)) && LineTree(AsLine(t)) == t
    decreases Size(t), if t.Then? || t.Async? then 0 else if t.Piped? then 1 else 2
  {
    hide PipeTree, PipeOk, AsPipe, Asyncs, Core, Depth;
    if t.Then? {
      CoreSize(t.left);
      CoreBack(t.left);
      AsPipeIs(Core(t.left));
      AsLineIs(t.right);
    } else {
      CoreSize(t);
      CoreBack(t);
      NoAsync(t);
      AsPipeIs(Core(t));
    }
  }

  lemma NoAsync(t: Tree)
    ensures !t.Async? ==> Core(t) == t
  {
  }

  /** The tokens with a space after each. */
  function Render(toks: seq<Tok>): string {
    if toks == [] then "" else Spelling(toks[0]) + (" " + Render(toks[1..]))
  }

  lemma {:induction false} RenderSpells(s: string, i: nat, toks: seq<Tok>)
    requires i <= |s| && s[i..] == Render(toks)
    ensures Spells(s, i, toks)
    decreases |toks|
  {
    hide Spelling;
    if toks != [] {
      var t, more := toks[0], Render(toks[1..]);
      var e := i + |Spelling(t)|;
      assert s[i..] == Spelling(t) + (" " + more);
      assert s[i..e] == s[i..][..|Spelling(t)|] == Spelling(t);
      assert s[e..] == s[i..][|Spelling(t)|..] == " " + more;
      assert s[e] == s[e..][0] == ' ';
      assert s[e + 1..] == s[e..][1..] == more;
      RenderSpells(s, e + 1, toks[1..]);
      Earlier(s, e, toks[1..]);
      assert [t] + toks[1..] == toks;
      Put(s, i, i, t, toks[1..]);
    }
  }

  /** One more white character in front. */
  lemma Earlier(s: string, i: nat, toks: seq<Tok>)
    requires i < |s| && White(s[i]) && Spells(s, i + 1, toks)
    ensures Spells(s, i, toks)
  {
    if toks != [] {
      var j := Found(s, i + 1, toks);
      assert Blank(s, i, j);
    }
  }

  function Print(t: Tree): string {
    Render(LineToks(AsLine(t)))
  }

  /** Parsing the print of a tree gives the tree back, also with any other white space between the
      tokens. */
  lemma RoundTrip(t: Tree, s: string)
    requires Printable(t) && Spells(s, 0, LineToks(AsLine(t)))
    ensures ParseCmd(s).Ok? && Read(s, ParseCmd(s).value) == t
  {
    hide ParseCmd, Printable, AsLine, LineTree, LineOk, LineToks, Spells, Read;
    AsLineIs(t);
    Parses(s, AsLine(t));
  }

  lemma PrintParses(t: Tree)
    requires Printable(t)
    ensures var s := Print(t); ParseCmd(s).Ok? && Read(s, ParseCmd(s).value) == t
  {
    hide ParseCmd, Printable, AsLine, LineToks, Spells, Read, Render;
    var s := Print(t);
    assert s[0..] == s;
    RenderSpells(s, 0, LineToks(AsLine(t)));
    RoundTrip(t, s);
  }
}
