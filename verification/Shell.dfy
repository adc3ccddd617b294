/** The parser of sh.c. The command line is a sequence of characters without NUL; positions in it
    stand for pointers, and reading at its end finds the NUL. A parsed command refers to its
    words by their positions. */
module Shell {
  const NUL: char := '\0'
  const MAXARGS: nat := 10

  predicate White(c: char) {
    c in " \t\r\n\U{0b}"
  }

  predicate Symbol(c: char) {
    c in "<|>&;()"
  }

  // ---------------------------------------------------------------- tokens

  /** The first position from i on that is not white space. */
  function Skip(s: string, i: nat): (j: nat)
    requires i <= |s|
    ensures i <= j <= |s| && (j < |s| ==> !White(s[j]))
    decreases |s| - i
  {
    if i < |s| && White(s[i]) then Skip(s, i + 1) else i
  }

  function WordEnd(s: string, i: nat): (j: nat)
    requires i <= |s|
    ensures i <= j <= |s| && (i < j ==> IsWord(s, i, j))
    ensures i < |s| && !White(s[i]) && !Symbol(s[i]) ==> i < j
    decreases |s| - i
  {
    if i < |s| && !White(s[i]) && !Symbol(s[i]) then WordEnd(s, i + 1) else i
  }

  /** gettoken: the kind of the token, its first position and the one after its last, and where the
      next token starts. */
  datatype Token = Token(kind: char, q: nat, eq: nat, next: nat)

  function GetToken(s: string, i: nat): (t: Token)
    requires i <= |s|
    ensures i <= t.q <= t.eq <= t.next <= |s|
    ensures t.kind == NUL <==> t.q == |s|
    ensures t.kind != NUL ==> t.q < t.eq
    ensures t.kind == 'a' ==> IsWord(s, t.q, t.eq)
    ensures t.next == Skip(s, t.eq) && t.q == Skip(s, i)
  {
    var q := Skip(s, i);
    if q == |s| then Token(NUL, q, q, q)
    else if s[q] in "|();&<" then Token(s[q], q, q + 1, Skip(s, q + 1))
    else if s[q] == '>' && q + 1 < |s| && s[q + 1] == '>' then Token('+', q, q + 2, Skip(s, q + 2))
    else if s[q] == '>' then Token('>', q, q + 1, Skip(s, q + 1))
    else Token('a', q, WordEnd(s, q), Skip(s, WordEnd(s, q)))
  }

  /** s[q..eq] is a whole word of s. */
  ghost predicate IsWord(s: string, q: nat, eq: nat) {
    && q < eq <= |s| && (forall k :: q <= k < eq ==> !White(s[k]) && !Symbol(s[k]))
    && (eq < |s| ==> White(s[eq]) || Symbol(s[eq]))
  }

  /** peek, at a position where white space has been skipped. */
  predicate Sees(s: string, j: nat, toks: string) {
    j < |s| && s[j] in toks
  }

  // ---------------------------------------------------------------- commands

  datatype Span = Span(q: nat, eq: nat)

  /** The kind of a redirection is its operator: < > or + for >>. */
  datatype Cmd =
    | Exec(args: seq<Span>)
    | Redir(cmd: Cmd, file: Span, kind: char)
    | Pipe(left: Cmd, right: Cmd)
    | List(left: Cmd, right: Cmd)
    | Back(cmd: Cmd)

  datatype Result<T> = Ok(value: T, next: nat) | Panic

  ghost predicate SpanOk(s: string, w: Span) {
    IsWord(s, w.q, w.eq)
  }

  ghost predicate WordsOk(s: string, c: Cmd) {
    match c
    case Exec(args) => forall i :: 0 <= i < |args| ==> SpanOk(s, args[i])
    case Redir(d, file, _) => SpanOk(s, file) && WordsOk(s, d)
    case Pipe(l, r) => WordsOk(s, l) && WordsOk(s, r)
    case List(l, r) => WordsOk(s, l) && WordsOk(s, r)
    case Back(d) => WordsOk(s, d)
  }

  // ---------------------------------------------------------------- the grammar

  /** The redirections that parseredirs finds, in order. */
  function Redirs(s: string, i: nat): (r: Result<seq<(Span, char)>>)
    requires i <= |s|
    ensures r.Ok? ==> i <= r.next <= |s| && forall k :: 0 <= k < |r.value| ==> SpanOk(s, r.value[k].0)
    decreases |s| - i
  {
    var j := Skip(s, i);
    if !Sees(s, j, "<>") then Ok([], j) else
      var op := GetToken(s, j);
      var w := GetToken(s, op.next);
      if w.kind != 'a' then Panic else
        var rest := Redirs(s, w.next);
        if rest.Panic? then Panic else Ok([(Span(w.q, w.eq), op.kind)] + rest.value, rest.next)
  }

  /** Each redirection goes around the command so far. */
  function Wrap(c: Cmd, rs: seq<(Span, char)>): Cmd
    decreases |rs|
  {
    if rs == [] then c else Wrap(Redir(c, rs[0].0, rs[0].1), rs[1..])
  }

  lemma WrapOk(s: string, c: Cmd, rs: seq<(Span, char)>)
    requires WordsOk(s, c) && forall k :: 0 <= k < |rs| ==> SpanOk(s, rs[k].0)
    ensures WordsOk(s, Wrap(c, rs))
    decreases |rs|
  {
    if rs != [] {
      WrapOk(s, Redir(c, rs[0].0, rs[0].1), rs[1..]);
    }
  }

  /** The loop of parseexec, with the arguments and redirections found so far. */
  function Args(s: string, i: nat, args: seq<Span>, rs: seq<(Span, char)>): (r: Result<Cmd>)
    requires i <= |s| && |args| < MAXARGS
    requires (forall k :: 0 <= k < |args| ==> SpanOk(s, args[k])) && forall k :: 0 <= k < |rs| ==> SpanOk(s, rs[k].0)
    ensures r.Ok? ==> i <= r.next <= |s| && WordsOk(s, r.value)
    decreases |s| - i
  {
    var j := Skip(s, i);
    var t := GetToken(s, j);
    if Sees(s, j, "|)&;") || t.kind == NUL then
      WrapOk(s, Exec(args), rs);
      Ok(Wrap(Exec(args), rs), j)
    else if t.kind != 'a' || |args| + 1 >= MAXARGS then Panic
    else
      var more := Redirs(s, t.next);
      if more.Panic? then Panic else Args(s, more.next, args + [Span(t.q, t.eq)], rs + more.value)
  }

  function ParseExec(s: string, i: nat): (r: Result<Cmd>)
    requires i <= |s|
    ensures r.Ok? ==> i <= r.next <= |s| && WordsOk(s, r.value)
    decreases |s| - i, 1
  {
    var j := Skip(s, i);
    if Sees(s, j, "(") then ParseBlock(s, j) else
      var rs := Redirs(s, j);
      if rs.Panic? then Panic else Args(s, rs.next, [], rs.value)
  }

  function ParseBlock(s: string, j: nat): (r: Result<Cmd>)
    requires j <= |s| && Sees(s, j, "(")
    ensures r.Ok? ==> j < r.next <= |s| && WordsOk(s, r.value)
    decreases |s| - j, 0
  {
    assert !White(s[j]);
    var c := ParseLine(s, GetToken(s, j).next);
    if c.Panic? then Panic else
      var k := Skip(s, c.next);
      if !Sees(s, k, ")") then Panic else
        var rs := Redirs(s, GetToken(s, k).next);
        if rs.Panic? then Panic else
          WrapOk(s, c.value, rs.value);
          Ok(Wrap(c.value, rs.value), rs.next)
  }

  function ParsePipe(s: string, i: nat): (r: Result<Cmd>)
    requires i <= |s|
    ensures r.Ok? ==> i <= r.next <= |s| && WordsOk(s, r.value)
    decreases |s| - i, 2
  {
    var l := ParseExec(s, i);
    if l.Panic? then Panic else
      var j := Skip(s, l.next);
      if !Sees(s, j, "|") then Ok(l.value, j) else
        var r := ParsePipe(s, GetToken(s, j).next);
        if r.Panic? then Panic else Ok(Pipe(l.value, r.value), r.next)
  }

  /** The loop of parseline: each & puts the command into the background. */
  function Backs(s: string, c: Cmd, i: nat): (r: (Cmd, nat))
    requires i <= |s|
    ensures i <= r.1 <= |s| && r.1 == Skip(s, r.1) && !Sees(s, r.1, "&") && (WordsOk(s, c) ==> WordsOk(s, r.0))
    decreases |s| - i
  {
    var j := Skip(s, i);
    if Sees(s, j, "&") then Backs(s, Back(c), GetToken(s, j).next) else (c, j)
  }

  function ParseLine(s: string, i: nat): (r: Result<Cmd>)
    requires i <= |s|
    ensures r.Ok? ==> i <= r.next <= |s| && WordsOk(s, r.value)
    decreases |s| - i, 3
  {
    var p := ParsePipe(s, i);
    if p.Panic? then Panic else
      var b := Backs(s, p.value, p.next);
      if !Sees(s, b.1, ";") then Ok(b.0, b.1) else
        var r := ParseLine(s, GetToken(s, b.1).next);
        if r.Panic? then Panic else Ok(List(b.0, r.value), r.next)
  }

  /** parsecmd, before nulterminate: the whole line has to be used up. */
  function ParseCmd(s: string): (r: Result<Cmd>)
    ensures r.Ok? ==> WordsOk(s, r.value)
  {
    var r := ParseLine(s, 0);
    if r.Ok? && Skip(s, r.next) == |s| then Ok(r.value, |s|) else Panic
  }

  // ---------------------------------------------------------------- trees

  /** A command with its words spelt out. */
  datatype Tree =
    | Run(args: seq<string>)
    | To(tree: Tree, file: string, kind: char)
    | Piped(left: Tree, right: Tree)
    | Then(left: Tree, right: Tree)
    | Async(tree: Tree)

  predicate IsOperator(kind: char) {
    kind in "<>+"
  }

  predicate Word(w: string) {
    w != "" && forall k :: 0 <= k < |w| ==> !White(w[k]) && !Symbol(w[k])
  }

  /** The trees that have a command line: proper words, fewer of them than argv has room for. */
  predicate Printable(t: Tree) {
    match t
    case Run(args) => |args| < MAXARGS && forall i :: 0 <= i < |args| ==> Word(args[i])
    case To(u, file, kind) => Printable(u) && Word(file) && IsOperator(kind)
    case Piped(l, r) => Printable(l) && Printable(r)
    case Then(l, r) => Printable(l) && Printable(r)
    case Async(u) => Printable(u)
  }

  function Operator(kind: char): string {
    if kind == '+' then ">>" else [kind]
  }

  function Text(s: string, w: Span): string {
    if w.q <= w.eq <= |s| then s[w.q..w.eq] else ""
  }

  function Texts(s: string, args: seq<Span>): (r: seq<string>)
    ensures |r| == |args|
  {
    seq(|args|, i requires 0 <= i < |args| => Text(s, args[i]))
  }

  /** The tree that a parsed command stands for. */
  function Read(s: string, c: Cmd): Tree {
    match c
    case Exec(args) => Run(Texts(s, args))
    case Redir(d, file, kind) => To(Read(s, d), Text(s, file), kind)
    case Pipe(l, r) => Piped(Read(s, l), Read(s, r))
    case List(l, r) => Then(Read(s, l), Read(s, r))
    case Back(d) => Async(Read(s, d))
  }

  lemma WordEndIs(s: string, i: nat, e: nat)
    requires i <= e <= |s| && (forall k :: i <= k < e ==> !White(s[k]) && !Symbol(s[k]))
    requires (e < |s| ==> White(s[e]) || Symbol(s[e]))
    ensures WordEnd(s, i) == e
    decreases e - i
  {
    if i < e {
      WordEndIs(s, i + 1, e);
    }
  }

  lemma SkipTwice(s: string, i: nat)
    requires i <= |s|
    ensures Skip(s, Skip(s, i)) == Skip(s, i)
  {
  }

  // ---------------------------------------------------------------- the parser as it runs

  datatype Outcome = Done(cmd: Cmd) | Panicked

  /** What a parse method makes of the result that the grammar gives. */
  ghost predicate Agrees(o: Outcome, ps: nat, r: Result<Cmd>) {
    if r.Panic? then o.Panicked? else o == Done(r.value) && ps == r.next
  }

  /** parseredirs from position i on, around the command c. */
  function Onto(s: string, c: Cmd, i: nat): Result<Cmd>
    requires i <= |s|
  {
    var rs := Redirs(s, i);
    if rs.Panic? then Panic else Ok(Wrap(c, rs.value), rs.next)
  }

  lemma OntoStep(s: string, c: Cmd, i: nat)
    requires i <= |s|
    ensures var j := Skip(s, i);
      if !Sees(s, j, "<>") then Onto(s, c, i) == Ok(c, j) else
        var op := GetToken(s, j);
        var w := GetToken(s, op.next);
        Onto(s, c, i) == if w.kind != 'a' then Panic else Onto(s, Redir(c, Span(w.q, w.eq), op.kind), w.next)
  {
    hide Skip, GetToken, Sees, IsWord;
  }

  class Parser {
    const s: string
    /** The cursor that all parse methods share. */
    var ps: nat

    constructor (s: string)
      ensures this.s == s && ps == 0
    {
      this.s := s;
      ps := 0;
    }

    method Peek(toks: string) returns (b: bool)
      requires ps <= |s|
      modifies this
      ensures ps == Skip(s, old(ps)) == Skip(s, ps) <= |s| && b == Sees(s, ps, toks) && (b ==> ps < |s|)
    {
      while ps < |s| && White(s[ps])
        invariant ps <= |s| && Skip(s, ps) == Skip(s, old(ps))
      {
        ps := ps + 1;
      }
      return ps < |s| && s[ps] in toks;
    }

    /** gettoken's loop over the characters of a word. */
    method WordTail()
      requires ps <= |s|
      modifies this
      ensures ps == WordEnd(s, old(ps)) <= |s|
    {
      while ps < |s| && !White(s[ps]) && !Symbol(s[ps])
        invariant ps <= |s| && WordEnd(s, ps) == WordEnd(s, old(ps))
      {
        ps := ps + 1;
      }
    }

    method Gettoken() returns (t: Token)
      requires ps <= |s|
      modifies this
      ensures t == GetToken(s, old(ps)) && ps == t.next <= |s|
    {
      hide Skip, WordEnd, IsWord, White, Symbol;
      var _ := Peek("");
      var q, ret := ps, NUL;
      if ps < |s| {
        ret := s[ps];
        if ret in "|();&<" {
          ps := ps + 1;
        } else if ret == '>' {
          ps := ps + 1;
          if ps < |s| && s[ps] == '>' {
            ret := '+';
            ps := ps + 1;
          }
        } else {
          ret := 'a';
          WordTail();
        }
      }
      var eq := ps;
      var _ := Peek("");
      t := Token(ret, q, eq, ps);
    }

    method Parseredirs(cmd: Cmd) returns (o: Outcome)
      requires ps <= |s|
      modifies this
      ensures ps <= |s| && Agrees(o, ps, Onto(s, cmd, old(ps)))
    {
      hide GetToken, Skip, Sees, Redirs, Wrap, Onto;
      var c := cmd;
      while true
        invariant old(ps) <= ps <= |s| && Onto(s, c, ps) == Onto(s, cmd, old(ps))
        decreases |s| - ps
      {
        OntoStep(s, c, ps);
        var more := Peek("<>");
        if !more {
          return Done(c);
        }
        SeesKind(s, ps);
        var op := Gettoken();
        var w := Gettoken();
        if w.kind != 'a' {
          return Panicked;
        }
        c := Redir(c, Span(w.q, w.eq), op.kind);
      }
    }

    method Parseexec() returns (o: Outcome)
      requires ps <= |s|
      modifies this
      ensures ps <= |s| && Agrees(o, ps, ParseExec(s, old(ps)))
      decreases |s| - ps, 1
    {
      hide GetToken, Skip, Sees, Redirs, Wrap, Args, ParseBlock, IsWord;
      var paren := Peek("(");
      SkipTwice(s, old(ps));
      if paren {
        o := Parseblock();
        return;
      }
      var args: seq<Span>, rs: seq<(Span, char)> := [], [];
      var ok, more := RedirList();
      if !ok {
        return Panicked;
      }
      rs := more;
      while true
        invariant ps <= |s| && |args| < MAXARGS && (forall k :: 0 <= k < |args| ==>
          SpanOk(s, args[k])) && forall k :: 0 <= k < |rs| ==> SpanOk(s, rs[k].0)
        invariant Args(s, ps, args, rs) == ParseExec(s, old(ps))
        decreases |s| - ps
      {
        ArgsStep(s, ps, args, rs);
        var end := Peek("|)&;");
        if end {
          break;
        }
        var t := Gettoken();
        if t.kind == NUL {
          break;
        }
        if t.kind != 'a' {
          return Panicked;
        }
        args := args + [Span(t.q, t.eq)];
        if |args| >= MAXARGS {
          return Panicked;
        }
        ok, more := RedirList();
        if !ok {
          return Panicked;
        }
        rs := rs + more;
      }
      o := Done(Wrap(Exec(args), rs));
    }

    /** parseredirs, as parseexec uses it: the redirections are kept apart from the command, whose
        arguments are still to come. */
    method RedirList() returns (ok: bool, rs: seq<(Span, char)>)
      requires ps <= |s|
      modifies this
      ensures old(ps) <= ps <= |s|
      ensures var r := Redirs(s, old(ps)); if r.Panic? then !ok else ok && rs == r.value && ps == r.next
      decreases |s| - ps, 0
    {
      hide GetToken, Skip, Sees, Redirs;
      rs := [];
      AfterNone(Redirs(s, ps));
      while true
        invariant old(ps) <= ps <= |s| && Redirs(s, old(ps)) == After(rs, Redirs(s, ps))
        decreases |s| - ps
      {
        RedirsStep(s, ps);
        var more := Peek("<>");
        if !more {
          return true, rs;
        }
        SeesKind(s, ps);
        var op := Gettoken();
        var w := Gettoken();
        if w.kind != 'a' {
          return false, [];
        }
        AfterAfter(rs, (Span(w.q, w.eq), op.kind), Redirs(s, ps));
        rs := rs + [(Span(w.q, w.eq), op.kind)];
      }
    }

    method Parseblock() returns (o: Outcome)
      requires ps <= |s| && Sees(s, ps, "(")
      modifies this
      ensures ps <= |s| && Agrees(o, ps, ParseBlock(s, old(ps)))
      decreases |s| - ps, 0
    {
      hide GetToken, Skip, Redirs, Wrap, ParseLine, IsWord;
      var _ := Gettoken();
      o := Parseline();
      if o.Panicked? {
        return;
      }
      var closed := Peek(")");
      if !closed {
        return Panicked;
      }
      var _ := Gettoken();
      o := Parseredirs(o.cmd);
    }

    method Parsepipe() returns (o: Outcome)
      requires ps <= |s|
      modifies this
      ensures ps <= |s| && Agrees(o, ps, ParsePipe(s, old(ps)))
      decreases |s| - ps, 2
    {
      hide GetToken, Skip, ParseExec, IsWord;
      o := Parseexec();
      if o.Panicked? {
        return;
      }
      var bar := Peek("|");
      if bar {
        var left := o.cmd;
        SeesKind(s, ps);
        var _ := Gettoken();
        o := Parsepipe();
        if o.Done? {
          o := Done(Pipe(left, o.cmd));
        }
      }
    }

    method Parseline() returns (o: Outcome)
      requires ps <= |s|
      modifies this
      ensures ps <= |s| && Agrees(o, ps, ParseLine(s, old(ps)))
      decreases |s| - ps, 3
    {
      hide GetToken, Skip, ParsePipe, IsWord;
      o := Parsepipe();
      if o.Panicked? {
        return;
      }
      var cmd := o.cmd;
      ghost var b := Backs(s, cmd, ps);
      var amp := Peek("&");
      while amp
        invariant old(ps) <= ps <= |s| && Skip(s, ps) == ps && amp == Sees(s, ps, "&") && Backs(s, cmd, ps) == b
        decreases |s| - ps
      {
        SeesKind(s, ps);
        var _ := Gettoken();
        cmd := Back(cmd);
        amp := Peek("&");
      }
      var semi := Peek(";");
      if semi {
        SeesKind(s, ps);
        var _ := Gettoken();
        o := Parseline();
        if o.Done? {
          o := Done(List(cmd, o.cmd));
        }
      } else {
        o := Done(cmd);
      }
    }
  }

  function After(rs: seq<(Span, char)>, r: Result<seq<(Span, char)>>): Result<seq<(Span, char)>> {
    if r.Panic? then Panic else Ok(rs + r.value, r.next)
  }

  lemma AfterNone(r: Result<seq<(Span, char)>>)
    ensures After([], r) == r
  {
    if r.Ok? {
      assert [] + r.value == r.value;
    }
  }

  lemma AfterAfter(rs: seq<(Span, char)>, x: (Span, char), r: Result<seq<(Span, char)>>)
    ensures After(rs, After([x], r)) == After(rs + [x], r)
  {
    if r.Ok? {
      assert rs + ([x] + r.value) == rs + [x] + r.value;
    }
  }

  lemma RedirsStep(s: string, i: nat)
    requires i <= |s|
    ensures var j := Skip(s, i);
      if !Sees(s, j, "<>") then Redirs(s, i) == Ok([], j) else
        var op := GetToken(s, j);
        var w := GetToken(s, op.next);
        Redirs(s, i) == if w.kind != 'a' then Panic else After([(Span(w.q, w.eq), op.kind)], Redirs(s, w.next))
  {
    hide Skip, GetToken, Sees, IsWord;
  }

  /** A symbol in sight makes gettoken move on. */
  lemma SeesKind(s: string, j: nat)
    requires j < |s| && Skip(s, j) == j
    ensures GetToken(s, j).next > j
  {
  }

  lemma ArgsStep(s: string, i: nat, args: seq<Span>, rs: seq<(Span, char)>)
    requires i <= |s| && |args| < MAXARGS
    requires (forall k :: 0 <= k < |args| ==> SpanOk(s, args[k])) && forall k :: 0 <= k < |rs| ==> SpanOk(s, rs[k].0)
    ensures var j := Skip(s, i);
      var t := GetToken(s, j);
      if Sees(s, j, "|)&;") || t.kind == NUL then Args(s, i, args, rs) == Ok(Wrap(Exec(args), rs), j)
      else if t.kind != 'a' || |args| + 1 >= MAXARGS then Args(s, i, args, rs).Panic?
      else
        var more := Redirs(s, t.next);
        if more.Panic? then Args(s, i, args, rs).Panic?
        else Args(s, i, args, rs) == Args(s, more.next, args + [Span(t.q, t.eq)], rs + more.value)
  {
  }

  // ---------------------------------------------------------------- nulterminate

  /** The words of a command. */
  ghost function Spans(c: Cmd): set<Span> {
    match c
    case Exec(args) => set i | 0 <= i < |args| :: args[i]
    case Redir(d, file, _) => Spans(d) + {file}
    case Pipe(l, r) => Spans(l) + Spans(r)
    case List(l, r) => Spans(l) + Spans(r)
    case Back(d) => Spans(d)
  }

  lemma SpansOk(s: string, c: Cmd)
    requires WordsOk(s, c)
    ensures forall w :: w in Spans(c) ==> SpanOk(s, w)
  {
  }

  /** buf is as it was before, but for a NUL after every word of ws. */
  ghost predicate Ended(buf: seq<char>, buf': seq<char>, ws: set<Span>) {
    && |buf'| == |buf|
    && (forall w :: w in ws && w.eq < |buf| ==> buf'[w.eq] == NUL)
    && (forall i :: 0 <= i < |buf| && (forall w :: w in ws ==> w.eq != i) ==> buf'[i] == buf[i])
    && (forall i :: 0 <= i < |buf| ==> buf'[i] == buf[i] || buf'[i] == NUL)
  }

  lemma EndedTwice(a: seq<char>, b: seq<char>, c: seq<char>, v: set<Span>, w: set<Span>)
    requires Ended(a, b, v) && Ended(b, c, w)
    ensures Ended(a, c, v + w)
  {
    forall i | 0 <= i < |a| && forall x :: x in v + w ==> x.eq != i
      ensures c[i] == a[i]
    {
      assert forall x :: x in v ==> x in v + w;
      assert forall x :: x in w ==> x in v + w;
    }
  }

  lemma EndedOne(a: seq<char>, w: Span)
    requires w.eq < |a|
    ensures Ended(a, a[w.eq := NUL], {w})
  {
    assert w in {w};
  }

  /** nulterminate: a NUL after every argument and every file name of the command. */
  method Nulterminate(buf: array<char>, c: Cmd)
    requires forall w :: w in Spans(c) ==> w.eq < buf.Length
    modifies buf
    ensures Ended(old(buf[..]), buf[..], Spans(c))
    decreases c
  {
    hide Ended;
    ghost var before := buf[..];
    match c
    case Exec(args) =>
      var i := 0;
      EndedNone(before);
      ghost var done: set<Span> := {};
      while i < |args|
        invariant 0 <= i <= |args| && Ended(before, buf[..], done) && done == set k | 0 <= k < i :: args[k]
      {
        assert args[i] in Spans(c);
        ghost var now := buf[..];
        EndedOne(now, args[i]);
        buf[args[i].eq] := NUL;
        assert buf[..] == now[args[i].eq := NUL];
        EndedTwice(before, now, buf[..], done, {args[i]});
        done := done + {args[i]};
        i := i + 1;
      }
      assert done == Spans(c);
    case Redir(d, file, _) =>
      Nulterminate(buf, d);
      ghost var now := buf[..];
      EndedOne(now, file);
      buf[file.eq] := NUL;
      assert buf[..] == now[file.eq := NUL];
      EndedTwice(before, now, buf[..], Spans(d), {file});
    case Pipe(l, r) =>
      Nulterminate(buf, l);
      ghost var now := buf[..];
      Nulterminate(buf, r);
      EndedTwice(before, now, buf[..], Spans(l), Spans(r));
    case List(l, r) =>
      Nulterminate(buf, l);
      ghost var now := buf[..];
      Nulterminate(buf, r);
      EndedTwice(before, now, buf[..], Spans(l), Spans(r));
    case Back(d) =>
      Nulterminate(buf, d);
  }

  lemma EndedNone(a: seq<char>)
    ensures Ended(a, a, {})
  {
  }

  /** The string that a C program finds at position q of a buffer. */
  function CString(buf: seq<char>, q: nat): string
    requires q <= |buf|
    decreases |buf| - q
  {
    if q == |buf| || buf[q] == NUL then "" else [buf[q]] + CString(buf, q + 1)
  }

  lemma {:induction false} CStringIs(buf: seq<char>, q: nat, e: nat)
    requires q <= e < |buf| && buf[e] == NUL && forall k :: q <= k < e ==> buf[k] != NUL
    ensures CString(buf, q) == buf[q..e]
    decreases e - q
  {
    if q < e {
      CStringIs(buf, q + 1, e);
      assert buf[q..e] == [buf[q]] + buf[q + 1..e];
    }
  }

  /** After nulterminate every word reads as exactly its token: no NUL falls inside another word. */
  lemma WordsRead(s: string, buf: seq<char>, ws: set<Span>, w: Span)
    requires NUL !in s && Ended(s + [NUL], buf, ws) && (forall v :: v in ws ==> SpanOk(s, v)) && w in ws
    ensures w.q <= |buf| && CString(buf, w.q) == Text(s, w)
  {
    var b := s + [NUL];
    assert SpanOk(s, w);
    forall k | w.q <= k < w.eq
      ensures buf[k] == s[k] && buf[k] != NUL
    {
      assert b[k] == s[k] && s[k] in s;
      forall v | v in ws
        ensures v.eq != k
      {
        assert SpanOk(s, v);
      }
    }
    CStringIs(buf, w.q, w.eq);
    assert buf[w.q..w.eq] == s[w.q..w.eq];
  }

  /** parsecmd on the line s in the buffer: it panics exactly when the grammar does not take the whole
      line; otherwise it returns the command of the grammar, and every argument and file name reads
      as its token. */
  method Parsecmd(s: string, buf: array<char>) returns (o: Outcome)
    requires NUL !in s && buf[..] == s + [NUL]
    modifies buf
    ensures o.Panicked? <==> ParseCmd(s).Panic?
    ensures o.Panicked? ==> buf[..] == old(buf[..])
    ensures o.Done? ==> o.cmd == ParseCmd(s).value
    ensures o.Done? ==> forall w :: w in Spans(o.cmd) ==> w.q <= buf.Length && CString(buf[..], w.q) == Text(s, w)
  {
    hide ParseLine, Ended, CString, WordsOk, Spans, IsWord;
    var parser := new Parser(s);
    o := parser.Parseline();
    if o.Panicked? {
      return;
    }
    var _ := parser.Peek("");
    if parser.ps != |s| {
      return Panicked;
    }
    SpansOk(s, o.cmd);
    SpansInside(s, Spans(o.cmd));
    Nulterminate(buf, o.cmd);
    forall w | w in Spans(o.cmd)
      ensures w.q <= buf.Length && CString(buf[..], w.q) == Text(s, w)
    {
      WordsRead(s, buf[..], Spans(o.cmd), w);
    }
  }

  lemma SpansInside(s: string, ws: set<Span>)
    requires forall w :: w in ws ==> SpanOk(s, w)
    ensures forall w :: w in ws ==> w.eq <= |s|
  {
    forall w | w in ws
      ensures w.eq <= |s|
    {
      assert SpanOk(s, w);
    }
  }
}
