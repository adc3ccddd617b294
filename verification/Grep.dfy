/** grep.c: the pattern matcher, against the language that a pattern describes, and the loop that
    cuts buffered input into lines, against the lines of the whole input. A C string is a sequence
    of characters without NUL. */
module Grep {
  const NUL: char := '\0'
  const BUFSIZE: nat := 1024

  // ---------------------------------------------------------------- the language of a pattern

  /** The parts of a pattern: one character, a starred one, or the end of the text. */
  datatype Item = One(c: char) | Star(c: char) | End

  function Items(re: string): seq<Item> {
    if re == "" then []
    else if |re| > 1 && re[1] == '*' then [Star(re[0])] + Items(re[2..])
    else if re == "$" then [End]
    else [One(re[0])] + Items(re[1..])
  }

  predicate Fits(c: char, x: char) {
    c == '.' || c == x
  }

  /** The item matches text[i..j]. */
  ghost predicate Piece(item: Item, text: string, i: nat, j: nat) {
    && i <= j <= |text|
    && match item
       case One(c) => j == i + 1 && Fits(c, text[i])
       case Star(c) => forall k :: i <= k < j ==> Fits(c, text[k])
       case End => i == j == |text|
  }

  /** The items match text from position cuts[0] on, each from one cut to the next. */
  ghost predicate Divides(items: seq<Item>, text: string, cuts: seq<nat>) {
    && |cuts| == |items| + 1
    && (forall i :: 0 <= i < |items| ==> Piece(items[i], text, cuts[i], cuts[i + 1]))
  }

  /** Some division of text from position `at` on matches the items. */
  ghost predicate Accepts(items: seq<Item>, text: string, at: nat) {
    exists cuts :: Divides(items, text, cuts) && cuts[0] == at
  }

  /** The pattern matches somewhere in the text, or at its start if it begins with ^. */
  ghost predicate Matches(re: string, text: string) {
    if re != "" && re[0] == '^' then Accepts(Items(re[1..]), text, 0)
    else exists at: nat :: at <= |text| && Accepts(Items(re), text, at)
  }

  lemma AcceptsNone(text: string, at: nat)
    ensures Accepts([], text, at)
  {
    assert Divides([], text, [at]) && [at][0] == at;
  }

  /** The first item takes text[at..j], and the others the rest. */
  lemma AcceptsCons(item: Item, rest: seq<Item>, text: string, at: nat)
    ensures Accepts([item] + rest, text, at) <==> exists j :: Piece(item, text, at, j) && Accepts(rest, text, j)
  {
    var items := [item] + rest;
    if cuts :| Divides(items, text, cuts) && cuts[0] == at {
      assert Piece(items[0], text, cuts[0], cuts[1]);
      var tail := cuts[1..];
      forall i | 0 <= i < |rest|
        ensures Piece(rest[i], text, tail[i], tail[i + 1])
      {
        assert Piece(items[i + 1], text, cuts[i + 1], cuts[i + 2]);
      }
      assert Divides(rest, text, tail) && tail[0] == cuts[1];
    }
    if j :| Piece(item, text, at, j) && Accepts(rest, text, j) {
      var tail :| Divides(rest, text, tail) && tail[0] == j;
      var cuts := [at] + tail;
      forall i | 0 <= i < |items|
        ensures Piece(items[i], text, cuts[i], cuts[i + 1])
      {
        if i > 0 {
          assert Piece(rest[i - 1], text, tail[i - 1], tail[i]);
        }
      }
      assert Divides(items, text, cuts) && cuts[0] == at;
    }
  }

  // ---------------------------------------------------------------- the matcher

  /** matchhere: does the pattern match the text at position `at`? */
  method MatchHere(re: string, text: string, at: nat) returns (b: bool)
    requires at <= |text|
    ensures b <==> Accepts(Items(re), text, at)
    decreases |re|, |text| - at, 0
  {
    if re == "" {
      AcceptsNone(text, at);
      return true;
    }
    if |re| > 1 && re[1] == '*' {
      b := MatchStar(re[0], re[2..], text, at);
      AcceptsCons(Star(re[0]), Items(re[2..]), text, at);
      return;
    }
    if re == "$" {
      AcceptsCons(End, [], text, at);
      AcceptsNone(text, at);
      assert [End] + [] == [End];
      assert Piece(End, text, at, at) <==> at == |text|;
      return at == |text|;
    }
    AcceptsCons(One(re[0]), Items(re[1..]), text, at);
    if at < |text| && (re[0] == '.' || re[0] == text[at]) {
      b := MatchHere(re[1..], text, at + 1);
      assert Piece(One(re[0]), text, at, at + 1);
      return;
    }
    return false;
  }

  /** matchstar: does c* followed by the pattern match at `at`? */
  method MatchStar(c: char, re: string, text: string, at: nat) returns (b: bool)
    requires at <= |text|
    ensures b <==> exists j :: Piece(Star(c), text, at, j) && Accepts(Items(re), text, j)
    decreases |re| + 1, |text| - at, 0
  {
    var i := at;
    while true
      invariant at <= i <= |text| && Piece(Star(c), text, at, i)
      invariant forall j :: at <= j < i ==> !Accepts(Items(re), text, j)
      decreases |text| - i
    {
      b := MatchHere(re, text, i);
      if b {
        return;
      }
      if i == |text| || !(text[i] == c || c == '.') {
        forall j: nat | Piece(Star(c), text, at, j)
          ensures !Accepts(Items(re), text, j)
        {
          assert j <= i;
        }
        return false;
      }
      i := i + 1;
    }
  }

  method Match(re: string, text: string) returns (b: bool)
    ensures b <==> Matches(re, text)
  {
    if re != "" && re[0] == '^' {
      b := MatchHere(re[1..], text, 0);
      return;
    }
    var i := 0;
    while true
      invariant 0 <= i <= |text| && forall j :: 0 <= j < i ==> !Accepts(Items(re), text, j)
      decreases |text| - i
    {
      b := MatchHere(re, text, i);
      if b {
        return;
      }
      if i == |text| {
        return false;
      }
      i := i + 1;
    }
  }

  // ---------------------------------------------------------------- lines

  /** The first newline of s, or |s|. */
  function Newline(s: string): (i: nat)
    ensures i <= |s| && (i < |s| ==> s[i] == '\n') && forall k :: 0 <= k < i ==> s[k] != '\n'
  {
    if s == "" then 0 else if s[0] == '\n' then 0 else 1 + Newline(s[1..])
  }

  /** The complete lines of s that match, in order, with their newlines. */
  ghost function Selected(re: string, s: string): string
    decreases |s|
  {
    var i := Newline(s);
    if i == |s| then ""
    else (if Matches(re, s[..i]) then s[..i + 1] else "") + Selected(re, s[i + 1..])
  }

  /** Every complete line of s has at most 1023 characters, with its newline. */
  predicate ShortLines(s: string)
    decreases |s|
  {
    var i := Newline(s);
    i == |s| || (i + 1 < BUFSIZE && ShortLines(s[i + 1..]))
  }

  lemma FirstNewline(s: string, i: nat)
    requires i < |s| && s[i] == '\n' && forall k :: 0 <= k < i ==> s[k] != '\n'
    ensures Newline(s) == i
  {
  }

  /** strchr for a newline in the string at p of a buffer whose string ends at m, or earlier at a
      NUL: its index, or -1. */
  method Strchr(buf: array<char>, p: nat, m: nat) returns (q: int)
    requires p <= m < buf.Length
    ensures q == -1 || (p <= q < m && buf[q] == '\n' && forall k :: p <= k < q ==> buf[k] != '\n')
    ensures q == -1 ==> (exists k :: p <= k < m && buf[k] == NUL) || forall k :: p <= k < m ==> buf[k] != '\n'
  {
    q := p;
    while q < m
      invariant p <= q <= m && forall k :: p <= k < q ==> buf[k] != '\n'
    {
      if buf[q] == '\n' {
        return;
      }
      if buf[q] == NUL {
        return -1;
      }
      q := q + 1;
    }
    return -1;
  }

  /** What is left of s after its last newline. */
  function Tail(s: string): (t: string)
    ensures |t| <= |s| && Newline(t) == |t|
    decreases |s|
  {
    var i := Newline(s);
    if i == |s| then s else Tail(s[i + 1..])
  }

  /** Lines can be selected from a prefix of the input, if its unfinished line is put before the
      rest. */
  lemma {:induction false} SelectedSplit(re: string, s: string, rest: string)
    ensures Selected(re, s + rest) == Selected(re, s) + Selected(re, Tail(s) + rest)
    ensures ShortLines(s + rest) ==> ShortLines(Tail(s) + rest)
    decreases |s|
  {
    hide Selected, Tail, ShortLines, Matches;
    var i := Newline(s);
    if i < |s| {
      var all, next := s + rest, s[i + 1..];
      FirstNewline(all, i);
      NextLine(re, s);
      NextLine(re, all);
      assert all[..i] == s[..i] && all[..i + 1] == s[..i + 1] && all[i + 1..] == next + rest;
      SelectedSplit(re, next, rest);
    } else {
      Unfinished(re, s);
    }
  }

  /** The inner loop of grep: print the matching lines of buf[..m], and say where the unfinished
      line begins. */
  method PrintLines(re: string, buf: array<char>, m: nat) returns (out: string, p: nat)
    requires m < buf.Length
    modifies buf
    ensures p <= m && buf[p..m] == old(buf[p..m])
    ensures NUL !in old(buf[..m]) ==> out == Selected(re, old(buf[..m])) && old(buf[p..m]) == Tail(old(buf[..m]))
  {
    hide Matches, Selected, Tail;
    ghost var s := buf[..m];
    out, p := "", 0;
    assert s[0..] == s;
    while true
      invariant 0 <= p <= m && forall k :: p <= k < m ==> buf[k] == s[k]
      invariant out + Selected(re, s[p..]) == Selected(re, s) && Tail(s[p..]) == Tail(s)
      decreases m - p
    {
      var q := Strchr(buf, p, m);
      if q == -1 {
        if NUL !in s {
          Unfinished(re, s[p..]);
        }
        assert buf[p..m] == s[p..];
        return;
      }
      LineAt(re, s, p, q);
      assert buf[p..q] == s[p..q] && buf[p..q + 1] == s[p..q + 1];
      var line := PrintLine(re, buf, p, q);
      out := out + line;
      p := q + 1;
    }
  }

  /** Print the line buf[p..q], with its newline, if it matches. */
  method PrintLine(re: string, buf: array<char>, p: nat, q: nat) returns (out: string)
    requires p <= q < buf.Length && buf[q] == '\n'
    modifies buf
    ensures out == if Matches(re, old(buf[p..q])) then old(buf[p..q + 1]) else ""
    ensures forall k :: 0 <= k < buf.Length && k != q ==> buf[k] == old(buf[k])
  {
    hide Matches;
    out := "";
    buf[q] := NUL;
    assert buf[p..q] == old(buf[p..q]);
    var b := Match(re, buf[p..q]);
    if b {
      buf[q] := '\n';
      out := buf[p..q + 1];
      assert out == old(buf[p..q + 1]);
    }
  }

  lemma LineAt(re: string, s: string, p: nat, q: nat)
    requires p <= q < |s| && s[q] == '\n' && forall k :: p <= k < q ==> s[k] != '\n'
    ensures Selected(re, s[p..]) == (if Matches(re, s[p..q]) then s[p..q + 1] else "") + Selected(re, s[q + 1..])
    ensures Tail(s[p..]) == Tail(s[q + 1..])
  {
    hide Selected, Tail, Matches;
    FirstNewline(s[p..], q - p);
    NextLine(re, s[p..]);
    assert s[p..][..q - p] == s[p..q] && s[p..][..q - p + 1] == s[p..q + 1] && s[p..][q - p + 1..] == s[q + 1..];
  }

  lemma Unfinished(re: string, s: string)
    requires forall k :: 0 <= k < |s| ==> s[k] != '\n'
    ensures Selected(re, s) == "" && Tail(s) == s
  {
  }

  lemma NextLine(re: string, s: string)
    requires Newline(s) < |s|
    ensures var i := Newline(s);
      && Selected(re, s) == (if Matches(re, s[..i]) then s[..i + 1] else "") + Selected(re, s[i + 1..])
      && Tail(s) == Tail(s[i + 1..]) && (ShortLines(s) ==> ShortLines(s[i + 1..]))
  {
  }

  /** grep: for input without NUL, whose lines fit the buffer, it prints exactly the complete lines
      that match, however the reads cut the input. A read gives any number of characters that
      fit, and none only if there is no room or no more input. */
  method Grep(re: string, input: string) returns (out: string)
    ensures NUL !in input && ShortLines(input) ==> out == Selected(re, input)
  {
    hide Selected, Tail, ShortLines, Newline;
    var buf := new char[BUFSIZE](_ => NUL);
    var m, pos := 0, 0;
    ghost var good := NUL !in input && ShortLines(input);
    out := "";
    assert buf[..0] + input[0..] == input;
    while true
      invariant 0 <= m < BUFSIZE && 0 <= pos <= |input|
      invariant good ==> Newline(buf[..m]) == m && NUL !in buf[..m] && ShortLines(buf[..m] + input[pos..])
      invariant good ==> out + Selected(re, buf[..m] + input[pos..]) == Selected(re, input)
      decreases |input| - pos
    {
      var room := BUFSIZE - m - 1;
      if room == 0 || pos == |input| {
        if good {
          NoMoreLines(re, buf[..m], input[pos..]);
        }
        return;
      }
      var n: nat :| 1 <= n <= room && pos + n <= |input|;
      ghost var s := buf[..m] + input[pos..pos + n];
      assert s + input[pos + n..] == buf[..m] + input[pos..];
      SelectedSplit(re, s, input[pos + n..]);
      var text;
      text, m := Turn(re, buf, m, input[pos..pos + n]);
      out, pos := out + text, pos + n;
      if good {
        TailWithout(s);
      }
    }
  }

  /** One turn of grep's loop, with src as what was read. */
  method Turn(re: string, buf: array<char>, m0: nat, src: string) returns (out: string, m: nat)
    requires m0 + |src| < buf.Length
    modifies buf
    ensures m <= m0 + |src|
    ensures var s := old(buf[..m0]) + src;
      NUL !in s ==> out == Selected(re, s) && buf[..m] == Tail(s)
  {
    hide Selected, Tail;
    CopyIn(buf, m0, src);
    m := m0 + |src|;
    buf[m] := NUL;
    ghost var s := buf[..m];
    assert s == old(buf[..m0]) + src;
    var p;
    out, p := PrintLines(re, buf, m);
    MoveDown(buf, p, m);
    m := m - p;
  }

  lemma TailWithout(s: string)
    ensures NUL !in s ==> NUL !in Tail(s)
  {
    if Newline(s) < |s| {
      TailWithout(s[Newline(s) + 1..]);
    }
  }

  lemma NoMoreLines(re: string, s: string, rest: string)
    requires Newline(s) == |s| && ShortLines(s + rest) && (rest == "" || |s| + 1 >= BUFSIZE)
    ensures Selected(re, s + rest) == ""
  {
    assert rest == "" ==> s + rest == s;
    assert forall k :: 0 <= k < |s| ==> (s + rest)[k] == s[k];
  }

  /** read: the characters go into the buffer after its first m. */
  method CopyIn(buf: array<char>, m: nat, src: string)
    requires m + |src| <= buf.Length
    modifies buf
    ensures buf[..m] == old(buf[..m]) && buf[m..m + |src|] == src
    ensures buf[..m + |src|] == old(buf[..m]) + src
  {
    var i := 0;
    while i < |src|
      invariant 0 <= i <= |src| && buf[..m] == old(buf[..m]) && buf[m..m + i] == src[..i]
    {
      buf[m + i] := src[i];
      i := i + 1;
    }
  }

  /** memmove of buf[p..m] to the start of the buffer. */
  method MoveDown(buf: array<char>, p: nat, m: nat)
    requires p <= m <= buf.Length
    modifies buf
    ensures buf[..m - p] == old(buf[p..m])
  {
    var i := 0;
    while i < m - p
      invariant 0 <= i <= m - p && buf[..i] == old(buf[p..p + i]) && (p > 0 ==> buf[p + i..m] == old(buf[p + i..m]))
      invariant (p == 0 ==> buf[..m] == old(buf[..m]))
    {
      assert p > 0 ==> buf[p + i] == buf[p + i..m][0];
      assert p == 0 ==> buf[i] == buf[..m][i];
      buf[i] := buf[p + i];
      i := i + 1;
    }
  }
}
