/** UncommentCode (test/utils/utils.go): search, line loop and splice on bytes, and what it inverts. */
module Uncomment {
  import opened Wrappers

  /** The longest line, its newline included, that the scanner's buffer holds. */
  const MAX_TOKEN: nat := 64 * 1024

  // ----- Search -----

  predicate OccursAt(s: string, sub: string, i: int) {
    0 <= i <= |s| - |sub| && s[i..i + |sub|] == sub
  }

  /** The first occurrence at or after i, or -1. */
  function IndexFrom(s: string, sub: string, i: nat): (r: int)
    ensures r >= 0 ==> OccursAt(s, sub, r) && i <= r
    ensures forall j :: i <= j < r ==> !OccursAt(s, sub, j)
    ensures r < 0 ==> forall j :: i <= j ==> !OccursAt(s, sub, j)
    decreases |s| - i
  {
    if i + |sub| > |s| then -1
    else if s[i..i + |sub|] == sub then i
    else IndexFrom(s, sub, i + 1)
  }

  // ----- Lines -----

  predicate OneLine(s: string) {
    '\n' !in s
  }

  /** The position of the first newline, or the length. */
  function LineEnd(s: string): (i: nat)
    ensures i <= |s| && OneLine(s[..i])
    ensures i < |s| ==> s[i] == '\n'
  {
    if s == "" || s[0] == '\n' then 0
    else
      var i := LineEnd(s[1..]);
      assert s[..i + 1] == [s[0]] + s[1..][..i];
      i + 1
  }

  function DropCR(line: string): string {
    if line != "" && line[|line| - 1] == '\r' then line[..|line| - 1] else line
  }

  /** The lines a scanner yields; it stops for good at a line that does not fit its buffer. */
  function Tokens(s: string): seq<string>
    decreases |s|
  {
    if s == "" || LineEnd(s) >= MAX_TOKEN then []
    else
      var i := LineEnd(s);
      [DropCR(s[..i])] + (if i == |s| then [] else Tokens(s[i + 1..]))
  }

  function TrimPrefix(line: string, prefix: string): string {
    if prefix <= line then line[|prefix|..] else line
  }

  function Join(lines: seq<string>): string {
    if lines == [] then ""
    else if |lines| == 1 then lines[0]
    else lines[0] + "\n" + Join(lines[1..])
  }

  function TrimAll(lines: seq<string>, prefix: string): (r: seq<string>)
    ensures |r| == |lines|
  {
    seq(|lines|, i requires 0 <= i < |lines| => TrimPrefix(lines[i], prefix))
  }

  // ----- The operation -----

  /** What is written: an error if the target does not occur, nothing if it yields no line. */
  function Uncommented(content: string, target: string, prefix: string): Result<Option<string>> {
    var i := IndexFrom(content, target, 0);
    if i < 0 then Err("unable to find the code to be uncommented")
    else if Tokens(target) == [] then Ok(None)
    else Ok(Some(content[..i] + Join(TrimAll(Tokens(target), prefix)) + content[i + |target|..]))
  }

  /** The file after the call. */
  function FileAfter(content: string, r: Result<Option<string>>): string {
    match r
    case Ok(Some(text)) => text
    case _ => content
  }

  class Scanner {
    var rest: string
    var token: string

    constructor (text: string)
      ensures rest == text
    {
      rest, token := text, "";
    }

    /** Advances to the next line, if there is one that fits. */
    method Scan() returns (ok: bool)
      modifies this
      ensures ok <==> old(Tokens(rest)) != []
      ensures ok ==> old(Tokens(rest)) == [token] + Tokens(rest)
    {
      if rest == "" {
        return false;
      }
      var i := 0;
      while i < |rest| && rest[i] != '\n'
        invariant i <= |rest| && OneLine(rest[..i]) && rest == old(rest)
      {
        i := i + 1;
      }
      LineEndIs(rest, i);
      if i >= MAX_TOKEN {
        return false;
      }
      token := DropCR(rest[..i]);
      rest := if i == |rest| then "" else rest[i + 1..];
      return true;
    }
  }

  lemma LineEndIs(s: string, i: nat)
    requires i <= |s| && OneLine(s[..i]) && (i < |s| ==> s[i] == '\n')
    ensures LineEnd(s) == i
  {
    NoNewlineBefore(s, i);
    NoNewlineBefore(s, LineEnd(s));
  }

  lemma NoNewlineBefore(s: string, i: nat)
    requires i <= |s| && OneLine(s[..i])
    ensures forall j :: 0 <= j < i ==> s[j] != '\n'
  {
    forall j | 0 <= j < i
      ensures s[j] != '\n'
    {
      assert s[..i][j] in s[..i];
    }
  }

  method Index(s: string, sub: string) returns (r: int)
    ensures r == IndexFrom(s, sub, 0)
  {
    r := 0;
    while r + |sub| <= |s|
      invariant 0 <= r && IndexFrom(s, sub, r) == IndexFrom(s, sub, 0)
    {
      if s[r..r + |sub|] == sub {
        return;
      }
      r := r + 1;
    }
    r := -1;
  }

  lemma {:induction false} JoinSnoc(lines: seq<string>, line: string)
    requires lines != []
    ensures Join(lines + [line]) == Join(lines) + "\n" + line
  {
    if |lines| == 1 {
      assert (lines + [line])[1..] == [line];
    } else {
      assert (lines + [line])[1..] == lines[1..] + [line];
      JoinSnoc(lines[1..], line);
    }
  }

  lemma JoinOne(token: string, prefix: string)
    ensures Join(TrimAll([token], prefix)) == TrimPrefix(token, prefix)
  {
  }

  lemma OneMoreLine(before: string, done: seq<string>, token: string, prefix: string)
    requires done != []
    ensures before + Join(TrimAll(done + [token], prefix))
            == before + Join(TrimAll(done, prefix)) + "\n" + TrimPrefix(token, prefix)
  {
    JoinSnoc(TrimAll(done, prefix), TrimPrefix(token, prefix));
    assert TrimAll(done + [token], prefix) == TrimAll(done, prefix) + [TrimPrefix(token, prefix)];
  }

  // ----- What is written, line by line -----

  /** The scanner yields the first n of these lines and stops there: its buffer holds 65536 bytes with the newline. */
  predicate StopsAfter(raw: seq<string>, n: nat) {
    && n <= |raw| && (forall i :: 0 <= i < n ==> |raw[i]| < 65536)
    && (if n == |raw| then n > 0 && raw[n - 1] != ""
        else |raw[n]| >= 65536 || (n == |raw| - 1 && raw[n] == ""))
  }

  /** A line loses one carriage return at its end, then the prefix if it starts with it, and nothing else. */
  predicate Bared(line: string, prefix: string, r: string) {
    var token := if line != "" && line[|line| - 1] == '\r' then line[..|line| - 1] else line;
    if prefix <= token then token == prefix + r else r == token
  }

  /** The target stands at i for the first time, its lines are `raw`, and `out` are the lines written for it. */
  ghost predicate Replaces(content: string, target: string, prefix: string, i: nat, raw: seq<string>, out: seq<string>)
  {
    && OccursAt(content, target, i) && (forall j :: 0 <= j < i ==> !OccursAt(content, target, j))
    && raw != [] && OneLineEach(raw) && Join(raw) == target
    && StopsAfter(raw, |out|) && forall n :: 0 <= n < |out| ==> Bared(raw[n], prefix, out[n])
  }

  /**
   What the call writes for any content, target and prefix: an error exactly if the target does not occur; nothing
   if the scanner yields none of the target's lines; else the content with the first occurrence of the target
   replaced by those lines, each without the prefix if it starts with it and as it is if not.
   */
  ghost predicate Rewrites(content: string, target: string, prefix: string, r: Result<Option<string>>) {
    match r
    case Err(_) => forall i: nat :: !OccursAt(content, target, i)
    case Ok(None) => exists i: nat, raw :: Replaces(content, target, prefix, i, raw, [])
    case Ok(Some(text)) =>
      exists i: nat, raw, out :: out != [] && Replaces(content, target, prefix, i, raw, out)
                                 && text == content[..i] + Join(out) + content[i + |target|..]
  }

  lemma TrimmedIsBared(line: string, prefix: string)
    ensures Bared(line, prefix, TrimPrefix(DropCR(line), prefix))
  {
    var token := DropCR(line);
    assert prefix <= token ==> token == prefix + token[|prefix|..];
  }

  lemma TargetIsReplaced(content: string, target: string, prefix: string, i: nat)
    requires OccursAt(content, target, i) && forall j :: 0 <= j < i ==> !OccursAt(content, target, j)
    ensures Replaces(content, target, prefix, i, Split(target), TrimAll(Tokens(target), prefix))
  {
    hide Tokens, Split, Join, TrimPrefix, DropCR, Bared, Scanned, OccursAt;
    var raw, tokens := Split(target), Tokens(target);
    SplitJoins(target);
    TokensOfText(target);
    YieldsExactly(raw, |tokens|);
    forall n | 0 <= n < |tokens|
      ensures Bared(raw[n], prefix, TrimAll(tokens, prefix)[n])
    {
      assert raw[..Scanned(raw)][n] == raw[n];
      TrimmedIsBared(raw[n], prefix);
    }
  }

  lemma UncommentedRewrites(content: string, target: string, prefix: string)
    ensures Rewrites(content, target, prefix, Uncommented(content, target, prefix))
  {
    hide Tokens, Split, Join, TrimPrefix, IndexFrom, OccursAt, Replaces;
    var i := IndexFrom(content, target, 0);
    if i >= 0 {
      TargetIsReplaced(content, target, prefix, i);
    }
  }

  method UncommentCode(content: string, target: string, prefix: string) returns (r: Result<Option<string>>)
    ensures r == Uncommented(content, target, prefix)
    ensures Rewrites(content, target, prefix, r)
  {
    hide Tokens, TrimPrefix, Join, TrimAll, IndexFrom, Rewrites;
    UncommentedRewrites(content, target, prefix);
    var idx := Index(content, target);
    if idx < 0 {
      return Err("unable to find the code to be uncommented");
    }
    var out := content[..idx];
    var scanner := new Scanner(target);
    var more := scanner.Scan();
    if !more {
      return Ok(None);
    }
    ghost var done := [scanner.token];
    ghost var tokens := Tokens(target);
    out := out + TrimPrefix(scanner.token, prefix);
    assert Join(TrimAll(done, prefix)) == TrimPrefix(scanner.token, prefix) by { JoinOne(scanner.token, prefix); }
    more := scanner.Scan();
    while more
      invariant fresh(scanner)
      invariant out == content[..idx] + Join(TrimAll(done, prefix)) && done != []
      invariant tokens == if more then done + [scanner.token] + Tokens(scanner.rest) else done
      decreases |tokens| - |done|
    {
      out := out + "\n";
      out := out + TrimPrefix(scanner.token, prefix);
      OneMoreLine(content[..idx], done, scanner.token, prefix);
      done := done + [scanner.token];
      more := scanner.Scan();
    }
    out := out + content[idx + |target|..];
    return Ok(Some(out));
  }

  // ----- What it inverts -----

  function Commented(lines: seq<string>, prefix: string): (r: seq<string>)
    ensures |r| == |lines| && forall i :: 0 <= i < |lines| ==> r[i] == prefix + lines[i]
  {
    seq(|lines|, i requires 0 <= i < |lines| => prefix + lines[i])
  }

  ghost predicate OneLineEach(lines: seq<string>) {
    forall l <- lines :: OneLine(l)
  }

  lemma FirstLine(lines: seq<string>)
    requires lines != [] && OneLineEach(lines)
    ensures LineEnd(Join(lines)) == |lines[0]|
    ensures |lines| == 1 ==> Join(lines) == lines[0]
    ensures |lines| > 1 ==> |Join(lines)| > |lines[0]| && Join(lines)[..|lines[0]|] == lines[0]
                            && Join(lines)[|lines[0]| + 1..] == Join(lines[1..])
  {
    var s := Join(lines);
    assert s[..|lines[0]|] == lines[0];
    LineEndIs(s, |lines[0]|);
  }

  /** Text determines its lines. */
  lemma {:induction false} JoinInjective(a: seq<string>, b: seq<string>)
    requires a != [] && b != [] && OneLineEach(a) && OneLineEach(b) && Join(a) == Join(b)
    ensures a == b
  {
    FirstLine(a);
    FirstLine(b);
    if |a| > 1 && |b| > 1 {
      JoinInjective(a[1..], b[1..]);
      assert a == [a[0]] + a[1..] && b == [b[0]] + b[1..];
    }
  }

  /** How many of the lines the scanner yields. */
  function Scanned(lines: seq<string>): (n: nat)
    requires lines != []
    ensures n <= |lines|
  {
    if |lines[0]| >= MAX_TOKEN then 0
    else if |lines| == 1 then (if lines[0] == "" then 0 else 1)
    else 1 + Scanned(lines[1..])
  }

  function DropAll(lines: seq<string>): (r: seq<string>)
    ensures |r| == |lines| && forall i :: 0 <= i < |lines| ==> r[i] == DropCR(lines[i])
  {
    seq(|lines|, i requires 0 <= i < |lines| => DropCR(lines[i]))
  }

  lemma {:induction false} TokensOfLines(lines: seq<string>)
    requires lines != [] && OneLineEach(lines)
    ensures Tokens(Join(lines)) == DropAll(lines[..Scanned(lines)])
  {
    hide LineEnd, DropCR, DropAll, Join, Tokens;
    FirstLine(lines);
    var s, n := Join(lines), Scanned(lines);
    if n == 0 {
      NoToken(s);
      assert lines[..n] == [];
    } else if |lines| == 1 {
      LastToken(s);
      assert lines[..n] == [s];
    } else {
      TokensOfLines(lines[1..]);
      FirstToken(s, |lines[0]|);
      DropAllCons(lines[0], lines[1..][..n - 1]);
      assert lines[..n] == [lines[0]] + lines[1..][..n - 1];
    }
  }

  lemma NoToken(s: string)
    requires s == "" || LineEnd(s) >= MAX_TOKEN
    ensures Tokens(s) == DropAll([])
  {
    hide LineEnd;
  }

  lemma LastToken(s: string)
    requires s != "" && LineEnd(s) == |s| < MAX_TOKEN
    ensures Tokens(s) == DropAll([s])
  {
    hide LineEnd, DropCR;
    assert s[..|s|] == s;
    assert Tokens(s) == [DropCR(s)];
  }

  lemma FirstToken(s: string, i: nat)
    requires LineEnd(s) == i < |s| && i < MAX_TOKEN
    ensures Tokens(s) == [DropCR(s[..i])] + Tokens(s[i + 1..])
  {
    hide LineEnd, DropCR;
    var rest := Tokens(s[i + 1..]);
    assert s != "" && Tokens(s) == [DropCR(s[..i])] + rest;
  }

  lemma DropAllCons(line: string, lines: seq<string>)
    ensures DropAll([line] + lines) == [DropCR(line)] + DropAll(lines)
  {
    hide DropCR;
  }

  lemma {:induction false} AllScanned(lines: seq<string>)
    requires lines != []
    ensures Scanned(lines) == |lines| <==> lines[|lines| - 1] != "" && forall l <- lines :: |l| < MAX_TOKEN
    ensures Scanned(lines) == 0 <==> |lines[0]| >= MAX_TOKEN || lines == [""]
  {
    if |lines| > 1 {
      AllScanned(lines[1..]);
      assert lines == [lines[0]] + lines[1..];
    }
  }

  /** The line comes back: its commented form does not end in a carriage return, which the scanner drops. */
  predicate ComesBack(line: string, prefix: string) {
    var p := prefix + line;
    p == "" || p[|p| - 1] != '\r' || (prefix == "\r" && line == "")
  }

  lemma ComesBackExactly(line: string, prefix: string)
    ensures TrimPrefix(DropCR(prefix + line), prefix) == line <==> ComesBack(line, prefix)
  {
    var p := prefix + line;
    assert p[|prefix|..] == line && prefix <= p;
    if DropCR(p) != p && prefix <= DropCR(p) {
      assert |TrimPrefix(DropCR(p), prefix)| < |line|;
    }
  }

  /** For a prefix within one line: when uncommenting gives the lines back. */
  ghost predicate UndoneInLine(lines: seq<string>, prefix: string)
    requires lines != []
  {
    || (prefix == "" && (lines == [""] || |lines[0]| >= MAX_TOKEN))
    || (prefix + lines[|lines| - 1] != "" && forall l <- lines :: |prefix + l| < MAX_TOKEN && ComesBack(l, prefix))
  }

  /** The lines of a text, an empty last one included. */
  function Split(s: string): (r: seq<string>)
    ensures r != []
    decreases |s|
  {
    var i := LineEnd(s);
    if i == |s| then [s] else [s[..i]] + Split(s[i + 1..])
  }

  /** For a prefix that spans lines nothing is ever trimmed: the target's first lines must already be the bare ones. */
  ghost predicate UndoneAcross(lines: seq<string>, prefix: string) {
    var raw := Split(Join(Commented(lines, prefix)));
    StopsAfter(raw, |lines|) && forall i :: 0 <= i < |lines| ==> DropCR(raw[i]) == lines[i]
  }

  /** The exact condition under which uncommenting gives the lines back. */
  ghost predicate Undone(lines: seq<string>, prefix: string)
    requires lines != []
  {
    if OneLine(prefix) then UndoneInLine(lines, prefix) else UndoneAcross(lines, prefix)
  }

  function Restored(lines: seq<string>, prefix: string): seq<string>
    requires lines != []
  {
    TrimAll(Tokens(Join(Commented(lines, prefix))), prefix)
  }

  lemma CommentedStaysLines(lines: seq<string>, prefix: string)
    requires OneLineEach(lines) && OneLine(prefix)
    ensures OneLineEach(Commented(lines, prefix))
  {
    var p := Commented(lines, prefix);
    forall l <- p
      ensures OneLine(l)
    {
      var i :| 0 <= i < |p| && p[i] == l;
      assert OneLine(lines[i]);
    }
  }

  lemma CommentedPlainly(lines: seq<string>)
    ensures Commented(lines, "") == lines
  {
    forall i | 0 <= i < |lines|
      ensures Commented(lines, "")[i] == lines[i]
    {
      assert "" + lines[i] == lines[i];
    }
  }

  lemma RestoredLines(lines: seq<string>, prefix: string)
    requires lines != [] && OneLineEach(lines) && OneLine(prefix)
    ensures var r := Restored(lines, prefix);
            && |r| == Scanned(Commented(lines, prefix)) && OneLineEach(r)
            && forall i :: 0 <= i < |r| ==> r[i] == TrimPrefix(DropCR(prefix + lines[i]), prefix)
  {
    hide Tokens, DropCR, TrimPrefix, Scanned, Join;
    var p := Commented(lines, prefix);
    CommentedStaysLines(lines, prefix);
    TokensOfLines(p);
    var r := Restored(lines, prefix);
    forall i | 0 <= i < |r|
      ensures r[i] == TrimPrefix(DropCR(prefix + lines[i]), prefix)
    {
      assert p[..Scanned(p)][i] == p[i];
    }
    forall l <- r
      ensures OneLine(l)
    {
      var i :| 0 <= i < |r| && r[i] == l;
      assert OneLine(p[i]);
      CutsStayOneLine(p[i], prefix);
    }
  }

  lemma CutsStayOneLine(line: string, prefix: string)
    requires OneLine(line)
    ensures OneLine(TrimPrefix(DropCR(line), prefix))
  {
  }

  /** The uncommented lines are the lines, exactly under that condition. */
  lemma RestoredExactly(lines: seq<string>, prefix: string)
    requires lines != [] && OneLineEach(lines) && OneLine(prefix)
    requires Restored(lines, prefix) != []
    ensures Join(Restored(lines, prefix)) == Join(lines) <==> UndoneInLine(lines, prefix)
  {
    hide Restored, TrimPrefix, DropCR, Scanned, Join, ComesBack;
    var r := Restored(lines, prefix);
    var p := Commented(lines, prefix);
    RestoredLines(lines, prefix);
    AllScanned(p);
    forall i | 0 <= i < |r|
      ensures r[i] == lines[i] <==> ComesBack(lines[i], prefix)
    {
      ComesBackExactly(lines[i], prefix);
    }
    if Join(r) == Join(lines) {
      JoinInjective(r, lines);
    }
    if UndoneInLine(lines, prefix) {
      assert r == lines;
    }
  }

  lemma SpliceEqual(before: string, x: string, y: string, after: string)
    ensures before + x + after == before + y + after <==> x == y
  {
    if before + x + after == before + y + after {
      assert |x| == |y|;
      assert (before + x + after)[|before|..|before| + |x|] == x;
      assert (before + y + after)[|before|..|before| + |y|] == y;
    }
  }

  lemma UnprefixedExactly(lines: seq<string>, prefix: string)
    requires lines != [] && OneLineEach(lines) && OneLine(prefix)
    ensures Join(Commented(lines, prefix)) == Join(lines) <==> prefix == ""
  {
    CommentedStaysLines(lines, prefix);
    var p := Commented(lines, prefix);
    if Join(p) == Join(lines) {
      JoinInjective(p, lines);
      assert p[0] == lines[0];
    } else {
      CommentedPlainly(lines);
    }
  }

  lemma UndoesInLine(content: string, lines: seq<string>, prefix: string)
    requires lines != [] && OneLineEach(lines) && OneLine(prefix)
    requires IndexFrom(content, Join(Commented(lines, prefix)), 0) >= 0
    ensures var target := Join(Commented(lines, prefix));
            var i := IndexFrom(content, target, 0);
            FileAfter(content, Uncommented(content, target, prefix))
            == content[..i] + Join(lines) + content[i + |target|..]
            <==> UndoneInLine(lines, prefix)
  {
    hide Tokens, TrimAll, Join, Commented, IndexFrom, UndoneInLine;
    var target := Join(Commented(lines, prefix));
    var i := IndexFrom(content, target, 0);
    assert Restored(lines, prefix) == TrimAll(Tokens(target), prefix);
    if Tokens(target) == [] {
      assert content == content[..i] + target + content[i + |target|..];
      SpliceEqual(content[..i], target, Join(lines), content[i + |target|..]);
      UnprefixedExactly(lines, prefix);
      NothingScanned(lines, prefix);
    } else {
      RestoredExactly(lines, prefix);
      SpliceEqual(content[..i], Join(Restored(lines, prefix)), Join(lines), content[i + |target|..]);
    }
  }

  lemma NothingScanned(lines: seq<string>, prefix: string)
    requires lines != [] && OneLineEach(lines) && OneLine(prefix)
    requires Tokens(Join(Commented(lines, prefix))) == []
    ensures UndoneInLine(lines, prefix) <==> prefix == ""
  {
    var p := Commented(lines, prefix);
    RestoredLines(lines, prefix);
    AllScanned(p);
    assert p[0] == prefix + lines[0];
    CommentedPlainly(lines);
  }

  // ----- A prefix that spans lines -----

  lemma {:induction false} SplitJoins(s: string)
    ensures Join(Split(s)) == s && OneLineEach(Split(s))
    decreases |s|
  {
    hide LineEnd, Join;
    var i := LineEnd(s);
    if i == |s| {
      assert s[..i] == s;
      JoinSingle(s);
    } else {
      var rest := Split(s[i + 1..]);
      SplitJoins(s[i + 1..]);
      assert Split(s) == [s[..i]] + rest;
      JoinCons(s[..i], rest);
      RejoinAt(s, i);
    }
  }

  lemma JoinSingle(line: string)
    ensures Join([line]) == line
  {
  }

  lemma JoinCons(line: string, lines: seq<string>)
    requires lines != []
    ensures Join([line] + lines) == line + "\n" + Join(lines)
  {
    assert ([line] + lines)[1..] == lines;
  }

  lemma RejoinAt(s: string, i: nat)
    requires i < |s| && s[i] == '\n'
    ensures s == s[..i] + "\n" + s[i + 1..]
  {
  }

  lemma {:induction false} YieldsExactly(raw: seq<string>, n: nat)
    requires raw != []
    ensures Scanned(raw) == n <==> StopsAfter(raw, n)
  {
    if |raw| > 1 && n > 0 {
      YieldsExactly(raw[1..], n - 1);
      assert raw == [raw[0]] + raw[1..];
      if StopsAfter(raw[1..], n - 1) && |raw[0]| < MAX_TOKEN {
        forall i | 0 <= i < n
          ensures |raw[i]| < MAX_TOKEN
        {
          if i > 0 { assert raw[i] == raw[1..][i - 1]; }
        }
      }
    }
  }

  lemma NeverTrimmed(tokens: seq<string>, prefix: string)
    requires !OneLine(prefix) && OneLineEach(tokens)
    ensures TrimAll(tokens, prefix) == tokens
  {
    forall j | 0 <= j < |tokens|
      ensures TrimPrefix(tokens[j], prefix) == tokens[j]
    {
      assert OneLine(tokens[j]);
      PrefixesOfOneLine(tokens[j], prefix);
    }
  }

  lemma PrefixesOfOneLine(line: string, prefix: string)
    ensures OneLine(line) && prefix <= line ==> OneLine(prefix)
  {
    assert prefix <= line ==> line[..|prefix|] == prefix;
  }

  lemma {:induction false} CommentedIsLonger(lines: seq<string>, prefix: string)
    requires lines != [] && prefix != ""
    ensures |Join(Commented(lines, prefix))| > |Join(lines)|
  {
    var p := Commented(lines, prefix);
    assert p[0] == prefix + lines[0];
    if |lines| > 1 {
      CommentedIsLonger(lines[1..], prefix);
      assert p[1..] == Commented(lines[1..], prefix);
    }
  }

  /** What the scanner yields of any text. */
  lemma TokensOfText(s: string)
    ensures Tokens(s) == DropAll(Split(s)[..Scanned(Split(s))]) && OneLineEach(Tokens(s))
  {
    hide Tokens, Scanned, Split, DropCR;
    SplitJoins(s);
    var raw := Split(s);
    TokensOfLines(raw);
    forall l <- Tokens(s)
      ensures OneLine(l)
    {
      var i :| 0 <= i < |Tokens(s)| && Tokens(s)[i] == l;
      assert OneLine(raw[i]);
      CutsStayOneLine(raw[i], "");
    }
  }

  lemma AcrossExactly(lines: seq<string>, prefix: string)
    requires lines != [] && OneLineEach(lines) && !OneLine(prefix)
    ensures var target := Join(Commented(lines, prefix));
            UndoneAcross(lines, prefix) <==> Tokens(target) == lines
  {
    hide Tokens, Scanned, Split, Join, DropCR, StopsAfter;
    var target := Join(Commented(lines, prefix));
    var raw := Split(target);
    TokensOfText(target);
    YieldsExactly(raw, |lines|);
    var tokens := Tokens(target);
    forall i | 0 <= i < |tokens|
      ensures tokens[i] == DropCR(raw[i])
    {
      assert raw[..Scanned(raw)][i] == raw[i];
    }
  }

  lemma UndoesAcross(content: string, lines: seq<string>, prefix: string)
    requires lines != [] && OneLineEach(lines) && !OneLine(prefix)
    requires IndexFrom(content, Join(Commented(lines, prefix)), 0) >= 0
    ensures var target := Join(Commented(lines, prefix));
            var i := IndexFrom(content, target, 0);
            FileAfter(content, Uncommented(content, target, prefix))
            == content[..i] + Join(lines) + content[i + |target|..]
            <==> UndoneAcross(lines, prefix)
  {
    hide Tokens, Join, Commented, IndexFrom, UndoneAcross, TrimAll;
    var target := Join(Commented(lines, prefix));
    var i := IndexFrom(content, target, 0);
    var tokens := Tokens(target);
    AcrossExactly(lines, prefix);
    if tokens == [] {
      assert content == content[..i] + target + content[i + |target|..];
      SpliceEqual(content[..i], target, Join(lines), content[i + |target|..]);
      CommentedIsLonger(lines, prefix);
    } else {
      TokensOfText(target);
      NeverTrimmed(tokens, prefix);
      SpliceEqual(content[..i], Join(tokens), Join(lines), content[i + |target|..]);
      if Join(tokens) == Join(lines) { JoinInjective(tokens, lines); }
    }
  }

  /**
   Uncommenting undoes commenting. Where the target is one-line texts, each prefixed, joined by newlines, the
   file afterwards is the content with its first occurrence of the target replaced by the bare lines and every
   other byte unchanged, if and only if `Undone` holds. For a prefix within one line that means: every commented
   line fits the scanner's buffer and keeps its last byte, and the target does not end in a newline, or nothing is
   scanned and there was nothing to remove.
   */
  lemma UncommentUndoesComment(content: string, lines: seq<string>, prefix: string)
    requires lines != [] && OneLineEach(lines)
    requires IndexFrom(content, Join(Commented(lines, prefix)), 0) >= 0
    ensures var target := Join(Commented(lines, prefix));
            var i := IndexFrom(content, target, 0);
            FileAfter(content, Uncommented(content, target, prefix))
            == content[..i] + Join(lines) + content[i + |target|..]
            <==> Undone(lines, prefix)
  {
    hide IndexFrom, Uncommented, FileAfter, Join, Commented, UndoneInLine, UndoneAcross;
    if OneLine(prefix) {
      UndoesInLine(content, lines, prefix);
    } else {
      UndoesAcross(content, lines, prefix);
    }
  }
}
