/** Splitting a migration file into statements.

    The source walks the text once. The reference here takes two passes: remove line comments that
    start outside string literals, then split at semicolons outside string literals. */
module SqlText {

  // Characters that Python's str.strip() removes.
  predicate IsSpace(c: char) {
    var u := c as int;
    || 0x09 <= u <= 0x0d || 0x1c <= u <= 0x20 || u == 0x85 || u == 0xa0 || u == 0x1680
    || 0x2000 <= u <= 0x200a || u == 0x2028 || u == 0x2029 || u == 0x202f || u == 0x205f || u == 0x3000
  }

  function TrimLeft(s: string): string {
    if s != "" && IsSpace(s[0]) then TrimLeft(s[1..]) else s
  }

  function TrimRight(s: string): string {
    if s != "" && IsSpace(s[|s| - 1]) then TrimRight(s[..|s| - 1]) else s
  }

  function Trim(s: string): string {
    TrimRight(TrimLeft(s))
  }

  // Whether we are inside a string literal after reading c, having been in state quoted before it.
  predicate Toggle(quoted: bool, c: char) {
    if c == '\'' then !quoted else quoted
  }

  predicate StartsComment(s: string) {
    |s| >= 2 && s[0] == '-' && s[1] == '-'
  }

  // From the newline that ends the current line on; the newline itself stays.
  function SkipLine(s: string): (r: string)
    ensures |r| <= |s|
    ensures r != "" ==> r[0] == '\n'
    ensures s != "" && s[0] != '\n' ==> |r| < |s|
  {
    if s == "" || s[0] == '\n' then s else SkipLine(s[1..])
  }

  // First pass: the text without its comments.
  function StripComments(s: string, quoted: bool): string
    decreases |s|
  {
    if s == "" then ""
    else if !quoted && StartsComment(s) then StripComments(SkipLine(s), quoted)
    else [s[0]] + StripComments(s[1..], Toggle(quoted, s[0]))
  }

  // Second pass: the pieces between top-level semicolons, at least one.
  function SplitTop(s: string, quoted: bool): (pieces: seq<string>)
    ensures |pieces| >= 1
  {
    if s == "" then [""]
    else if s[0] == ';' && !quoted then [""] + SplitTop(s[1..], quoted)
    else
      var rest := SplitTop(s[1..], Toggle(quoted, s[0]));
      [[s[0]] + rest[0]] + rest[1..]
  }

  // Trim every piece and drop the empty ones.
  function Tidy(pieces: seq<string>): seq<string> {
    if pieces == [] then []
    else
      var head := Trim(pieces[0]);
      (if head == "" then [] else [head]) + Tidy(pieces[1..])
  }

  // The statements of a file.
  function Statements(sql: string): seq<string> {
    Tidy(SplitTop(StripComments(sql, false), false))
  }

  // ----- the one-pass loop -----

  // Index of the first newline at or after start, or the end of the text.
  function LineEnd(s: string, start: nat): (end: nat)
    requires start <= |s|
    ensures start <= end <= |s|
    ensures s[end..] == SkipLine(s[start..])
    decreases |s| - start
  {
    if start == |s| then start
    else if s[start] == '\n' then start
    else
      assert s[start..][1..] == s[start + 1..];
      LineEnd(s, start + 1)
  }

  // What the text from index on still splits into.
  function Rest(sql: string, index: nat, quoted: bool): (pieces: seq<string>)
    requires index <= |sql|
    ensures |pieces| >= 1
  {
    SplitTop(StripComments(sql[index..], quoted), quoted)
  }

  // The text gathered so far belongs in front of the first remaining piece.
  function Prepend(current: string, pieces: seq<string>): seq<string>
    requires |pieces| >= 1
  {
    [current + pieces[0]] + pieces[1..]
  }

  lemma RestAtChar(sql: string, index: nat, quoted: bool)
    requires index < |sql|
    requires quoted || !StartsComment(sql[index..])
    requires quoted || sql[index] != ';'
    ensures Rest(sql, index, quoted) == Prepend([sql[index]], Rest(sql, index + 1, Toggle(quoted, sql[index])))
  {
    var c := sql[index];
    assert sql[index..][1..] == sql[index + 1..];
    var text := StripComments(sql[index..], quoted);
    assert text[0] == c && text[1..] == StripComments(sql[index + 1..], Toggle(quoted, c));
  }

  lemma RestAtSemicolon(sql: string, index: nat)
    requires index < |sql| && sql[index] == ';'
    ensures Rest(sql, index, false) == [""] + Rest(sql, index + 1, false)
  {
    assert sql[index..][1..] == sql[index + 1..];
    var text := StripComments(sql[index..], false);
    assert text[0] == ';' && text[1..] == StripComments(sql[index + 1..], false);
  }

  lemma PrependTwice(current: string, c: char, pieces: seq<string>)
    requires |pieces| >= 1
    ensures Prepend(current, Prepend([c], pieces)) == Prepend(current + [c], pieces)
  {
    assert current + ([c] + pieces[0]) == (current + [c]) + pieces[0];
  }

  lemma PrependNothing(pieces: seq<string>)
    requires |pieces| >= 1
    ensures Prepend("", pieces) == pieces
  {
    assert "" + pieces[0] == pieces[0];
  }

  lemma PieceDone(current: string, pieces: seq<string>)
    requires |pieces| >= 1
    ensures Tidy(Prepend(current, [""] + pieces)) == NonEmpty([Trim(current)]) + Tidy(Prepend("", pieces))
  {
    PrependNothing(pieces);
    assert current + "" == current;
    var all := Prepend(current, [""] + pieces);
    assert all[0] == current && all[1..] == pieces;
  }

  // What is collected, followed by what is still to come, is the whole answer.
  predicate Progress(sql: string, statements: seq<string>, current: string, index: nat, quoted: bool)
    requires index <= |sql|
  {
    Statements(sql) == NonEmpty(statements) + Tidy(Prepend(current, Rest(sql, index, quoted)))
  }

  lemma StepStart(sql: string)
    ensures Progress(sql, [], "", 0, false)
  {
    assert sql[0..] == sql;
    PrependNothing(Rest(sql, 0, false));
  }

  lemma {:induction false} StepComment(sql: string, statements: seq<string>, current: string, index: nat)
    requires index < |sql| && StartsComment(sql[index..])
    requires Progress(sql, statements, current, index, false)
    ensures Progress(sql, statements, current, LineEnd(sql, index), false)
  {
    assert Rest(sql, index, false) == Rest(sql, LineEnd(sql, index), false);
  }

  lemma StepChar(sql: string, statements: seq<string>, current: string, index: nat, quoted: bool)
    requires index < |sql| && (quoted || (!StartsComment(sql[index..]) && sql[index] != ';'))
    requires Progress(sql, statements, current, index, quoted)
    ensures Progress(sql, statements, current + [sql[index]], index + 1, Toggle(quoted, sql[index]))
  {
    RestAtChar(sql, index, quoted);
    PrependTwice(current, sql[index], Rest(sql, index + 1, Toggle(quoted, sql[index])));
  }

  lemma StepSemicolon(sql: string, statements: seq<string>, current: string, index: nat)
    requires index < |sql| && sql[index] == ';'
    requires Progress(sql, statements, current, index, false)
    ensures Progress(sql, statements + [Trim(current)], "", index + 1, false)
  {
    RestAtSemicolon(sql, index);
    PieceDone(current, Rest(sql, index + 1, false));
    NonEmptyAppend(statements, Trim(current));
  }

  lemma {:induction false} StepEnd(sql: string, statements: seq<string>, current: string, quoted: bool)
    requires Progress(sql, statements, current, |sql|, quoted)
    ensures Statements(sql) == NonEmpty(statements + (if Trim(current) == "" then [] else [Trim(current)]))
  {
    assert Rest(sql, |sql|, quoted) == [""];
    assert current + "" == current;
    assert Prepend(current, [""]) == [current];
    assert Tidy([current]) == if Trim(current) == "" then [] else [Trim(current)];
    NonEmptyAppend(statements, Trim(current));
    assert statements + [] == statements;
  }

  method SplitStatements(sql: string) returns (result: seq<string>)
    ensures result == Statements(sql)
  {
    var statements: seq<string> := [];
    var current := "";
    var inString := false;
    var index := 0;
    StepStart(sql);
    while index < |sql|
      invariant 0 <= index <= |sql|
      invariant Progress(sql, statements, current, index, inString)
      decreases |sql| - index
    {
      var c := sql[index];
      if !inString && index + 1 < |sql| && c == '-' && sql[index + 1] == '-' {
        StepComment(sql, statements, current, index);
        index := LineEnd(sql, index);
        continue;
      }
      ghost var was := inString;
      if c == '\'' {
        inString := !inString;
      }
      if c == ';' && !inString {
        StepSemicolon(sql, statements, current, index);
        statements := statements + [Trim(current)];
        current := "";
        index := index + 1;
        continue;
      }
      StepChar(sql, statements, current, index, was);
      current := current + [c];
      index := index + 1;
    }
    StepEnd(sql, statements, current, inString);
    var tail := Trim(current);
    if tail != "" {
      statements := statements + [tail];
    } else {
      assert statements + [] == statements;
    }
    result := NonEmpty(statements);
  }

  function NonEmpty(ss: seq<string>): seq<string> {
    if ss == [] then []
    else (if ss[0] == "" then [] else [ss[0]]) + NonEmpty(ss[1..])
  }

  lemma {:induction false} NonEmptyAppend(ss: seq<string>, s: string)
    ensures NonEmpty(ss + [s]) == NonEmpty(ss) + (if s == "" then [] else [s])
  {
    if ss == [] {
      assert ss + [s] == [s];
    } else {
      assert (ss + [s])[1..] == ss[1..] + [s];
      NonEmptyAppend(ss[1..], s);
    }
  }

  // ----- what a statement can hold -----

  // No comment and no semicolon outside string literals.
  predicate Plain(s: string, quoted: bool) {
    s == "" ||
    (&& (quoted || (!StartsComment(s) && s[0] != ';'))
     && Plain(s[1..], Toggle(quoted, s[0])))
  }

  // No comment outside string literals.
  predicate CommentFree(s: string, quoted: bool) {
    s == "" || ((quoted || !StartsComment(s)) && CommentFree(s[1..], Toggle(quoted, s[0])))
  }

  // Whether a string literal is still open at the end of s.
  predicate Open(s: string, quoted: bool) {
    if s == "" then quoted else Open(s[1..], Toggle(quoted, s[0]))
  }

  lemma {:induction false} StripHead(s: string, quoted: bool)
    requires StripComments(s, quoted) != ""
    ensures s != "" && StripComments(s, quoted)[0] in {s[0], '\n'}
    decreases |s|
  {
    if !quoted && StartsComment(s) {
      StripHead(SkipLine(s), quoted);
    }
  }

  lemma {:induction false} StripIsCommentFree(s: string, quoted: bool)
    ensures CommentFree(StripComments(s, quoted), quoted)
    decreases |s|
  {
    if s == "" {
    } else if !quoted && StartsComment(s) {
      StripIsCommentFree(SkipLine(s), quoted);
    } else {
      var q := Toggle(quoted, s[0]);
      StripIsCommentFree(s[1..], q);
      var rest := StripComments(s[1..], q);
      assert StripComments(s, quoted)[1..] == rest;
      if rest != "" {
        StripHead(s[1..], q);
      }
    }
  }

  lemma {:induction false} JoinOf(head: string, tail: seq<string>)
    ensures Join([head] + tail) == if tail == [] then head else head + ";" + Join(tail)
  {
    assert ([head] + tail)[1..] == tail;
  }

  lemma CharFirst(c: char, head: string, tail: string)
    ensures [c] + head + ";" + tail == [c] + (head + ";" + tail)
  {
  }

  lemma {:induction false} JoinAfterChar(c: char, rest: seq<string>)
    requires rest != []
    ensures Join([[c] + rest[0]] + rest[1..]) == [c] + Join(rest)
  {
    JoinOf([c] + rest[0], rest[1..]);
    JoinOf(rest[0], rest[1..]);
    assert rest == [rest[0]] + rest[1..];
    CharFirst(c, rest[0], Join(rest[1..]));
  }

  // Splitting loses only the semicolons between the pieces.
  lemma {:induction false} PiecesJoinBack(s: string, quoted: bool)
    ensures Join(SplitTop(s, quoted)) == s
  {
    if s != "" {
      var rest := SplitTop(s[1..], Toggle(quoted, s[0]));
      PiecesJoinBack(s[1..], Toggle(quoted, s[0]));
      if s[0] == ';' && !quoted {
        JoinOf("", rest);
      } else {
        JoinAfterChar(s[0], rest);
      }
    }
  }

  // Every piece is plain, every piece but the last closes its literals, and the last ends as the text does.
  predicate PiecesOf(pieces: seq<string>, quoted: bool, open: bool) {
    && |pieces| >= 1
    && Plain(pieces[0], quoted)
    && (forall i :: 0 < i < |pieces| ==> Plain(pieces[i], false))
    && (|pieces| > 1 ==> !Open(pieces[0], quoted))
    && (forall i :: 0 < i < |pieces| - 1 ==> !Open(pieces[i], false))
    && Open(pieces[|pieces| - 1], if |pieces| == 1 then quoted else false) == open
  }

  lemma {:induction false} PieceIsPrefix(s: string, quoted: bool)
    ensures SplitTop(s, quoted)[0] <= s
  {
    if s != "" && !(s[0] == ';' && !quoted) {
      PieceIsPrefix(s[1..], Toggle(quoted, s[0]));
    }
  }

  lemma PiecesAfterSemicolon(rest: seq<string>, open: bool)
    requires PiecesOf(rest, false, open)
    ensures PiecesOf([""] + rest, false, open)
  {
    var pieces := [""] + rest;
    assert forall i :: 0 < i < |pieces| ==> pieces[i] == rest[i - 1];
  }

  lemma PiecesAfterChar(c: char, rest: seq<string>, quoted: bool, open: bool)
    requires PiecesOf(rest, Toggle(quoted, c), open)
    requires quoted || (c != ';' && !StartsComment([c] + rest[0]))
    ensures PiecesOf([[c] + rest[0]] + rest[1..], quoted, open)
  {
    var pieces := [[c] + rest[0]] + rest[1..];
    assert pieces[0][1..] == rest[0];
    assert forall i :: 0 < i < |pieces| ==> pieces[i] == rest[i];
  }

  lemma {:induction false} SplitIntoPieces(s: string, quoted: bool)
    requires CommentFree(s, quoted)
    ensures PiecesOf(SplitTop(s, quoted), quoted, Open(s, quoted))
  {
    if s == "" {
    } else if s[0] == ';' && !quoted {
      SplitIntoPieces(s[1..], false);
      PiecesAfterSemicolon(SplitTop(s[1..], false), Open(s, quoted));
    } else {
      var q := Toggle(quoted, s[0]);
      SplitIntoPieces(s[1..], q);
      PieceIsPrefix(s[1..], q);
      PiecesAfterChar(s[0], SplitTop(s[1..], q), quoted, Open(s, quoted));
    }
  }

  // ----- trimming -----

  lemma {:induction false} TrimLeftKeeps(s: string)
    requires Plain(s, false)
    ensures Plain(TrimLeft(s), false) && Open(TrimLeft(s), false) == Open(s, false)
  {
    if s != "" && IsSpace(s[0]) {
      TrimLeftKeeps(s[1..]);
    }
  }

  lemma {:induction false} DropLastKeeps(s: string, quoted: bool)
    requires s != "" && Plain(s, quoted)
    ensures Plain(s[..|s| - 1], quoted)
    ensures IsSpace(s[|s| - 1]) ==> Open(s[..|s| - 1], quoted) == Open(s, quoted)
  {
    if |s| > 1 {
      var q := Toggle(quoted, s[0]);
      DropLastKeeps(s[1..], q);
      assert s[..|s| - 1][1..] == s[1..][..|s| - 2];
    } else {
      assert s[1..] == "";
    }
  }

  lemma {:induction false} TrimRightKeeps(s: string)
    requires Plain(s, false)
    ensures Plain(TrimRight(s), false) && Open(TrimRight(s), false) == Open(s, false)
  {
    if s != "" && IsSpace(s[|s| - 1]) {
      DropLastKeeps(s, false);
      TrimRightKeeps(s[..|s| - 1]);
    }
  }

  // Neither end of s is white space.
  predicate Trimmed(s: string) {
    s != "" ==> !IsSpace(s[0]) && !IsSpace(s[|s| - 1])
  }

  lemma {:induction false} TrimLeftEnds(s: string)
    ensures TrimLeft(s) == "" || !IsSpace(TrimLeft(s)[0])
  {
    if s != "" && IsSpace(s[0]) {
      TrimLeftEnds(s[1..]);
    }
  }

  lemma {:induction false} TrimRightEnds(s: string)
    requires s == "" || !IsSpace(s[0])
    ensures Trimmed(TrimRight(s))
  {
    if s != "" && IsSpace(s[|s| - 1]) {
      TrimRightEnds(s[..|s| - 1]);
    }
  }

  predicate Blank(s: string) {
    forall c <- s :: IsSpace(c)
  }

  lemma {:induction false} TrimLeftCuts(s: string) returns (before: string)
    ensures s == before + TrimLeft(s) && Blank(before)
  {
    before := "";
    if s != "" && IsSpace(s[0]) {
      var more := TrimLeftCuts(s[1..]);
      before := [s[0]] + more;
      assert [s[0]] + (more + TrimLeft(s)) == before + TrimLeft(s);
    }
  }

  lemma {:induction false} TrimRightCuts(s: string) returns (after: string)
    ensures s == TrimRight(s) + after && Blank(after)
  {
    after := "";
    if s != "" && IsSpace(s[|s| - 1]) {
      var more := TrimRightCuts(s[..|s| - 1]);
      after := more + [s[|s| - 1]];
    }
  }

  // Trimming takes white space off both ends, all of it, and nothing else.
  lemma TrimExactly(s: string) returns (before: string, after: string)
    ensures s == before + Trim(s) + after && Blank(before) && Blank(after) && Trimmed(Trim(s))
  {
    before := TrimLeftCuts(s);
    after := TrimRightCuts(TrimLeft(s));
    TrimLeftEnds(s);
    TrimRightEnds(TrimLeft(s));
    assert s == before + (Trim(s) + after);
  }

  // White space by code point: the control characters, the space, and the separators outside ASCII.
  lemma SpacesExactly(c: char)
    ensures IsSpace(c) <==>
            c as int in {0x09, 0x0a, 0x0b, 0x0c, 0x0d, 0x1c, 0x1d, 0x1e, 0x1f, 0x20, 0x85, 0xa0, 0x1680, 0x2000,
                         0x2001, 0x2002, 0x2003, 0x2004, 0x2005, 0x2006, 0x2007, 0x2008, 0x2009, 0x200a, 0x2028,
                         0x2029, 0x202f, 0x205f, 0x3000}
  {
  }

  lemma {:induction false} TrimKeeps(s: string)
    requires Plain(s, false)
    ensures Plain(Trim(s), false) && Open(Trim(s), false) == Open(s, false) && Trimmed(Trim(s))
  {
    TrimLeftKeeps(s);
    TrimRightKeeps(TrimLeft(s));
    TrimLeftEnds(s);
    TrimRightEnds(TrimLeft(s));
  }

  // ----- normal form -----

  // Non-empty trimmed statements without top-level comments or semicolons; only the last may leave a literal open.
  predicate WellFormed(ss: seq<string>) {
    && (forall i :: 0 <= i < |ss| ==> ss[i] != "" && Trimmed(ss[i]) && Plain(ss[i], false))
    && (forall i :: 0 <= i < |ss| - 1 ==> !Open(ss[i], false))
  }

  predicate EndsOpen(ss: seq<string>) {
    ss != [] && Open(ss[|ss| - 1], false)
  }

  lemma {:induction false} TidyIsWellFormed(pieces: seq<string>, open: bool)
    requires PiecesOf(pieces, false, open)
    ensures WellFormed(Tidy(pieces))
    ensures EndsOpen(Tidy(pieces)) == open
  {
    TrimKeeps(pieces[0]);
    var head := Trim(pieces[0]);
    var rest := pieces[1..];
    if rest == [] {
      assert Tidy(rest) == [];
    } else {
      assert forall i :: 0 <= i < |rest| ==> rest[i] == pieces[i + 1];
      TidyIsWellFormed(rest, open);
      var tail := Tidy(rest);
      var all := Tidy(pieces);
      if head != "" {
        assert all[0] == head && forall i :: 0 < i < |all| ==> all[i] == tail[i - 1];
      } else {
        assert all == tail;
      }
    }
  }

  /** No returned statement holds a top-level comment or semicolon; only the last can leave a string
      literal open, and it does so exactly when the file itself, comments removed, ends inside one. */
  lemma {:induction false} StatementsAreWellFormed(sql: string)
    ensures WellFormed(Statements(sql))
    ensures EndsOpen(Statements(sql)) == Open(StripComments(sql, false), false)
  {
    var text := StripComments(sql, false);
    StripIsCommentFree(sql, false);
    SplitIntoPieces(text, false);
    TidyIsWellFormed(SplitTop(text, false), Open(text, false));
  }

  function Join(ss: seq<string>): string {
    if ss == [] then ""
    else if |ss| == 1 then ss[0]
    else ss[0] + ";" + Join(ss[1..])
  }

  lemma {:induction false} PlainIsFixed(p: string, quoted: bool)
    requires Plain(p, quoted)
    ensures StripComments(p, quoted) == p && SplitTop(p, quoted) == [p]
  {
    if p != "" {
      PlainIsFixed(p[1..], Toggle(quoted, p[0]));
    }
  }

  lemma {:induction false} SplitAfterPlain(p: string, quoted: bool, rest: string)
    requires Plain(p, quoted) && !Open(p, quoted)
    ensures StripComments(p + ";" + rest, quoted) == p + ";" + StripComments(rest, false)
    ensures SplitTop(p + ";" + rest, quoted) == [p] + SplitTop(rest, false)
  {
    var whole := p + ";" + rest;
    if p == "" {
      assert whole[1..] == rest;
    } else {
      assert whole[1..] == p[1..] + ";" + rest;
      SplitAfterPlain(p[1..], Toggle(quoted, p[0]), rest);
      var tail := SplitTop(whole[1..], Toggle(quoted, p[0]));
      assert tail[0] == p[1..] && tail[1..] == SplitTop(rest, false);
      assert [p[0]] + p[1..] == p;
      assert [p[0]] + (p[1..] + ";" + StripComments(rest, false)) == p + ";" + StripComments(rest, false);
    }
  }

  lemma {:induction false} JoinSplits(ss: seq<string>)
    requires WellFormed(ss) && ss != []
    ensures StripComments(Join(ss), false) == Join(ss) && SplitTop(Join(ss), false) == ss
  {
    if |ss| == 1 {
      PlainIsFixed(ss[0], false);
    } else {
      var rest := ss[1..];
      assert forall i :: 0 <= i < |rest| ==> rest[i] == ss[i + 1];
      JoinSplits(rest);
      SplitAfterPlain(ss[0], false, Join(rest));
      assert ss == [ss[0]] + rest;
    }
  }

  lemma {:induction false} TidyFixesTrimmed(ss: seq<string>)
    requires forall i :: 0 <= i < |ss| ==> ss[i] != "" && Trimmed(ss[i])
    ensures Tidy(ss) == ss
  {
    if ss != [] {
      var rest := ss[1..];
      assert forall i :: 0 <= i < |rest| ==> rest[i] == ss[i + 1];
      TidyFixesTrimmed(rest);
      assert Trim(ss[0]) == ss[0];
    }
  }

  // Joining the statements with semicolons and splitting again gives the same statements, for every text.
  lemma SplitIsNormalForm(sql: string)
    ensures Statements(Join(Statements(sql))) == Statements(sql)
  {
    var ss := Statements(sql);
    StatementsAreWellFormed(sql);
    if ss == [] {
      assert Join(ss) == "";
      assert Tidy([""]) == [];
    } else {
      JoinSplits(ss);
      TidyFixesTrimmed(ss);
    }
  }
}
