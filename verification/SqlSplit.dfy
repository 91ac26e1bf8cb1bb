/**
 * The splitter of migration files (internal/store/mysql/migrate.go): a lexer that cuts a
 * script at semicolons outside quotes and comments, drops comments and trims what is left.
 */
module SqlSplit {
  import opened Core
  import opened Collections

  const SINGLE: char := 39 as char
  const DOUBLE: char := 34 as char
  const BACK: char := 96 as char
  const BACKSLASH: char := 92 as char

  /** Where the lexer is: outside everything, in a literal, or in one of two comments. */
  datatype Mode = Plain | Quoted(quote: char, escaped: bool) | Line | Block

  datatype Error = UnterminatedLiteral(quote: char) | UnterminatedComment

  /** One move of the lexer: bytes consumed, bytes kept, the next mode, and whether the
      statement ends here. */
  datatype Move = Move(skip: nat, text: string, mode: Mode, ends: bool)

  predicate IsQuote(c: char) { c == SINGLE || c == DOUBLE || c == BACK }

  /** White space as unicode.IsSpace has it. The script is its Unicode characters: what the
      lexer looks for is ASCII, which UTF-8 never hides inside another character. */
  predicate IsSpace(c: char) { IsSpaceCode(c as int) }

  predicate IsSpaceCode(n: int) {
    || 9 <= n <= 13 || n == 32 || n == 0x85 || n == 0xA0 || n == 0x1680 || 0x2000 <= n <= 0x200A
    || n == 0x2028 || n == 0x2029 || n == 0x202F || n == 0x205F || n == 0x3000
  }

  predicate OpensDash(s: string)
    requires s != ""
  {
    s[0] == '-' && |s| > 1 && s[1] == '-' && (|s| == 2 || s[2] == ' ' || s[2] == '\t' || s[2] == '\n')
  }

  predicate OpensBlock(s: string)
    requires s != ""
  {
    s[0] == '/' && |s| > 1 && s[1] == '*'
  }

  predicate OpensComment(s: string)
    requires s != ""
  {
    OpensDash(s) || s[0] == '#' || OpensBlock(s)
  }

  /** A byte inside or at the edge of a literal. */
  function QuoteStep(m: Mode, c: char): (r: Mode)
    requires m.Plain? || m.Quoted?
    ensures r.Plain? || r.Quoted?
  {
    if m.Plain? then (if IsQuote(c) then Quoted(c, false) else Plain)
    else if m.escaped then Quoted(m.quote, false)
    else if c == BACKSLASH && m.quote != BACK then Quoted(m.quote, true)
    else if c == m.quote then Plain
    else m
  }

  function Step(s: string, m: Mode): (r: Move)
    requires s != ""
    ensures 1 <= r.skip <= |s|
  {
    match m
    case Line =>
      if s[0] == '\n' then Move(1, "\n", Plain, false) else Move(1, "", Line, false)
    case Block =>
      if s[0] == '*' && |s| > 1 && s[1] == '/' then Move(2, "", Plain, false) else Move(1, "", Block, false)
    case Quoted(_, _) => Move(1, [s[0]], QuoteStep(m, s[0]), false)
    case Plain =>
      if OpensDash(s) then Move(2, "", Line, false)
      else if s[0] == '#' then Move(1, "", Line, false)
      else if OpensBlock(s) then Move(2, "", Block, false)
      else if s[0] == ';' then Move(1, "", Plain, true)
      else Move(1, [s[0]], QuoteStep(m, s[0]), false)
  }

  function TrimLeft(s: string): (r: string)
    ensures |r| <= |s|
    ensures r != "" ==> !IsSpace(r[0])
  {
    if s != "" && IsSpace(s[0]) then TrimLeft(s[1..]) else s
  }

  function TrimRight(s: string): (r: string)
    ensures r <= s
    ensures r != "" ==> !IsSpace(r[|r| - 1])
  {
    if s != "" && IsSpace(s[|s| - 1]) then TrimRight(s[..|s| - 1]) else s
  }

  predicate Trimmed(s: string) { s != "" ==> !IsSpace(s[0]) && !IsSpace(s[|s| - 1]) }

  function Trim(s: string): (r: string)
    ensures Trimmed(r) && |r| <= |s|
    ensures Trimmed(s) ==> r == s
  {
    TrimRight(TrimLeft(s))
  }

  function Flush(cur: string): (r: seq<string>)
  {
    if Trim(cur) == "" then [] else [Trim(cur)]
  }

  /** What a scan leaves: the statements ended, the text pending, the mode. */
  datatype Outcome = Outcome(out: seq<string>, cur: string, mode: Mode)

  function Scan(s: string, m: Mode, cur: string): (r: Outcome)
    decreases |s|
  {
    if s == "" then Outcome([], cur, m)
    else
      var v := Step(s, m);
      Ended(v, cur, Scan(s[v.skip..], v.mode, Pending(v, cur)))
  }

  /** The text pending after a move. */
  function Pending(v: Move, cur: string): (next: string)
  {
    if v.ends then "" else cur + v.text
  }

  /** The outcome after a move, the statement it ended put first. */
  function Ended(v: Move, cur: string, rest: Outcome): (o: Outcome)
  {
    if v.ends then Outcome(Flush(cur) + rest.out, rest.cur, rest.mode) else rest
  }

  /** The end of the script: an open literal or block comment is an error. */
  function Finish(o: Outcome): (r: Result<seq<string>, Error>)
  {
    if o.mode.Quoted? then Failure(UnterminatedLiteral(o.mode.quote))
    else if o.mode.Block? then Failure(UnterminatedComment)
    else Success(o.out + Flush(o.cur))
  }

  function Split(s: string): (r: Result<seq<string>, Error>)
  {
    Finish(Scan(s, Plain, ""))
  }

  // ---- the loop ----

  predicate Flags(quote: char, escaped: bool, lineComm: bool, blockComm: bool)
  {
    && (quote == 0 as char || IsQuote(quote))
    && (escaped ==> quote != 0 as char)
    && !(lineComm && blockComm)
    && (lineComm || blockComm ==> quote == 0 as char)
  }

  function ModeOf(quote: char, escaped: bool, lineComm: bool, blockComm: bool): (m: Mode)
  {
    if lineComm then Line else if blockComm then Block
    else if quote != 0 as char then Quoted(quote, escaped) else Plain
  }

  /** The loop at byte i, with these statements out and this text pending, is on the way
      to what a scan of the whole script gives. */
  ghost predicate Reached(script: string, i: nat, m: Mode, out: seq<string>, cur: string)
  {
    && i <= |script|
    && var o := Scan(script[i..], m, cur);
    Scan(script, Plain, "") == Outcome(out + o.out, o.cur, o.mode)
  }

  lemma Advance(script: string, i: nat, m: Mode, out: seq<string>, cur: string)
    requires i < |script| && Reached(script, i, m, out, cur)
    ensures
      var v := Step(script[i..], m);
      Reached(script, i + v.skip, v.mode, if v.ends then out + Flush(cur) else out, Pending(v, cur))
  {
    var v := Step(script[i..], m);
    SliceFrom(script, i, v.skip);
    ScanUnfold(script[i..], m, cur);
    EndedAfter(out, v, cur, Scan(script[i + v.skip..], v.mode, Pending(v, cur)));
  }

  lemma SliceFrom(s: string, i: nat, k: nat)
    requires i + k <= |s|
    ensures s[i..][k..] == s[i + k..]
  {
  }

  lemma ScanUnfold(s: string, m: Mode, cur: string)
    requires s != ""
    ensures var v := Step(s, m); Scan(s, m, cur) == Ended(v, cur, Scan(s[v.skip..], v.mode, Pending(v, cur)))
  {
  }

  lemma EndedAfter(out: seq<string>, v: Move, cur: string, rest: Outcome)
    ensures out + Ended(v, cur, rest).out == (if v.ends then out + Flush(cur) else out) + rest.out
  {
    assert out + (Flush(cur) + rest.out) == out + Flush(cur) + rest.out;
  }

  lemma LookAhead(script: string, i: nat)
    requires i < |script|
    ensures var ahead := script[i..];
      && |ahead| == |script| - i && ahead[0] == script[i]
      && (|ahead| > 1 ==> ahead[1] == script[i + 1]) && (|ahead| > 2 ==> ahead[2] == script[i + 2])
  {
  }

  /** The loop over the bytes with its quote, escape and comment flags. */
  method SplitStatements(script: string) returns (r: Result<seq<string>, Error>)
    ensures r == Split(script)
  {
    var out: seq<string>, current := [], "";
    var quote, escaped, lineComm, blockComm := 0 as char, false, false, false;
    var i := 0;
    while i < |script|
      invariant 0 <= i <= |script|
      invariant Flags(quote, escaped, lineComm, blockComm)
      invariant Reached(script, i, ModeOf(quote, escaped, lineComm, blockComm), out, current)
    {
      var c := script[i];
      ghost var ahead := script[i..];
      ghost var v := Step(ahead, ModeOf(quote, escaped, lineComm, blockComm));
      LookAhead(script, i);
      Advance(script, i, ModeOf(quote, escaped, lineComm, blockComm), out, current);
      ghost var was := current;
      ghost var start := i;
      i := i + 1;
      if lineComm {
        if c == '\n' {
          lineComm := false;
          current := current + [c];
        }
      } else if blockComm {
        if c == '*' && i < |script| && script[i] == '/' {
          blockComm := false;
          i := i + 1;
        }
      } else if quote != 0 as char {
        current := current + [c];
        if escaped {
          escaped := false;
        } else if c == BACKSLASH && quote != BACK {
          escaped := true;
        } else if c == quote {
          quote := 0 as char;
        }
      } else if c == '-' && i < |script| && script[i] == '-'
        && (i + 1 >= |script| || script[i + 1] == ' ' || script[i + 1] == '\t' || script[i + 1] == '\n') {
        lineComm := true;
        i := i + 1;
      } else if c == '#' {
        lineComm := true;
      } else if c == '/' && i < |script| && script[i] == '*' {
        blockComm := true;
        i := i + 1;
      } else if IsQuote(c) {
        quote := c;
        current := current + [c];
      } else if c == ';' {
        out := out + Flush(current);
        current := "";
      } else {
        current := current + [c];
      }
      assert ModeOf(quote, escaped, lineComm, blockComm) == v.mode && i == start + v.skip;
      assert current == Pending(v, was);
    }
    assert script[i..] == "" && out + [] == out;
    if quote != 0 as char {
      return Failure(UnterminatedLiteral(quote));
    }
    if blockComm {
      return Failure(UnterminatedComment);
    }
    r := Success(out + Flush(current));
  }

  // ---- what a clean statement is, by position ----

  /** The quoting state after the first i bytes, comments not considered. */
  function QuoteAt(s: string, i: nat): (m: Mode)
    requires i <= |s|
    ensures m.Plain? || m.Quoted?
  {
    if i == 0 then Plain else QuoteStep(QuoteAt(s, i - 1), s[i - 1])
  }

  /** Byte i is outside quotes and opens a comment or ends a statement. */
  predicate Breaks(s: string, i: nat)
    requires i < |s|
  {
    QuoteAt(s, i).Plain? && (OpensComment(s[i..]) || s[i] == ';')
  }

  /** No comment opening and no semicolon outside quotes, and quotes balanced. */
  ghost predicate Clean(s: string)
  {
    QuoteAt(s, |s|).Plain? && forall i :: 0 <= i < |s| ==> !Breaks(s, i)
  }

  lemma ScanMove(s: string, m: Mode, cur: string, v: Move)
    requires s != "" && Step(s, m) == v && !v.ends
    ensures Scan(s, m, cur) == Scan(s[v.skip..], v.mode, cur + v.text)
  {}

  lemma StepFollowsQuotes(s: string, i: nat)
    requires i < |s| && !Breaks(s, i)
    ensures Step(s[i..], QuoteAt(s, i)) == Move(1, [s[i]], QuoteAt(s, i + 1), false)
  {
    assert s[i..][0] == s[i];
  }

  /** Up to the first break the lexer keeps every byte and follows the quotes. */
  lemma {:induction false} ScanFollowsQuotes(s: string, i: nat)
    requires i <= |s| && forall k :: 0 <= k < i ==> !Breaks(s, k)
    ensures Scan(s, Plain, "") == Scan(s[i..], QuoteAt(s, i), s[..i])
  {
    if i == 0 {
      assert s[0..] == s;
    } else {
      var j := i - 1;
      ScanFollowsQuotes(s, j);
      StepFollowsQuotes(s, j);
      ScanMove(s[j..], QuoteAt(s, j), s[..j], Move(1, [s[j]], QuoteAt(s, i), false));
      SliceStep(s, j);
    }
  }

  lemma SliceStep(s: string, j: nat)
    requires j < |s|
    ensures s[j..][1..] == s[j + 1..] && s[..j] + [s[j]] == s[..j + 1] && s[j..][0] == s[j]
  {
  }

  /** The number of bytes a scan still holds. */
  function Weight(o: seq<string>): (n: nat)
  {
    if o == [] then 0 else |o[0]| + Weight(o[1..])
  }

  lemma {:induction false} WeightAppend(a: seq<string>, b: seq<string>)
    ensures Weight(a + b) == Weight(a) + Weight(b)
  {
    if a == [] {
      assert a + b == b;
    } else {
      WeightAppend(a[1..], b);
      assert (a + b)[1..] == a[1..] + b;
    }
  }

  /** A scan never makes text. */
  lemma {:induction false} ScanNeverGrows(s: string, m: Mode, cur: string)
    ensures var o := Scan(s, m, cur); Weight(o.out) + |o.cur| <= |cur| + |s|
    decreases |s|
  {
    if s != "" {
      var v := Step(s, m);
      ScanNeverGrows(s[v.skip..], v.mode, Pending(v, cur));
      WeightAppend(Flush(cur), Scan(s[v.skip..], v.mode, "").out);
    }
  }

  /** A break loses at least one byte for good. */
  lemma ScanLosesAtBreak(t: string, cur: string)
    requires t != "" && (OpensComment(t) || t[0] == ';')
    ensures var o := Scan(t, Plain, cur); Weight(o.out) + |o.cur| < |cur| + |t|
  {
    var v := Step(t, Plain);
    var rest := Scan(t[v.skip..], v.mode, Pending(v, cur));
    ScanNeverGrows(t[v.skip..], v.mode, Pending(v, cur));
    WeightAppend(Flush(cur), rest.out);
  }

  lemma BreakLoses(s: string, i: nat)
    requires i < |s| && Breaks(s, i) && forall k :: 0 <= k < i ==> !Breaks(s, k)
    requires Split(s).Success?
    ensures Weight(Split(s).value) < |s|
  {
    ScanFollowsQuotes(s, i);
    ScanLosesAtBreak(s[i..], s[..i]);
    var o := Scan(s, Plain, "");
    WeightAppend(o.out, Flush(o.cur));
  }

  lemma FirstBreak(s: string, i: nat) returns (j: nat)
    requires i < |s| && Breaks(s, i)
    ensures j < |s| && Breaks(s, j) && forall k :: 0 <= k < j ==> !Breaks(s, k)
  {
    j := 0;
    while !Breaks(s, j)
      invariant j <= i && forall k :: 0 <= k < j ==> !Breaks(s, k)
      decreases i - j
    {
      j := j + 1;
    }
  }

  /** A script is its own only statement exactly when it is trimmed, not empty, and clean. */
  lemma SplitsToItself(s: string)
    ensures Split(s) == Success([s]) <==> s != "" && Trimmed(s) && Clean(s)
  {
    if s != "" && Trimmed(s) && Clean(s) {
      ScanFollowsQuotes(s, |s|);
      assert s[..|s|] == s && s[|s|..] == "";
      assert Scan(s, Plain, "") == Outcome([], s, Plain) && Flush(s) == [s];
      assert [] + [s] == [s];
    }
    if Split(s) == Success([s]) {
      EveryStatementIsTrimmed(s);
      assert s in Split(s).value;
      OnlyStatementIsClean(s);
    }
  }

  lemma OnlyStatementIsClean(s: string)
    requires Split(s) == Success([s])
    ensures Clean(s)
  {
    if i: nat :| i < |s| && Breaks(s, i) {
      var j := FirstBreak(s, i);
      BreakLoses(s, j);
    }
    ScanFollowsQuotes(s, |s|);
    assert s[|s|..] == "";
  }

  lemma {:induction false} ScannedAreTrimmed(s: string, m: Mode, cur: string)
    ensures forall t <- Scan(s, m, cur).out :: t != "" && Trimmed(t)
    decreases |s|
  {
    if s != "" {
      var v := Step(s, m);
      ScannedAreTrimmed(s[v.skip..], v.mode, Pending(v, cur));
    }
  }

  lemma EveryStatementIsTrimmed(s: string)
    requires Split(s).Success?
    ensures forall t <- Split(s).value :: t != "" && Trimmed(t)
  {
    ScannedAreTrimmed(s, Plain, "");
  }

  // ---- composition ----

  /** Text that cannot complete an opening begun before it: a semicolon, a newline, or an
      opening of its own. */
  predicate Inert(tail: string) {
    tail == "" || tail[0] == ';' || tail[0] == '\n' || tail[0] == '#' || OpensDash(tail) || OpensBlock(tail)
  }

  /** A scan that ends outside everything is not disturbed by such text after it. */
  lemma {:induction false} ScanThenMore(a: string, tail: string, m: Mode, cur: string)
    requires Scan(a, m, cur).mode.Plain? && Inert(tail)
    ensures
      var o := Scan(a, m, cur);
      Scan(a + tail, m, cur) == Then(o, Scan(tail, Plain, o.cur))
    decreases |a|
  {
    if a == "" {
      assert a + tail == tail;
    } else {
      var v := Step(a, m);
      var next := Pending(v, cur);
      var rest := Scan(a[v.skip..], v.mode, next);
      SameStep(a, tail, m, cur);
      StepBeforeMore(a, tail, m, cur);
      ScanThenMore(a[v.skip..], tail, v.mode, next);
      EndedThen(v, cur, rest, Scan(tail, Plain, rest.cur));
    }
  }

  function Then(o: Outcome, p: Outcome): (r: Outcome)
  {
    Outcome(o.out + p.out, p.cur, p.mode)
  }

  lemma EndedThen(v: Move, cur: string, rest: Outcome, p: Outcome)
    ensures Ended(v, cur, Then(rest, p)) == Then(Ended(v, cur, rest), p)
  {
    assert Flush(cur) + (rest.out + p.out) == Flush(cur) + rest.out + p.out;
  }

  /** The two bytes of lookahead at the end of a see what they saw before. */
  lemma SameStep(a: string, tail: string, m: Mode, cur: string)
    requires a != "" && Scan(a, m, cur).mode.Plain? && Inert(tail)
    ensures Step(a + tail, m) == Step(a, m)
  {}

  lemma StepBeforeMore(a: string, tail: string, m: Mode, cur: string)
    requires a != "" && Step(a + tail, m) == Step(a, m)
    ensures
      var v := Step(a, m);
      Scan(a + tail, m, cur) == Ended(v, cur, Scan(a[v.skip..] + tail, v.mode, Pending(v, cur)))
  {
    var v := Step(a, m);
    assert (a + tail)[v.skip..] == a[v.skip..] + tail;
  }

  /** Scripts compose: after a script that ends outside quotes and comments, a semicolon
      and any second script split into the statements of the two. */
  lemma SplitAppend(a: string, b: string)
    requires Scan(a, Plain, "").mode.Plain?
    ensures Split(a + ";" + b) ==
      match Split(b) case Success(ss) => Success(Split(a).value + ss) case Failure(e) => Failure(e)
  {
    var o := Scan(a, Plain, "");
    var p := Scan(b, Plain, "");
    var tail := ";" + b;
    assert tail[0] == ';';
    ScanThenMore(a, tail, Plain, "");
    Associates(a, ";", b);
    ScanSemicolon(b, o.cur);
    FinishThen(o, p);
  }

  lemma ScanSemicolon(b: string, cur: string)
    ensures Scan(";" + b, Plain, cur) == Then(Outcome(Flush(cur), "", Plain), Scan(b, Plain, ""))
  {
    assert (";" + b)[1..] == b;
    assert Step(";" + b, Plain) == Move(1, "", Plain, true);
  }

  lemma FinishThen(o: Outcome, p: Outcome)
    requires o.mode.Plain?
    ensures Finish(Then(o, Then(Outcome(Flush(o.cur), "", Plain), p))) ==
      match Finish(p) case Success(ss) => Success(Finish(o).value + ss) case Failure(e) => Failure(e)
  {
    assert o.out + (Flush(o.cur) + p.out) + Flush(p.cur) == o.out + Flush(o.cur) + (p.out + Flush(p.cur));
  }

  // ---------------------------------------------------------------- literals and blanks

  /** The inside of a literal: no closing quote but one a backslash escapes, and in
      backquotes a backslash escapes nothing. */
  predicate Inside(q: char, body: string) {
    if body == "" then true
    else if body[0] == BACKSLASH && q != BACK then |body| > 1 && Inside(q, body[2..])
    else body[0] != q && Inside(q, body[1..])
  }

  lemma {:induction false} ScanLiteral(q: char, body: string, rest: string, cur: string)
    requires IsQuote(q) && Inside(q, body)
    ensures Scan(body + [q] + rest, Quoted(q, false), cur) == Scan(rest, Plain, cur + body + [q])
    decreases |body|
  {
    var all := body + [q] + rest;
    if body == "" {
      assert all[1..] == rest && cur + "" + [q] == cur + [q];
      ScanMove(all, Quoted(q, false), cur, Move(1, [q], Plain, false));
    } else if body[0] == BACKSLASH && q != BACK {
      ScanEscape(q, body, rest, cur);
      assert cur + [body[0]] + [body[1]] + body[2..] == cur + body;
      ScanLiteral(q, body[2..], rest, cur + [body[0]] + [body[1]]);
    } else {
      assert all[1..] == body[1..] + [q] + rest && cur + [body[0]] + body[1..] == cur + body;
      ScanMove(all, Quoted(q, false), cur, Move(1, [body[0]], Quoted(q, false), false));
      ScanLiteral(q, body[1..], rest, cur + [body[0]]);
    }
  }

  lemma ScanEscape(q: char, body: string, rest: string, cur: string)
    requires IsQuote(q) && q != BACK && |body| > 1 && body[0] == BACKSLASH
    ensures Scan(body + [q] + rest, Quoted(q, false), cur) ==
            Scan(body[2..] + [q] + rest, Quoted(q, false), cur + [body[0]] + [body[1]])
  {
    var all, next := body + [q] + rest, body[1..] + [q] + rest;
    assert all[1..] == next && next[1..] == body[2..] + [q] + rest;
    ScanMove(all, Quoted(q, false), cur, Move(1, [body[0]], Quoted(q, true), false));
    ScanMove(next, Quoted(q, true), cur + [body[0]], Move(1, [body[1]], Quoted(q, false), false));
  }

  /** A literal is read whole, semicolons and comment marks in it included: alone it is one
      statement, and unclosed it is an error that names its quote. */
  lemma LiteralIsOneStatement(q: char, body: string)
    requires IsQuote(q) && Inside(q, body)
    ensures Split([q] + (body + [q])) == Success([[q] + body + [q]])
  {
    ScanWholeLiteral(q, body);
    FinishOne([q] + body + [q]);
  }

  lemma ScanWholeLiteral(q: char, body: string)
    requires IsQuote(q) && Inside(q, body)
    ensures Scan([q] + (body + [q]), Plain, "") == Outcome([], [q] + body + [q], Plain)
  {
    var script := [q] + (body + [q]);
    assert script[1..] == body + [q] + "" && "" + [q] == [q];
    ScanMove(script, Plain, "", Move(1, [q], Quoted(q, false), false));
    ScanLiteral(q, body, "", [q]);
  }

  lemma {:induction false} ScanOpenLiteral(q: char, body: string, cur: string)
    requires IsQuote(q) && Inside(q, body)
    ensures Scan(body, Quoted(q, false), cur).mode == Quoted(q, false)
    decreases |body|
  {
    if body != "" {
      if body[0] == BACKSLASH && q != BACK {
        assert body[1..][1..] == body[2..];
        ScanMove(body, Quoted(q, false), cur, Move(1, [body[0]], Quoted(q, true), false));
        ScanMove(body[1..], Quoted(q, true), cur + [body[0]], Move(1, [body[1]], Quoted(q, false), false));
        ScanOpenLiteral(q, body[2..], cur + [body[0]] + [body[1]]);
      } else {
        ScanMove(body, Quoted(q, false), cur, Move(1, [body[0]], Quoted(q, false), false));
        ScanOpenLiteral(q, body[1..], cur + [body[0]]);
      }
    }
  }

  lemma OpenLiteralIsAnError(q: char, body: string)
    requires IsQuote(q) && Inside(q, body)
    ensures Split([q] + body) == Failure(UnterminatedLiteral(q))
  {
    assert ([q] + body)[1..] == body && "" + [q] == [q];
    ScanMove([q] + body, Plain, "", Move(1, [q], Quoted(q, false), false));
    ScanOpenLiteral(q, body, [q]);
  }

  predicate BlankText(s: string) {
    forall i :: 0 <= i < |s| ==> s[i] == ' ' || s[i] == '\t' || s[i] == '\n' || s[i] == '\r'
  }

  lemma {:induction false} ScanBlank(s: string, cur: string)
    requires BlankText(s)
    ensures Scan(s, Plain, cur) == Outcome([], cur + s, Plain)
    decreases |s|
  {
    if s != "" {
      ScanMove(s, Plain, cur, Move(1, [s[0]], Plain, false));
      ScanBlank(s[1..], cur + [s[0]]);
      assert cur + [s[0]] + s[1..] == cur + s;
    } else {
      assert cur + s == cur;
    }
  }

  lemma {:induction false} TrimBlank(s: string)
    requires BlankText(s)
    ensures TrimLeft(s) == ""
  {
    if s != "" {
      TrimBlank(s[1..]);
    }
  }

  /** A blank script holds no statement. */
  lemma BlankScriptIsEmpty(s: string)
    requires BlankText(s)
    ensures Split(s) == Success([])
  {
    ScanBlank(s, "");
    assert "" + s == s;
    TrimBlank(s);
    assert Trim(s) == "" && Flush(s) == [];
    assert Scan(s, Plain, "").out + [] == [];
  }

  // ---------------------------------------------------------------- comments

  lemma {:induction false} ScanLineComment(c: string, rest: string, cur: string)
    requires '\n' !in c
    ensures Scan(c + "\n" + rest, Line, cur) == Scan(rest, Plain, cur + "\n")
  {
    var all := c + "\n" + rest;
    if c == "" {
      assert all[1..] == rest;
      ScanMove(all, Line, cur, Move(1, "\n", Plain, false));
    } else {
      assert all[1..] == c[1..] + "\n" + rest && cur + "" == cur;
      ScanMove(all, Line, cur, Move(1, "", Line, false));
      ScanLineComment(c[1..], rest, cur);
    }
  }

  /** The two ways to open a comment that ends with its line. */
  predicate OpensLine(mark: string) {
    mark == "#" || mark == "-- " || mark == "--\t"
  }

  lemma ScanLineMark(mark: string, c: string, b: string, cur: string)
    requires OpensLine(mark) && '\n' !in c
    ensures Inert(mark + c + "\n" + b) && Scan(mark + c + "\n" + b, Plain, cur) == Scan(b, Plain, cur + "\n")
  {
    var all := mark + c + "\n" + b;
    var skip := if mark == "#" then 1 else 2;
    assert cur + "" == cur;
    ScanMove(all, Plain, cur, Move(skip, "", Line, false));
    var left := mark[skip..] + c;
    assert all[skip..] == left + "\n" + b;
    ScanLineComment(left, b, cur);
  }

  /** A line comment goes, to the end of its line and no further: after a script that ends
      outside quotes and comments, the script with it splits like the one without. */
  lemma LineCommentIsDropped(a: string, mark: string, c: string, b: string)
    requires Scan(a, Plain, "").mode.Plain? && OpensLine(mark) && '\n' !in c
    ensures Split(a + (mark + c + "\n" + b)) == Split(a + ("\n" + b))
  {
    var cur := Scan(a, Plain, "").cur;
    ScanLineMark(mark, c, b, cur);
    ScanThenMore(a, mark + c + "\n" + b, Plain, "");
    ScanThenMore(a, "\n" + b, Plain, "");
    assert ("\n" + b)[1..] == b;
    ScanMove("\n" + b, Plain, cur, Move(1, "\n", Plain, false));
  }

  lemma {:induction false} ScanBlockComment(c: string, rest: string, cur: string)
    requires forall i :: 0 <= i < |c| - 1 ==> !(c[i] == '*' && c[i + 1] == '/')
    ensures Scan(c + ['*', '/'] + rest, Block, cur) == Scan(rest, Plain, cur)
  {
    var all := c + ['*', '/'] + rest;
    assert cur + "" == cur;
    if c == "" {
      assert all[2..] == rest;
      ScanMove(all, Block, cur, Move(2, "", Plain, false));
    } else {
      assert all[1..] == c[1..] + ['*', '/'] + rest;
      ScanMove(all, Block, cur, Move(1, "", Block, false));
      forall i | 0 <= i < |c[1..]| - 1 ensures !(c[1..][i] == '*' && c[1..][i + 1] == '/') {
        assert !(c[i + 1] == '*' && c[i + 2] == '/');
      }
      ScanBlockComment(c[1..], rest, cur);
    }
  }

  /** A block comment goes whole, and what follows it is read on, unless dropping it joins
      what was apart. */
  lemma BlockCommentIsDropped(a: string, c: string, b: string)
    requires Scan(a, Plain, "").mode.Plain? && Inert(b)
    requires forall i :: 0 <= i < |c| - 1 ==> !(c[i] == '*' && c[i + 1] == '/')
    ensures Split(a + (['/', '*'] + (c + ['*', '/'] + b))) == Split(a + b)
  {
    var cur, tail := Scan(a, Plain, "").cur, c + ['*', '/'] + b;
    var all := ['/', '*'] + tail;
    assert all[2..] == tail && cur + "" == cur && OpensBlock(all);
    ScanMove(all, Plain, cur, Move(2, "", Block, false));
    ScanBlockComment(c, b, cur);
    ScanThenMore(a, all, Plain, "");
    ScanThenMore(a, b, Plain, "");
  }

  function Join(ss: seq<string>): (s: string)
  {
    if ss == [] then "" else if |ss| == 1 then ss[0] else ss[0] + ";" + Join(ss[1..])
  }

  /** Splitting undoes joining. */
  lemma {:induction false} SplitUndoesJoin(ss: seq<string>)
    requires forall s <- ss :: s != "" && Trimmed(s) && Clean(s)
    ensures Split(Join(ss)) == Success(ss)
  {
    if ss == [] {
      assert Scan("", Plain, "") == Outcome([], "", Plain) && Flush("") == [];
      assert Split("").value == [];
    } else {
      var s := ss[0];
      assert s in ss;
      SplitsToItself(s);
      ScanFollowsQuotes(s, |s|);
      assert s[|s|..] == "";
      if |ss| == 1 {
        assert ss == [s];
      } else {
        assert forall t <- ss[1..] :: t in ss;
        SplitUndoesJoin(ss[1..]);
        SplitAppend(s, Join(ss[1..]));
        assert ss == [s] + ss[1..];
      }
    }
  }

  /** Dropping a comment can put two bytes side by side that open another: a statement the
      splitter returns need not split to itself. */
  lemma DroppedCommentCanOpenAnother()
    ensures Split(['-', '/', '*', '*', '/', '-']) == Success(["--"])
    ensures Split("--") == Success([])
  {
    DashesAroundComment();
    FinishOne("--");
    DashesAlone();
  }

  lemma FinishOne(s: string)
    requires s != "" && Trimmed(s)
    ensures Finish(Outcome([], s, Plain)) == Success([s])
  {
    assert [] + [s] == [s];
  }

  lemma DashesAlone()
    ensures Split("--") == Success([])
  {
    ScanMove("--", Plain, "", Move(2, "", Line, false));
    assert Scan("", Line, "") == Outcome([], "", Line);
  }

  lemma DashesAroundComment()
    ensures Scan(['-', '/', '*', '*', '/', '-'], Plain, "") == Outcome([], "--", Plain)
  {
    var s0 := ['-', '/', '*', '*', '/', '-'];
    var s1 := ['/', '*', '*', '/', '-'];
    var s2 := ['*', '/', '-'];
    assert s0[1..] == s1 && s1[2..] == s2 && s2[2..] == "-" && "-" + "" == "-";
    ScanMove(s0, Plain, "", Move(1, "-", Plain, false));
    ScanMove(s1, Plain, "-", Move(2, "", Block, false));
    ScanMove(s2, Block, "-", Move(2, "", Plain, false));
    ScanMove("-", Plain, "-", Move(1, "-", Plain, false));
  }
}
