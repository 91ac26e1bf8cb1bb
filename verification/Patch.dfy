/** Patches as bytes: splitting at section headers, and re-emitting kept sections. */
module Patch {
  import opened Core
  import opened Collections

  // Bytes are modelled as characters, so that the markers read as they are written.
  type Bytes = string

  const SECTION_MARKER: Bytes := "diff --git "
  const COMBINED_MARKER: Bytes := "diff --cc "

  datatype Op = OpAdd | OpModify | OpDelete | OpRename | OpCopy

  datatype EntryKind = Blob | Symlink | Submodule | Unknown

  /** What parsing one section yields. */
  datatype Meta = Meta(op: Op, oldPath: string, newPath: string, oldMode: nat, newMode: nat)

  datatype Change = Change(index: nat, meta: Meta, raw: Bytes)

  datatype PatchSet = PatchSet(preamble: Bytes, changes: seq<Change>)

  datatype Error = Empty | CombinedDiff | BadSection(index: nat)

  /** The section parser, as a function of the section's bytes. */
  type SectionParser = Bytes -> Option<Meta>

  function KindOfMode(mode: nat): EntryKind {
    if mode == 0 then Unknown
    else if mode == 0xA000 then Symlink        // 0o120000
    else if mode == 0xE000 then Submodule      // 0o160000
    else Blob
  }

  /** Every path a section touches, without duplicates. */
  function Paths(m: Meta): seq<string> {
    if m.oldPath == "" && m.newPath == "" then []
    else if m.oldPath == "" then [m.newPath]
    else if m.newPath == "" then [m.oldPath]
    else if m.oldPath == m.newPath then [m.newPath]
    else [m.oldPath, m.newPath]
  }

  /** The change makes a file at its new path. */
  predicate Makes(m: Meta) {
    m.op.OpAdd? || m.op.OpRename? || m.op.OpCopy?
  }

  /** The change takes away the file at its old path. */
  predicate Removes(m: Meta) {
    m.op.OpDelete? || m.op.OpRename?
  }

  function DisplayPath(m: Meta): string {
    if m.newPath != "" then m.newPath else m.oldPath
  }

  // ---------------------------------------------------------------- lines

  predicate HasPrefix(s: Bytes, prefix: Bytes) {
    prefix <= s
  }

  /** The length of the first line, its newline included. */
  function LineLength(raw: Bytes): (n: nat)
    requires raw != ""
    ensures 0 < n <= |raw|
    ensures forall i :: 0 <= i < n - 1 ==> raw[i] != '\n'
    ensures raw[n - 1] == '\n' || n == |raw|
  {
    if raw[0] == '\n' || |raw| == 1 then 1 else 1 + LineLength(raw[1..])
  }

  ghost function Lines(raw: Bytes): seq<Bytes> {
    if raw == "" then [] else [raw[..LineLength(raw)]] + Lines(raw[LineLength(raw)..])
  }

  function Flatten(parts: seq<Bytes>): Bytes {
    if parts == [] then "" else parts[0] + Flatten(parts[1..])
  }

  /** Whole lines only: nothing, or something that ends in a newline. */
  predicate EndsLine(s: Bytes) {
    s == "" || s[|s| - 1] == '\n'
  }

  lemma {:induction false} FlattenLines(raw: Bytes)
    ensures Flatten(Lines(raw)) == raw
  {
    if raw != "" {
      var n := LineLength(raw);
      FlattenLines(raw[n..]);
      assert Lines(raw)[1..] == Lines(raw[n..]);
      assert raw == raw[..n] + raw[n..];
    }
  }

  /** Lines of a concatenation, when the left part ends its last line. */
  lemma {:induction false} LinesAppend(a: Bytes, b: Bytes)
    requires EndsLine(a)
    ensures Lines(a + b) == Lines(a) + Lines(b)
    decreases |a|
  {
    if a == "" {
      assert a + b == b;
    } else {
      var line, rest := HeadLine(a);
      LinesAppend(rest, b);
      var u, v := Lines(rest), Lines(b);
      Associates(line, rest, b);
      Associates([line], u, v);
      calc {
        Lines(a + b);
        Lines(line + (rest + b));
        { LinesCons(line, rest + b); }
        [line] + (u + v);
        [line] + u + v;
        { LinesCons(line, rest); }
        Lines(a) + v;
      }
    }
  }

  lemma HeadLine(a: Bytes) returns (line: Bytes, rest: Bytes)
    requires a != "" && EndsLine(a)
    ensures a == line + rest && EndsLine(rest)
    ensures line != "" && line[|line| - 1] == '\n' && forall i :: 0 <= i < |line| - 1 ==> line[i] != '\n'
  {
    var n := LineLength(a);
    line, rest := a[..n], a[n..];
  }

  lemma LinesCons(line: Bytes, rest: Bytes)
    requires line != "" && line[|line| - 1] == '\n' && forall i :: 0 <= i < |line| - 1 ==> line[i] != '\n'
    ensures Lines(line + rest) == [line] + Lines(rest)
  {
    var n := LineLength(line + rest);
    assert forall i :: 0 <= i < |line| ==> (line + rest)[i] == line[i];
    assert n == |line|;
    assert (line + rest)[..n] == line && (line + rest)[n..] == rest;
  }

  // ---------------------------------------------------------------- splitting

  predicate StartsSection(line: Bytes) {
    HasPrefix(line, SECTION_MARKER)
  }

  predicate IsCombined(line: Bytes) {
    HasPrefix(line, COMBINED_MARKER)
  }

  /** A section starts where git says so, and content cannot forge one: the lines of a hunk
      begin with a blank, a plus, a minus, an at sign or a backslash. */
  lemma ContentStartsNothing(c: char, rest: Bytes)
    ensures StartsSection("diff --git " + rest) && !IsCombined("diff --git " + rest)
    ensures IsCombined("diff --cc " + rest)
    ensures c != 'd' ==> !StartsSection([c] + rest) && !IsCombined([c] + rest)
  {
    assert SECTION_MARKER[0] == 'd' && ("diff --git " + rest)[5] == '-' && ("diff --git " + rest)[7] == 'g';
    MarkersDiffer("diff --git " + rest);
  }

  datatype Split = Split(preamble: Bytes, sections: seq<Bytes>)

  /** Lines grouped by the section header that precedes them. */
  ghost function Group(lines: seq<Bytes>): Split {
    if lines == [] then Split("", [])
    else
      var rest := Group(lines[1..]);
      if StartsSection(lines[0]) then Split("", [lines[0] + rest.preamble] + rest.sections)
      else Split(lines[0] + rest.preamble, rest.sections)
  }

  ghost predicate AnyCombined(lines: seq<Bytes>) {
    exists i :: 0 <= i < |lines| && IsCombined(lines[i])
  }

  ghost function SplitOf(raw: Bytes): Split {
    Group(Lines(raw))
  }

  /** Splitting tiles the input: nothing lost, nothing moved. */
  lemma {:induction false} GroupTiles(lines: seq<Bytes>)
    ensures Group(lines).preamble + Flatten(Group(lines).sections) == Flatten(lines)
  {
    if lines != [] {
      GroupTiles(lines[1..]);
      var rest := Group(lines[1..]);
      if StartsSection(lines[0]) {
        var s := lines[0] + rest.preamble;
        assert ([s] + rest.sections)[1..] == rest.sections;
        assert s + Flatten(rest.sections) == lines[0] + (rest.preamble + Flatten(rest.sections));
      } else {
        assert lines[0] + rest.preamble + Flatten(rest.sections) == lines[0] + (rest.preamble + Flatten(rest.sections));
      }
    }
  }

  ghost function Headers(lines: seq<Bytes>): nat {
    if lines == [] then 0 else (if StartsSection(lines[0]) then 1 else 0) + Headers(lines[1..])
  }

  /** The input again, with as many sections as it has header lines. */
  lemma SplitTiles(raw: Bytes)
    ensures SplitOf(raw).preamble + Flatten(SplitOf(raw).sections) == raw
    ensures |SplitOf(raw).sections| == Headers(Lines(raw))
  {
    GroupTiles(Lines(raw));
    FlattenLines(raw);
    SectionsAreHeaders(Lines(raw));
  }

  lemma {:induction false} SectionsAreHeaders(lines: seq<Bytes>)
    ensures |Group(lines).sections| == Headers(lines)
  {
    if lines != [] {
      SectionsAreHeaders(lines[1..]);
    }
  }

  // ---------------------------------------------------------------- what a section is made of

  /** Lines none of which starts a section. */
  ghost predicate Plain(lines: seq<Bytes>) {
    forall i :: 0 <= i < |lines| ==> !StartsSection(lines[i])
  }

  /** A header line, then plain lines. */
  ghost predicate SectionLines(lines: seq<Bytes>) {
    lines != [] && StartsSection(lines[0]) && Plain(lines[1..])
  }

  ghost predicate IsSection(s: Bytes) {
    SectionLines(Lines(s))
  }

  lemma {:induction false} GroupPlain(lines: seq<Bytes>, rest: seq<Bytes>)
    requires Plain(lines)
    ensures Group(lines + rest) == Split(Flatten(lines) + Group(rest).preamble, Group(rest).sections)
  {
    if lines == [] {
      assert lines + rest == rest;
    } else {
      assert !StartsSection(lines[0]);
      assert (lines + rest)[1..] == lines[1..] + rest;
      GroupPlain(lines[1..], rest);
      Associates(lines[0], Flatten(lines[1..]), Group(rest).preamble);
    }
  }

  lemma GroupSection(lines: seq<Bytes>, rest: seq<Bytes>)
    requires SectionLines(lines)
    ensures Group(lines + rest) == Split("", [Flatten(lines) + Group(rest).preamble] + Group(rest).sections)
  {
    GroupPlain(lines[1..], rest);
    assert (lines + rest)[1..] == lines[1..] + rest && (lines + rest)[0] == lines[0];
    Associates(lines[0], Flatten(lines[1..]), Group(rest).preamble);
  }

  /** Sections that can stand one after another: all but the last end their line. */
  ghost predicate Chainable(sections: seq<Bytes>) {
    && (forall i :: 0 <= i < |sections| ==> IsSection(sections[i]))
    && (forall i :: 0 <= i < |sections| - 1 ==> EndsLine(sections[i]))
  }

  lemma SplitSection(s: Bytes, tail: Bytes)
    requires IsSection(s) && (tail == "" || EndsLine(s))
    ensures SplitOf(s + tail) == Split("", [s + SplitOf(tail).preamble] + SplitOf(tail).sections)
  {
    if tail == "" {
      assert s + tail == s && Lines(s) + Lines(tail) == Lines(s);
    } else {
      LinesAppend(s, tail);
    }
    GroupSection(Lines(s), Lines(tail));
    FlattenLines(s);
  }

  lemma ChainableRest(sections: seq<Bytes>)
    requires Chainable(sections) && sections != []
    ensures Chainable(sections[1..]) && IsSection(sections[0])
    ensures sections[1..] == [] || EndsLine(sections[0])
  {
    var rest := sections[1..];
    assert forall i :: 0 <= i < |rest| ==> rest[i] == sections[i + 1];
  }

  /** Concatenated sections split back into themselves. */
  lemma {:induction false} SectionsSplitBack(sections: seq<Bytes>)
    requires Chainable(sections)
    ensures SplitOf(Flatten(sections)) == Split("", sections)
  {
    if sections != [] {
      var s, rest := sections[0], sections[1..];
      ChainableRest(sections);
      SectionsSplitBack(rest);
      SplitSection(s, Flatten(rest));
      assert s + "" == s;
      assert [s] + rest == sections;
    }
  }

  /** A preamble of whole plain lines in front changes nothing about the sections. */
  lemma PreambleSplitsBack(preamble: Bytes, sections: seq<Bytes>)
    requires Plain(Lines(preamble)) && EndsLine(preamble) && Chainable(sections)
    ensures SplitOf(preamble + Flatten(sections)) == Split(preamble, sections)
  {
    LinesAppend(preamble, Flatten(sections));
    SectionsSplitBack(sections);
    GroupPlain(Lines(preamble), Lines(Flatten(sections)));
    FlattenLines(preamble);
  }

  // What a split produces is of that shape.

  ghost predicate IsLine(l: Bytes) {
    l != "" && forall k :: 0 <= k < |l| - 1 ==> l[k] != '\n'
  }

  /** Lines as Lines yields them: each ends in its only newline, but for the last. */
  ghost predicate WellFormed(lines: seq<Bytes>) {
    && (forall i :: 0 <= i < |lines| ==> IsLine(lines[i]))
    && (forall i :: 0 <= i < |lines| - 1 ==> EndsLine(lines[i]))
  }

  lemma {:induction false} LinesAreWellFormed(raw: Bytes)
    ensures WellFormed(Lines(raw))
  {
    if raw != "" {
      var n := LineLength(raw);
      LinesAreWellFormed(raw[n..]);
      var lines, rest := Lines(raw), Lines(raw[n..]);
      assert IsLine(lines[0]);
      assert n == |raw| ==> rest == [];
      assert forall i :: 1 <= i < |lines| ==> lines[i] == rest[i - 1];
    }
  }

  lemma WellFormedRest(lines: seq<Bytes>)
    requires WellFormed(lines) && lines != []
    ensures WellFormed(lines[1..]) && IsLine(lines[0]) && (lines[1..] == [] || EndsLine(lines[0]))
  {
    assert forall i :: 0 <= i < |lines[1..]| ==> lines[1..][i] == lines[i + 1];
  }

  /** A line in front of text is a line of its own. */
  lemma LineInFront(l: Bytes, tail: Bytes)
    requires IsLine(l) && (tail == "" || EndsLine(l))
    ensures Lines(l + tail) == [l] + Lines(tail)
  {
    assert LineLength(l) == |l|;
    assert l[..|l|] == l && l[|l|..] == "";
    if tail == "" {
      assert l + tail == l;
    } else {
      LinesAppend(l, tail);
    }
  }

  /** What a split yields: whole plain lines before the first header, and sections
      that can stand one after another. */
  ghost predicate GoodSplit(s: Split) {
    && Plain(Lines(s.preamble))
    && (s.sections != [] ==> EndsLine(s.preamble))
    && Chainable(s.sections)
  }

  lemma {:induction false} GroupIsGood(lines: seq<Bytes>)
    requires WellFormed(lines)
    ensures GoodSplit(Group(lines))
  {
    if lines != [] {
      WellFormedRest(lines);
      GroupIsGood(lines[1..]);
      assert lines[1..] == [] ==> Group(lines[1..]) == Split("", []);
      if StartsSection(lines[0]) {
        HeaderInFront(lines[0], Group(lines[1..]));
      } else {
        PlainInFront(lines[0], Group(lines[1..]));
      }
    }
  }

  lemma HeaderInFront(l: Bytes, rest: Split)
    requires IsLine(l) && StartsSection(l) && GoodSplit(rest) && (rest == Split("", []) || EndsLine(l))
    ensures GoodSplit(Split("", [l + rest.preamble] + rest.sections))
  {
    var s := l + rest.preamble;
    HeaderMakesSection(l, rest.preamble);
    assert rest.sections != [] ==> EndsLine(s);
    ChainableCons(s, rest.sections);
  }

  lemma HeaderMakesSection(l: Bytes, tail: Bytes)
    requires IsLine(l) && StartsSection(l) && Plain(Lines(tail)) && (tail == "" || EndsLine(l))
    ensures IsSection(l + tail)
  {
    LineInFront(l, tail);
    assert ([l] + Lines(tail))[1..] == Lines(tail);
  }

  lemma PlainInFront(l: Bytes, rest: Split)
    requires IsLine(l) && !StartsSection(l) && GoodSplit(rest) && (rest == Split("", []) || EndsLine(l))
    ensures GoodSplit(Split(l + rest.preamble, rest.sections))
  {
    LineInFront(l, rest.preamble);
    PlainCons(l, Lines(rest.preamble));
    if rest.sections != [] {
      EndsLineAppend(l, rest.preamble);
    }
  }

  lemma PlainCons(l: Bytes, lines: seq<Bytes>)
    requires !StartsSection(l) && Plain(lines)
    ensures Plain([l] + lines)
  {
    var all := [l] + lines;
    forall i | 0 <= i < |all| ensures !StartsSection(all[i]) {
      if i > 0 { assert all[i] == lines[i - 1]; }
    }
  }

  lemma EndsLineAppend(a: Bytes, b: Bytes)
    requires EndsLine(b) && (b == "" ==> EndsLine(a))
    ensures EndsLine(a + b)
  {
  }

  lemma ChainableCons(s: Bytes, sections: seq<Bytes>)
    requires IsSection(s) && Chainable(sections) && (sections == [] || EndsLine(s))
    ensures Chainable([s] + sections)
  {
    var all := [s] + sections;
    assert forall i :: 1 <= i < |all| ==> all[i] == sections[i - 1];
  }

  lemma SplitIsGood(raw: Bytes)
    ensures GoodSplit(SplitOf(raw))
  {
    LinesAreWellFormed(raw);
    GroupIsGood(Lines(raw));
  }

  // ---------------------------------------------------------------- parsing and rendering

  ghost function ChangesOf(parse: SectionParser, sections: seq<Bytes>, from: nat): seq<Change>
    requires forall s :: s in sections ==> parse(s).Some?
  {
    if sections == [] then []
    else [Change(from, parse(sections[0]).value, sections[0])] + ChangesOf(parse, sections[1..], from + 1)
  }

  /** The first section the parser refuses. */
  ghost function FirstBad(parse: SectionParser, sections: seq<Bytes>): (r: Option<nat>)
    ensures r.None? <==> forall s :: s in sections ==> parse(s).Some?
  {
    if sections == [] then None
    else if parse(sections[0]).None? then Some(0)
    else
      match FirstBad(parse, sections[1..])
      case None => None
      case Some(i) => Some(i + 1)
  }

  ghost function ParseOf(parse: SectionParser, raw: Bytes): Result<PatchSet, Error> {
    var split := SplitOf(raw);
    if AnyCombined(Lines(raw)) then Failure(CombinedDiff)
    else if split.sections == [] then Failure(Empty)
    else
      match FirstBad(parse, split.sections)
      case Some(i) => Failure(BadSection(i))
      case None => Success(PatchSet(split.preamble, ChangesOf(parse, split.sections, 0)))
  }

  function Raws(changes: seq<Change>): seq<Bytes> {
    if changes == [] then [] else [changes[0].raw] + Raws(changes[1..])
  }

  /** Render: the preamble and the kept sections, or nothing when none is kept. */
  function RenderOf(set_: PatchSet, keep: Change -> bool): Bytes {
    var kept := Kept(set_.changes, keep);
    if kept == [] then "" else set_.preamble + Flatten(Raws(kept))
  }

  lemma {:induction false} RawsOfChanges(parse: SectionParser, sections: seq<Bytes>, from: nat)
    requires forall s :: s in sections ==> parse(s).Some?
    ensures Raws(ChangesOf(parse, sections, from)) == sections
    ensures |ChangesOf(parse, sections, from)| == |sections|
    ensures forall i :: 0 <= i < |sections| ==>
      ChangesOf(parse, sections, from)[i] == Change(from + i, parse(sections[i]).value, sections[i])
  {
    if sections != [] {
      RawsOfChanges(parse, sections[1..], from + 1);
    }
  }

  /** Rendering everything returns the input, byte for byte. */
  lemma RenderAll(parse: SectionParser, raw: Bytes, keep: Change -> bool)
    requires ParseOf(parse, raw).Success?
    requires forall c :: c in ParseOf(parse, raw).value.changes ==> keep(c)
    ensures RenderOf(ParseOf(parse, raw).value, keep) == raw
  {
    var set_ := ParseOf(parse, raw).value;
    var sections := SplitOf(raw).sections;
    RawsOfChanges(parse, sections, 0);
    KeptAll(set_.changes, keep);
    SplitTiles(raw);
  }

  lemma {:induction false} KeptIsChainable(changes: seq<Change>, keep: Change -> bool)
    requires Chainable(Raws(changes))
    ensures Chainable(Raws(Kept(changes, keep)))
    ensures Raws(Kept(changes, keep)) != [] ==> Raws(changes) != []
  {
    if changes != [] {
      var c, rest := changes[0], changes[1..];
      assert Raws(changes)[1..] == Raws(rest);
      ChainableRest(Raws(changes));
      KeptIsChainable(rest, keep);
      var kept := Kept(rest, keep);
      if keep(c) {
        ChainableCons(c.raw, Raws(kept));
        assert ([c] + kept)[1..] == kept;
      } else {
        assert [] + kept == kept;
      }
    }
  }

  ghost predicate AllLines(sections: seq<Bytes>, line: Bytes) {
    exists i :: 0 <= i < |sections| && line in Lines(sections[i])
  }

  /** The lines of concatenated sections are the lines of the sections. */
  lemma {:induction false} LinesOfSections(sections: seq<Bytes>, line: Bytes)
    requires Chainable(sections)
    ensures line in Lines(Flatten(sections)) <==> AllLines(sections, line)
  {
    if sections != [] {
      var s, rest := sections[0], sections[1..];
      ChainableRest(sections);
      LinesOfSections(rest, line);
      if rest == [] {
        assert Flatten(sections) == s;
      } else {
        LinesAppend(s, Flatten(rest));
      }
      assert line in Lines(Flatten(sections)) <==> line in Lines(s) || line in Lines(Flatten(rest));
      if AllLines(rest, line) {
        var i :| 0 <= i < |rest| && line in Lines(rest[i]);
        assert line in Lines(sections[i + 1]);
      }
      if AllLines(sections, line) && line !in Lines(s) {
        var i :| 0 <= i < |sections| && line in Lines(sections[i]);
        assert line in Lines(rest[i - 1]);
      }
    }
  }

  lemma {:induction false} KeptAreChanges(changes: seq<Change>, keep: Change -> bool)
    ensures forall c :: c in Kept(changes, keep) <==> c in changes && keep(c)
    ensures forall r :: r in Raws(Kept(changes, keep)) ==> r in Raws(changes)
  {
    if changes != [] {
      var c, kept := changes[0], Kept(changes[1..], keep);
      KeptAreChanges(changes[1..], keep);
      assert changes == [c] + changes[1..];
      assert ([c] + kept)[1..] == kept && [] + kept == kept;
    }
  }

  /** No combined-diff line appears that was not there. */
  lemma RenderAddsNoLine(preamble: Bytes, changes: seq<Change>, keep: Change -> bool, line: Bytes)
    requires EndsLine(preamble) && Chainable(Raws(changes))
    requires line in Lines(preamble + Flatten(Raws(Kept(changes, keep))))
    ensures line in Lines(preamble + Flatten(Raws(changes)))
  {
    var all, some := Raws(changes), Raws(Kept(changes, keep));
    KeptIsChainable(changes, keep);
    KeptAreChanges(changes, keep);
    LinesAppend(preamble, Flatten(all));
    LinesAppend(preamble, Flatten(some));
    LinesOfSections(all, line);
    LinesOfSections(some, line);
    if AllLines(some, line) {
      var i :| 0 <= i < |some| && line in Lines(some[i]);
      assert some[i] in all;
      var j :| 0 <= j < |all| && all[j] == some[i];
    }
  }

  /** Re-splitting a render that kept something returns the same preamble and exactly
      the kept sections; re-parsing it yields the same changes, renumbered. */
  lemma RenderReparses(parse: SectionParser, raw: Bytes, keep: Change -> bool)
    requires ParseOf(parse, raw).Success?
    requires Kept(ParseOf(parse, raw).value.changes, keep) != []
    ensures var set_ := ParseOf(parse, raw).value;
      var kept := Raws(Kept(set_.changes, keep));
      && SplitOf(RenderOf(set_, keep)) == Split(set_.preamble, kept)
      && (forall s :: s in kept ==> parse(s).Some?)
      && ParseOf(parse, RenderOf(set_, keep)) == Success(PatchSet(set_.preamble, ChangesOf(parse, kept, 0)))
  {
    var set_, split := ParseOf(parse, raw).value, SplitOf(raw);
    var kept := Raws(Kept(set_.changes, keep));
    SplitIsGood(raw);
    RawsOfChanges(parse, split.sections, 0);
    KeptIsChainable(set_.changes, keep);
    KeptAreChanges(set_.changes, keep);
    PreambleSplitsBack(set_.preamble, kept);
    var out := RenderOf(set_, keep);
    SplitTiles(raw);
    if AnyCombined(Lines(out)) {
      var i :| 0 <= i < |Lines(out)| && IsCombined(Lines(out)[i]);
      RenderAddsNoLine(set_.preamble, set_.changes, keep, Lines(out)[i]);
    }
  }

  // ---------------------------------------------------------------- the code

  datatype Bound = Bound(start: nat, end: nat)

  lemma {:induction false} GroupSnoc(lines: seq<Bytes>, l: Bytes)
    ensures var g, g' := Group(lines), Group(lines + [l]);
      if StartsSection(l) then g' == Split(g.preamble, g.sections + [l])
      else if g.sections == [] then g' == Split(g.preamble + l, [])
      else g' == Split(g.preamble, g.sections[..|g.sections| - 1] + [g.sections[|g.sections| - 1] + l])
  {
    if lines == [] {
      assert lines + [l] == [l] && [l][1..] == [];
      assert l + "" == l && "" + l == l;
    } else {
      assert (lines + [l])[1..] == lines[1..] + [l];
      GroupSnoc(lines[1..], l);
      SnocUnderFront(lines[0], Group(lines[1..]), Group(lines[1..] + [l]), l);
    }
  }

  /** One more line in front of a split leaves the change at its end as it is. */
  lemma SnocUnderFront(front: Bytes, g: Split, g': Split, l: Bytes)
    requires if StartsSection(l) then g' == Split(g.preamble, g.sections + [l])
      else if g.sections == [] then g' == Split(g.preamble + l, [])
      else g' == Split(g.preamble, g.sections[..|g.sections| - 1] + [g.sections[|g.sections| - 1] + l])
    ensures var h := if StartsSection(front) then Split("", [front + g.preamble] + g.sections) else Split(front + g.preamble, g.sections);
      var h' := if StartsSection(front) then Split("", [front + g'.preamble] + g'.sections) else Split(front + g'.preamble, g'.sections);
      if StartsSection(l) then h' == Split(h.preamble, h.sections + [l])
      else if h.sections == [] then h' == Split(h.preamble + l, [])
      else h' == Split(h.preamble, h.sections[..|h.sections| - 1] + [h.sections[|h.sections| - 1] + l])
  {
    assert front + (g.preamble + l) == front + g.preamble + l;
    if StartsSection(front) && !StartsSection(l) {
      var all := [front + g.preamble] + g.sections;
      if g.sections != [] {
        assert all[..|all| - 1] == [front + g.preamble] + g.sections[..|g.sections| - 1];
      }
    }
  }

  function Stop(bounds: seq<Bound>, i: int, offset: nat): int
    requires 0 <= i < |bounds|
  {
    if i < |bounds| - 1 then bounds[i].end else offset
  }

  /** The bounds cut the first `offset` bytes into this split. */
  ghost predicate Cuts(raw: Bytes, bounds: seq<Bound>, offset: nat, split: Split) {
    && offset <= |raw| && |bounds| == |split.sections|
    && (if bounds == [] then split.preamble == raw[..offset]
        else bounds[0].start <= offset && split.preamble == raw[..bounds[0].start] && bounds[|bounds| - 1].end == |raw|)
    && forall i :: 0 <= i < |bounds| ==>
         bounds[i].start <= Stop(bounds, i, offset) <= offset && split.sections[i] == raw[bounds[i].start..Stop(bounds, i, offset)]
  }

  lemma CutHeader(raw: Bytes, bounds: seq<Bound>, offset: nat, next: nat, split: Split)
    requires Cuts(raw, bounds, offset, split) && offset <= next <= |raw|
    ensures var closed := if bounds == [] then [] else bounds[|bounds| - 1 := bounds[|bounds| - 1].(end := offset)];
      Cuts(raw, closed + [Bound(offset, |raw|)], next, Split(split.preamble, split.sections + [raw[offset..next]]))
  {
    var closed := if bounds == [] then [] else bounds[|bounds| - 1 := bounds[|bounds| - 1].(end := offset)];
    var after := closed + [Bound(offset, |raw|)];
    forall i | 0 <= i < |after|
      ensures after[i].start <= Stop(after, i, next) <= next
      ensures (split.sections + [raw[offset..next]])[i] == raw[after[i].start..Stop(after, i, next)]
    {
      if i < |bounds| { assert Stop(after, i, next) == Stop(bounds, i, offset); }
    }
  }

  lemma CutPlain(raw: Bytes, bounds: seq<Bound>, offset: nat, next: nat, split: Split)
    requires Cuts(raw, bounds, offset, split) && offset <= next <= |raw|
    ensures var l := raw[offset..next];
      Cuts(raw, bounds, next,
        if split.sections == [] then Split(split.preamble + l, [])
        else Split(split.preamble, split.sections[..|split.sections| - 1] + [split.sections[|split.sections| - 1] + l]))
  {
    var l := raw[offset..next];
    if bounds == [] {
      assert raw[..offset] + l == raw[..next];
    } else {
      var n := |bounds| - 1;
      assert Stop(bounds, n, offset) == offset;
      assert raw[bounds[n].start..offset] + l == raw[bounds[n].start..next];
      assert forall i :: 0 <= i < n ==> Stop(bounds, i, next) == Stop(bounds, i, offset);
    }
  }

  lemma Slices(raw: Bytes, offset: nat, n: nat)
    requires offset + n <= |raw|
    ensures raw[offset..offset + n] == raw[offset..][..n] && raw[offset + n..] == raw[offset..][n..]
  {
  }

  lemma FirstLine(raw: Bytes, offset: nat, next: nat)
    requires offset < |raw| && next == offset + LineLength(raw[offset..])
    ensures var todo := Lines(raw[offset..]);
      todo != [] && todo[0] == raw[offset..next] && todo[1..] == Lines(raw[next..])
  {
    Slices(raw, offset, LineLength(raw[offset..]));
    LinesUnfold(raw[offset..], raw[offset..next], raw[next..]);
  }

  lemma LinesUnfold(a: Bytes, line: Bytes, rest: Bytes)
    requires a != "" && line == a[..LineLength(a)] && rest == a[LineLength(a)..]
    ensures Lines(a) != [] && Lines(a)[0] == line && Lines(a)[1..] == Lines(rest)
  {
    assert ([line] + Lines(rest))[1..] == Lines(rest);
  }

  lemma Shift(done: seq<Bytes>, todo: seq<Bytes>)
    requires todo != []
    ensures done + todo == done + [todo[0]] + todo[1..] && (done + todo)[|done|] == todo[0]
  {
  }

  /** What a header line does to the bounds. */
  function Opened(bounds: seq<Bound>, offset: nat, size: nat): seq<Bound> {
    (if bounds == [] then [] else bounds[|bounds| - 1 := bounds[|bounds| - 1].(end := offset)]) + [Bound(offset, size)]
  }

  lemma CutLine(raw: Bytes, bounds: seq<Bound>, offset: nat, next: nat, done: seq<Bytes>)
    requires Cuts(raw, bounds, offset, Group(done)) && offset <= next <= |raw|
    ensures var line := raw[offset..next];
      Cuts(raw, if StartsSection(line) then Opened(bounds, offset, |raw|) else bounds, next, Group(done + [line]))
  {
    GroupSnoc(done, raw[offset..next]);
    if StartsSection(raw[offset..next]) {
      CutHeader(raw, bounds, offset, next, Group(done));
    } else {
      CutPlain(raw, bounds, offset, next, Group(done));
    }
  }

  /** splitSections: one pass over the lines, closing each section where the next begins. */
  method SplitSections(raw: Bytes) returns (r: Result<seq<Bound>, Error>)
    ensures r.Failure? <==> AnyCombined(Lines(raw))
    ensures r.Failure? ==> r.error == CombinedDiff
    ensures r.Success? ==> Cuts(raw, r.value, |raw|, SplitOf(raw))
  {
    var bounds: seq<Bound> := [];
    var offset := 0;
    ghost var lines := Lines(raw);
    ghost var done: seq<Bytes>, todo := [], lines;
    assert raw[0..] == raw;
    while offset < |raw|
      invariant 0 <= offset <= |raw|
      invariant lines == done + todo && todo == Lines(raw[offset..])
      invariant !AnyCombined(done)
      invariant Cuts(raw, bounds, offset, Group(done))
    {
      var lineEnd := offset + LineLength(raw[offset..]);
      var line := raw[offset..lineEnd];
      FirstLine(raw, offset, lineEnd);
      Shift(done, todo);
      CutLine(raw, bounds, offset, lineEnd, done);
      if HasPrefix(line, SECTION_MARKER) {
        MarkersDiffer(line);
        if |bounds| > 0 {
          bounds := bounds[|bounds| - 1 := bounds[|bounds| - 1].(end := offset)];
        }
        bounds := bounds + [Bound(offset, |raw|)];
      } else if HasPrefix(line, COMBINED_MARKER) {
        assert IsCombined(lines[|done|]);
        return Failure(CombinedDiff);
      }
      NoneCombined(done, line);
      done, todo := done + [line], todo[1..];
      offset := lineEnd;
    }
    assert raw[|raw|..] == "" && done + [] == done;
    r := Success(bounds);
  }

  lemma MarkersDiffer(line: Bytes)
    requires HasPrefix(line, SECTION_MARKER)
    ensures !HasPrefix(line, COMBINED_MARKER)
  {
    assert SECTION_MARKER[7] == 'g' && COMBINED_MARKER[7] == 'c';
  }

  lemma NoneCombined(lines: seq<Bytes>, line: Bytes)
    requires !AnyCombined(lines) && !IsCombined(line)
    ensures !AnyCombined(lines + [line])
  {
  }

  /** Parse: the preamble, and one parsed change per section, in order. */
  method Parse(parse: SectionParser, raw: Bytes) returns (r: Result<PatchSet, Error>)
    ensures r == ParseOf(parse, raw)
  {
    var b := SplitSections(raw);
    if b.Failure? {
      return Failure(CombinedDiff);
    }
    var bounds := b.value;
    if |bounds| == 0 {
      return Failure(Empty);
    }
    ghost var sections := SplitOf(raw).sections;
    var changes: seq<Change> := [];
    for i := 0 to |bounds|
      invariant forall s :: s in sections[..i] ==> parse(s).Some?
      invariant changes == ChangesOf(parse, sections[..i], 0)
    {
      var section := raw[bounds[i].start..if i < |bounds| - 1 then bounds[i].end else |raw|];
      assert section == sections[i];
      var meta := parse(section);
      if meta.None? {
        FirstBadAt(parse, sections, i);
        return Failure(BadSection(i));
      }
      ChangesSnoc(parse, sections[..i], section, 0);
      assert sections[..i + 1] == sections[..i] + [section];
      changes := changes + [Change(i, meta.value, section)];
    }
    assert sections[..|bounds|] == sections;
    r := Success(PatchSet(raw[..bounds[0].start], changes));
  }

  lemma {:induction false} FirstBadAt(parse: SectionParser, sections: seq<Bytes>, i: nat)
    requires i < |sections| && parse(sections[i]).None? && forall s :: s in sections[..i] ==> parse(s).Some?
    ensures FirstBad(parse, sections) == Some(i)
  {
    if i > 0 {
      assert sections[..i][0] == sections[0];
      forall s | s in sections[1..][..i - 1] ensures parse(s).Some? {
        assert sections[1..][..i - 1] == sections[..i][1..];
      }
      FirstBadAt(parse, sections[1..], i - 1);
    }
  }

  lemma {:induction false} ChangesSnoc(parse: SectionParser, sections: seq<Bytes>, s: Bytes, from: nat)
    requires parse(s).Some? && forall x :: x in sections ==> parse(x).Some?
    ensures forall x :: x in sections + [s] ==> parse(x).Some?
    ensures ChangesOf(parse, sections + [s], from) ==
      ChangesOf(parse, sections, from) + [Change(from + |sections|, parse(s).value, s)]
  {
    if sections == [] {
      assert sections + [s] == [s] && [s][1..] == [];
    } else {
      assert (sections + [s])[1..] == sections[1..] + [s];
      ChangesSnoc(parse, sections[1..], s, from + 1);
    }
  }

  /** Render: appends the kept sections to the preamble. */
  method Render(set_: PatchSet, keep: Change -> bool) returns (out: Bytes)
    ensures out == RenderOf(set_, keep)
  {
    var kept := Select(set_.changes, keep);
    if |kept| == 0 {
      return "";
    }
    out := Concat(set_.preamble, kept);
  }

  method Select(changes: seq<Change>, keep: Change -> bool) returns (kept: seq<Change>)
    ensures kept == Kept(changes, keep)
  {
    kept := [];
    for i := 0 to |changes|
      invariant kept == Kept(changes[..i], keep)
    {
      KeptSnoc(changes[..i], changes[i], keep);
      assert changes[..i + 1] == changes[..i] + [changes[i]];
      if keep(changes[i]) {
        kept := kept + [changes[i]];
      }
    }
    assert changes[..|changes|] == changes;
  }

  method Concat(preamble: Bytes, kept: seq<Change>) returns (out: Bytes)
    ensures out == preamble + Flatten(Raws(kept))
  {
    out := preamble;
    for i := 0 to |kept|
      invariant out == preamble + Flatten(Raws(kept[..i]))
    {
      RawsSnoc(kept[..i], kept[i]);
      assert kept[..i + 1] == kept[..i] + [kept[i]];
      out := out + kept[i].raw;
    }
    assert kept[..|kept|] == kept;
  }

  lemma {:induction false} RawsSnoc(kept: seq<Change>, c: Change)
    ensures Flatten(Raws(kept + [c])) == Flatten(Raws(kept)) + c.raw
  {
    if kept == [] {
      assert kept + [c] == [c] && [c][1..] == [];
    } else {
      assert (kept + [c])[1..] == kept[1..] + [c];
      RawsSnoc(kept[1..], c);
      assert Raws(kept + [c])[1..] == Raws(kept[1..] + [c]);
    }
  }
}
