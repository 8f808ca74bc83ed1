/** Lossless Markdown sections: topics are kept whole while they fit, long ones are divided at their
    headings, and long text without headings at blank lines. */
module MarkdownSections {
  /** A heading found at a line; one line can be recorded twice. */
  datatype Heading = Heading(pos: nat, level: nat, title: string)

  datatype Section = Section(startLine: nat, endLine: nat, heading: string, content: string)

  /** The scanned document: headings in line order, and the one-based lines after which text may be cut. */
  datatype Document = Document(lines: seq<string>, headings: seq<Heading>, breaks: set<nat>, maxChars: nat)

  const MAX_LEVEL := 6

  /** What Python's `str.strip` removes. */
  predicate Space(c: char) {
    c as int in {9, 10, 11, 12, 13, 28, 29, 30, 31, 32, 0x85, 0xA0, 0x1680, 0x2028, 0x2029, 0x202F, 0x205F, 0x3000}
    || 0x2000 <= c as int <= 0x200A
  }

  predicate Blank(line: string) {
    forall i :: 0 <= i < |line| ==> Space(line[i])
  }

  function Strip(line: string): (text: string)
    ensures text == "" <==> Blank(line)
    ensures text != "" ==> !Space(text[0]) && !Space(text[|text| - 1])
    decreases |line|
  {
    if line == "" then ""
    else if Space(line[0]) then
      assert Blank(line) <==> Blank(line[1..]) by {
        assert forall i :: 0 < i < |line| ==> line[i] == line[1..][i - 1];
      }
      Strip(line[1..])
    else if Space(line[|line| - 1]) then Strip(line[..|line| - 1])
    else line
  }

  predicate Scanned(doc: Document) {
    && (forall i, j :: 0 <= i < j < |doc.headings| ==> doc.headings[i].pos <= doc.headings[j].pos)
    && (forall i :: 0 <= i < |doc.headings| ==> 1 <= doc.headings[i].level <= MAX_LEVEL)
  }

  function Size(lines: seq<string>, start: nat, end: nat): nat
    requires start <= end <= |lines|
  {
    if start == end then 0 else Size(lines, start, end - 1) + |lines[end - 1]| + 1
  }

  predicate AllBlank(lines: seq<string>, start: nat, end: nat)
    requires start <= end <= |lines|
  {
    forall i :: start <= i < end ==> Blank(lines[i])
  }

  function JoinLines(lines: seq<string>): string {
    if lines == [] then "" else if |lines| == 1 then lines[0] else lines[0] + "\n" + JoinLines(lines[1..])
  }

  function Trail(path: seq<Heading>): string {
    if path == [] then "" else if |path| == 1 then path[0].title else path[0].title + " > " + Trail(path[1..])
  }

  /** Joined lines are told by their last one, and are as long as the lines with a newline each, but for the last. */
  lemma {:induction false} JoinedLines(lines: seq<string>)
    requires lines != []
    ensures var n := |lines| - 1;
            JoinLines(lines) == if n == 0 then lines[0] else JoinLines(lines[..n]) + "\n" + lines[n]
    ensures |JoinLines(lines)| + 1 == Size(lines, 0, |lines|)
  {
    var n := |lines| - 1;
    if n > 0 {
      JoinedLines(lines[1..]);
      JoinedLines(lines[..n]);
      assert lines[1..][..n - 1] == lines[..n][1..];
      SizeWithout(lines, n);
    }
  }

  lemma {:induction false} SizeWithout(lines: seq<string>, n: nat)
    requires n <= |lines|
    ensures Size(lines[..n], 0, n) == Size(lines, 0, n)
  {
    SamePrefixSize(lines[..n], lines, n);
  }

  lemma {:induction false} SamePrefixSize(a: seq<string>, b: seq<string>, n: nat)
    requires n <= |a| && n <= |b| && a[..n] == b[..n]
    ensures Size(a, 0, n) == Size(b, 0, n)
  {
    if n > 0 {
      assert a[..n - 1] == a[..n][..n - 1] && b[..n - 1] == b[..n][..n - 1];
      assert a[n - 1] == a[..n][n - 1] && b[n - 1] == b[..n][n - 1];
      SamePrefixSize(a, b, n - 1);
    }
  }

  /** A heading below a path is shown behind it. */
  lemma {:induction false} TrailGrows(path: seq<Heading>, h: Heading)
    ensures Trail(path + [h]) == if path == [] then h.title else Trail(path) + " > " + h.title
  {
    if path != [] {
      TrailGrows(path[1..], h);
      assert (path + [h])[1..] == path[1..] + [h];
    }
  }

  // ----- what the sections of a range of lines are

  ghost predicate IsSection(lines: seq<string>, s: Section) {
    && 1 <= s.startLine <= s.endLine <= |lines|
    && s.content == JoinLines(lines[s.startLine - 1..s.endLine])
    && !AllBlank(lines, s.startLine - 1, s.endLine)
  }

  /** The sections lie in the range one after the other, and every line of it outside them is blank. */
  ghost predicate Covers(lines: seq<string>, sections: seq<Section>, start: nat, end: nat)
    requires start <= end <= |lines|
    decreases |sections|
  {
    if sections == [] then AllBlank(lines, start, end)
    else
      var s := sections[|sections| - 1];
      && IsSection(lines, s) && start <= s.startLine - 1 && s.endLine <= end
      && AllBlank(lines, s.endLine, end)
      && Covers(lines, sections[..|sections| - 1], start, s.startLine - 1)
  }

  lemma {:induction false} CoversJoin(lines: seq<string>, a: seq<Section>, b: seq<Section>, start: nat, mid: nat,
                                      end: nat)
    requires start <= mid <= end <= |lines| && Covers(lines, a, start, mid) && Covers(lines, b, mid, end)
    ensures Covers(lines, a + b, start, end)
    decreases |b|
  {
    if b != [] {
      var s := b[|b| - 1];
      CoversJoin(lines, a, b[..|b| - 1], start, mid, s.startLine - 1);
      assert (a + b)[..|a + b| - 1] == a + b[..|b| - 1];
    } else {
      assert a + b == a;
      BlankTail(lines, a, start, mid, end);
    }
  }

  lemma {:induction false} BlankTail(lines: seq<string>, a: seq<Section>, start: nat, mid: nat, end: nat)
    requires start <= mid <= end <= |lines| && Covers(lines, a, start, mid) && AllBlank(lines, mid, end)
    ensures Covers(lines, a, start, end)
  {
  }

  predicate InSection(s: Section, line: nat) {
    s.startLine <= line + 1 <= s.endLine
  }

  lemma {:induction false} SectionsInRange(lines: seq<string>, sections: seq<Section>, start: nat, end: nat, i: nat)
    requires start <= end <= |lines| && Covers(lines, sections, start, end) && i < |sections|
    ensures IsSection(lines, sections[i]) && start < sections[i].startLine && sections[i].endLine <= end
    decreases |sections|
  {
    var n := |sections| - 1;
    if i < n {
      SectionsInRange(lines, sections[..n], start, sections[n].startLine - 1, i);
    }
  }

  lemma {:induction false} SectionsInOrder(lines: seq<string>, sections: seq<Section>, start: nat, end: nat, i: nat,
                                           j: nat)
    requires start <= end <= |lines| && Covers(lines, sections, start, end) && i < j < |sections|
    ensures sections[i].endLine < sections[j].startLine
    decreases |sections|
  {
    var n := |sections| - 1;
    if j < n {
      SectionsInOrder(lines, sections[..n], start, sections[n].startLine - 1, i, j);
    } else {
      SectionsInRange(lines, sections[..n], start, sections[n].startLine - 1, i);
    }
  }

  lemma {:induction false} LineIsInside(lines: seq<string>, sections: seq<Section>, start: nat, end: nat, k: nat)
    returns (i: nat)
    requires start <= end <= |lines| && Covers(lines, sections, start, end)
    requires start <= k < end && !Blank(lines[k])
    ensures i < |sections| && InSection(sections[i], k)
    decreases |sections|
  {
    var n := |sections| - 1;
    if k < sections[n].startLine - 1 {
      i := LineIsInside(lines, sections[..n], start, sections[n].startLine - 1, k);
    } else {
      i := n;
    }
  }

  /** Sections are in line order without overlap, hold their lines unchanged, and every line that is not
      blank is in exactly one of them. */
  lemma {:induction false} EachLineOnce(lines: seq<string>, sections: seq<Section>, start: nat, end: nat)
    requires start <= end <= |lines| && Covers(lines, sections, start, end)
    ensures forall i, j :: 0 <= i < j < |sections| ==> sections[i].endLine < sections[j].startLine
    ensures forall i :: 0 <= i < |sections| ==>
              IsSection(lines, sections[i]) && start < sections[i].startLine && sections[i].endLine <= end
    ensures forall k :: start <= k < end && !Blank(lines[k]) ==>
              exists i :: 0 <= i < |sections| && InSection(sections[i], k)
  {
    forall i, j | 0 <= i < j < |sections| ensures sections[i].endLine < sections[j].startLine {
      SectionsInOrder(lines, sections, start, end, i, j);
    }
    forall i | 0 <= i < |sections|
      ensures IsSection(lines, sections[i]) && start < sections[i].startLine && sections[i].endLine <= end
    {
      SectionsInRange(lines, sections, start, end, i);
    }
    forall k | start <= k < end && !Blank(lines[k])
      ensures exists i :: 0 <= i < |sections| && InSection(sections[i], k)
    {
      var i := LineIsInside(lines, sections, start, end, k);
    }
  }

  /** The headings named by a section enclose it: each is deeper than the one before, and up to the
      section no heading of its level or above came after it. */
  ghost predicate Open(doc: Document, path: seq<Heading>, start: nat) {
    && (forall i :: 0 <= i < |path| ==> path[i] in doc.headings && path[i].pos <= start)
    && (forall i, j :: 0 <= i < j < |path| ==> path[i].level < path[j].level && path[i].pos <= path[j].pos)
    && forall i, h :: 0 <= i < |path| && h in doc.headings && path[i].pos < h.pos <= start ==> h.level > path[i].level
  }

  ghost predicate TrailOpen(doc: Document, s: Section) {
    s.startLine >= 1 && exists path :: s.heading == Trail(path) && Open(doc, path, s.startLine - 1)
  }

  /** A section within the budget, or one that could not be cut before it reached the budget. */
  predicate Compact(doc: Document, s: Section)
    requires 1 <= s.startLine <= s.endLine <= |doc.lines|
  {
    Size(doc.lines, s.startLine - 1, s.endLine) <= doc.maxChars
    || forall j :: s.startLine <= j < s.endLine && j in doc.breaks ==>
          Size(doc.lines, s.startLine - 1, j) < doc.maxChars
  }

  ghost predicate Placed(doc: Document, sections: seq<Section>) {
    forall i :: 0 <= i < |sections| ==>
          IsSection(doc.lines, sections[i]) && TrailOpen(doc, sections[i]) && Compact(doc, sections[i])
  }

  // ----- choosing headings

  function Inside(headings: seq<Heading>, start: nat, end: nat, level: nat): (r: seq<Heading>)
    ensures forall h :: h in r <==> h in headings && start <= h.pos < end && h.level > level
  {
    if headings == [] then []
    else
      var h := headings[0];
      (if start <= h.pos < end && h.level > level then [h] else []) + Inside(headings[1..], start, end, level)
  }

  function MinLevel(headings: seq<Heading>): (m: nat)
    requires headings != []
    ensures (exists h :: h in headings && h.level == m) && forall h :: h in headings ==> m <= h.level
  {
    if |headings| == 1 then headings[0].level
    else
      var rest := MinLevel(headings[1..]);
      if headings[0].level < rest then headings[0].level else rest
  }

  function AtLevel(headings: seq<Heading>, level: nat): (r: seq<Heading>)
    ensures forall h :: h in r <==> h in headings && h.level == level
  {
    if headings == [] then []
    else (if headings[0].level == level then [headings[0]] else []) + AtLevel(headings[1..], level)
  }

  predicate InOrder(headings: seq<Heading>) {
    forall i, j :: 0 <= i < j < |headings| ==> headings[i].pos <= headings[j].pos
  }

  lemma {:induction false} InsideInOrder(headings: seq<Heading>, start: nat, end: nat, level: nat)
    requires InOrder(headings)
    ensures InOrder(Inside(headings, start, end, level))
  {
    if headings != [] {
      InsideInOrder(headings[1..], start, end, level);
      var rest := Inside(headings[1..], start, end, level);
      forall i | 0 <= i < |rest| ensures headings[0].pos <= rest[i].pos {
        assert rest[i] in headings[1..];
      }
    }
  }

  lemma {:induction false} AtLevelInOrder(headings: seq<Heading>, level: nat)
    requires InOrder(headings)
    ensures InOrder(AtLevel(headings, level))
  {
    if headings != [] {
      AtLevelInOrder(headings[1..], level);
      var rest := AtLevel(headings[1..], level);
      forall i | 0 <= i < |rest| ensures headings[0].pos <= rest[i].pos {
        assert rest[i] in headings[1..];
      }
    }
  }

  // ----- dividing

  /** No heading of this level or above lies strictly inside the range. */
  ghost predicate Clean(doc: Document, start: nat, end: nat, level: nat) {
    forall h :: h in doc.headings && start < h.pos < end ==> h.level > level
  }

  ghost predicate Within(doc: Document, path: seq<Heading>, start: nat, end: nat, level: nat) {
    && Scanned(doc) && start <= end <= |doc.lines| && Clean(doc, start, end, level) && Open(doc, path, start)
    && forall i :: 0 <= i < |path| ==> path[i].level <= level
  }

  /** Inside a clean range the enclosing headings stay open. */
  lemma StillOpen(doc: Document, path: seq<Heading>, start: nat, end: nat, level: nat, at: nat)
    requires Within(doc, path, start, end, level) && start <= at && (at < end || at == start)
    ensures Open(doc, path, at)
  {
  }

  /** The output grew by sections that cover the range and are all well placed. */
  ghost predicate Grown(doc: Document, before: seq<Section>, after: seq<Section>, start: nat, end: nat)
    requires start <= end <= |doc.lines|
  {
    before <= after && Covers(doc.lines, after[|before|..], start, end) && Placed(doc, after)
  }

  lemma NothingGrown(doc: Document, output: seq<Section>, start: nat)
    requires start <= |doc.lines| && Placed(doc, output)
    ensures Grown(doc, output, output, start, start)
  {
  }

  lemma GrownOn(doc: Document, before: seq<Section>, mid: seq<Section>, after: seq<Section>, start: nat, at: nat,
                end: nat)
    requires start <= at <= end <= |doc.lines|
    requires Grown(doc, before, mid, start, at) && Grown(doc, mid, after, at, end)
    ensures Grown(doc, before, after, start, end)
  {
    AddedJoin(before, mid, after);
    CoversJoin(doc.lines, mid[|before|..], after[|mid|..], start, at, end);
  }

  lemma AddedJoin(before: seq<Section>, mid: seq<Section>, after: seq<Section>)
    requires before <= mid <= after
    ensures before <= after && after[|before|..] == mid[|before|..] + after[|mid|..]
  {
  }

  /** Appends the lines as one section, unless all of them are blank. */
  method Emit(doc: Document, output: seq<Section>, start: nat, end: nat, path: seq<Heading>) returns (out: seq<Section>)
    requires start <= end <= |doc.lines| && (start < end ==> Open(doc, path, start))
    requires start < end ==> Compact(doc, Section(start + 1, end, "", ""))
    requires Placed(doc, output)
    ensures Grown(doc, output, out, start, end)
  {
    if start >= end || AllBlank(doc.lines, start, end) {
      return output;
    }
    var s := Section(start + 1, end, Trail(path), JoinLines(doc.lines[start..end]));
    out := output + [s];
    assert out[|output|..] == [s];
    assert Covers(doc.lines, [s][..0], start, start);
  }

  /** Cuts text without headings at the first allowed place after it reached the budget. */
  method CutParagraphs(doc: Document, output: seq<Section>, start: nat, end: nat, path: seq<Heading>, level: nat)
    returns (out: seq<Section>)
    requires Within(doc, path, start, end, level) && Placed(doc, output)
    ensures Grown(doc, output, out, start, end)
  {
    out := output;
    NothingGrown(doc, output, start);
    var cursor, length := start, 0;
    for i := start to end
      invariant start <= cursor <= i && length == Size(doc.lines, cursor, i)
      invariant Grown(doc, output, out, start, cursor)
      invariant forall j :: cursor < j <= i && j in doc.breaks ==> Size(doc.lines, cursor, j) < doc.maxChars
    {
      length := length + |doc.lines[i]| + 1;
      if length >= doc.maxChars && i + 1 in doc.breaks {
        out := EmitNext(doc, output, out, start, cursor, i + 1, end, path, level);
        cursor, length := i + 1, 0;
      }
    }
    out := EmitNext(doc, output, out, start, cursor, end, end, path, level);
  }

  method EmitNext(doc: Document, ghost before: seq<Section>, output: seq<Section>, ghost start: nat, cursor: nat,
                  next: nat,
                  ghost end: nat, path: seq<Heading>, ghost level: nat) returns (out: seq<Section>)
    requires Within(doc, path, start, end, level) && start <= cursor <= next <= end
    requires Grown(doc, before, output, start, cursor)
    requires forall j :: cursor < j < next && j in doc.breaks ==> Size(doc.lines, cursor, j) < doc.maxChars
    ensures Grown(doc, before, out, start, next)
  {
    if cursor < next {
      StillOpen(doc, path, start, end, level, cursor);
    }
    out := Emit(doc, output, cursor, next, path);
    GrownOn(doc, before, output, out, start, cursor, next);
  }

  /** The headings of the smallest level strictly inside a clean range. */
  ghost predicate Children(doc: Document, start: nat, end: nat, level: nat, children: seq<Heading>, minimum: nat) {
    var inside := Inside(doc.headings, start, end, level);
    inside != [] && minimum == MinLevel(inside) && children == AtLevel(inside, minimum)
  }

  lemma ChildrenInOrder(doc: Document, start: nat, end: nat, level: nat, children: seq<Heading>, minimum: nat)
    requires Scanned(doc) && Children(doc, start, end, level, children, minimum)
    ensures InOrder(children) && children != [] && level < minimum <= MAX_LEVEL
    ensures forall i :: 0 <= i < |children| ==>
              children[i] in doc.headings && children[i].level == minimum && start <= children[i].pos < end
  {
    var inside := Inside(doc.headings, start, end, level);
    InsideInOrder(doc.headings, start, end, level);
    AtLevelInOrder(inside, minimum);
    var h :| h in inside && h.level == minimum;
    assert h in children;
    forall i | 0 <= i < |children|
      ensures children[i] in doc.headings && children[i].level == minimum && start <= children[i].pos < end
    {
      assert children[i] in children;
    }
  }

  function StopOf(children: seq<Heading>, index: nat, end: nat): nat
    requires index < |children|
  {
    if index + 1 < |children| then children[index + 1].pos else end
  }

  /** Between one child and the next there are only deeper headings. */
  lemma TopicIsClean(doc: Document, start: nat, end: nat, level: nat, children: seq<Heading>, minimum: nat, index: nat)
    requires Scanned(doc) && Clean(doc, start, end, level) && Children(doc, start, end, level, children, minimum)
    requires index < |children| && InOrder(children) && start <= children[index].pos
             && StopOf(children, index, end) <= end
    ensures Clean(doc, children[index].pos, StopOf(children, index, end), minimum)
  {
    var inside := Inside(doc.headings, start, end, level);
    forall h | h in doc.headings && children[index].pos < h.pos < StopOf(children, index, end)
      ensures h.level > minimum
    {
      assert h in inside;
      NoChildBetween(children, inside, minimum, index, h);
    }
  }

  lemma IntroductionIsClean(doc: Document, start: nat, end: nat, level: nat, children: seq<Heading>, minimum: nat)
    requires Clean(doc, start, end, level) && Children(doc, start, end, level, children, minimum)
    requires children != [] && InOrder(children) && children[0].pos <= end
    ensures Clean(doc, start, children[0].pos, minimum)
  {
    var inside := Inside(doc.headings, start, end, level);
    assert forall k :: 0 <= k < |children| ==> children[0].pos <= children[k].pos;
    forall h | h in doc.headings && start < h.pos < children[0].pos ensures h.level > minimum {
      assert h in inside && h !in children;
    }
  }

  lemma ChildOpens(doc: Document, path: seq<Heading>, start: nat, end: nat, level: nat, child: Heading)
    requires Within(doc, path, start, end, level) && child in doc.headings && start <= child.pos < end
             && child.level > level
    ensures Open(doc, path + [child], child.pos)
  {
    StillOpen(doc, path, start, end, level, child.pos);
  }

  /** The children of a clean range split it into an introduction and clean topics. */
  lemma ChildrenSplit(doc: Document, path: seq<Heading>, start: nat, end: nat, level: nat, children: seq<Heading>,
                      minimum: nat, index: nat)
    requires Within(doc, path, start, end, level) && Children(doc, start, end, level, children, minimum)
             && index < |children|
    ensures children[index].level == minimum && start <= children[index].pos <= StopOf(children, index, end) <= end
    ensures Within(doc, path + [children[index]], children[index].pos, StopOf(children, index, end), minimum)
  {
    ChildrenInOrder(doc, start, end, level, children, minimum);
    TopicIsClean(doc, start, end, level, children, minimum, index);
    ChildOpens(doc, path, start, end, level, children[index]);
  }

  lemma IntroductionSplit(doc: Document, path: seq<Heading>, start: nat, end: nat, level: nat, children: seq<Heading>,
                          minimum: nat)
    requires Within(doc, path, start, end, level) && Children(doc, start, end, level, children, minimum)
    ensures children != [] && start <= children[0].pos < end && level < minimum <= MAX_LEVEL
    ensures Within(doc, path, start, children[0].pos, minimum)
  {
    ChildrenInOrder(doc, start, end, level, children, minimum);
    IntroductionIsClean(doc, start, end, level, children, minimum);
  }

  lemma {:induction false} NoChildBetween(children: seq<Heading>, inside: seq<Heading>, minimum: nat, index: nat,
                                          h: Heading)
    requires index < |children| && InOrder(children) && children == AtLevel(inside, minimum)
    requires children[index].pos < h.pos && (index + 1 < |children| ==> h.pos < children[index + 1].pos)
    ensures h in inside ==> h.level != minimum
  {
    forall k | 0 <= k < |children| ensures children[k].pos != h.pos {
      assert k <= index || index + 1 <= k;
    }
  }

  /** Divides a range at its headings of the smallest level, or into paragraphs if it has none. */
  method Divide(doc: Document, output: seq<Section>, start: nat, end: nat, path: seq<Heading>, level: nat)
    returns (out: seq<Section>)
    requires Within(doc, path, start, end, level) && level <= MAX_LEVEL && Placed(doc, output)
    ensures Grown(doc, output, out, start, end)
    decreases MAX_LEVEL - level, 0
  {
    var inside := Inside(doc.headings, start, end, level);
    var size := Size(doc.lines, start, end);
    if inside == [] {
      if size <= doc.maxChars {
        out := Emit(doc, output, start, end, path);
      } else {
        out := CutParagraphs(doc, output, start, end, path, level);
      }
      return;
    }
    var minimum := MinLevel(inside);
    var children := AtLevel(inside, minimum);
    IntroductionSplit(doc, path, start, end, level, children, minimum);
    // A title shows its topics even when the whole text is short.
    if level >= 2 && size <= doc.maxChars {
      out := Emit(doc, output, start, end, path);
      return;
    }
    out := output;
    if start < children[0].pos {
      out := Divide(doc, output, start, children[0].pos, path, minimum);
    } else {
      NothingGrown(doc, output, start);
    }
    for index := 0 to |children|
      invariant start <= (if index < |children| then children[index].pos else end) <= end
      invariant Grown(doc, output, out, start, if index < |children| then children[index].pos else end)
    {
      ChildrenSplit(doc, path, start, end, level, children, minimum, index);
      var longer := Topic(doc, out, children[index].pos, StopOf(children, index, end), path + [children[index]],
          minimum);
      GrownOn(doc, output, out, longer, start, children[index].pos, StopOf(children, index, end));
      out := longer;
    }
  }

  /** A topic is kept whole if it fits and is not a title above other topics. */
  method Topic(doc: Document, output: seq<Section>, start: nat, end: nat, path: seq<Heading>, depth: nat)
    returns (out: seq<Section>)
    requires Within(doc, path, start, end, depth) && depth <= MAX_LEVEL && Placed(doc, output)
    ensures Grown(doc, output, out, start, end)
    decreases MAX_LEVEL - depth, 1
  {
    var size := Size(doc.lines, start, end);
    var children := Inside(doc.headings, start + 1, end, depth);
    if size <= doc.maxChars && (depth >= 2 || children == []) {
      out := Emit(doc, output, start, end, path);
    } else {
      out := Divide(doc, output, start, end, path, depth);
    }
  }

  // ----- the whole document


  /** A front matter starts on the first line and ends at the first closing line; without one there is none. */
  ghost predicate IsFrontMatterEnd(lines: seq<string>, first: nat) {
    var begun := lines != [] && Strip(lines[0]) == "---";
    if first == 0 then
      begun ==> forall i :: 1 <= i < |lines| ==> Strip(lines[i]) !in {"---", "..."}
    else
      && begun && 2 <= first <= |lines| && Strip(lines[first - 1]) in {"---", "..."}
      && forall i :: 1 <= i < first - 1 ==> Strip(lines[i]) !in {"---", "..."}
  }

  method FrontMatterEnd(lines: seq<string>) returns (first: nat)
    ensures IsFrontMatterEnd(lines, first) && first <= |lines|
  {
    if lines == [] || Strip(lines[0]) != "---" {
      return 0;
    }
    for i := 1 to |lines|
      invariant forall j :: 1 <= j < i ==> Strip(lines[j]) !in {"---", "..."}
    {
      if Strip(lines[i]) in {"---", "..."} {
        return i + 1;
      }
    }
    return 0;
  }

  /** Splitting a scanned document: what follows the front matter is covered by sections in line order. */
  method SplitMarkdown(doc: Document) returns (first: nat, sections: seq<Section>)
    requires Scanned(doc)
    ensures first <= |doc.lines| && IsFrontMatterEnd(doc.lines, first)
    ensures Covers(doc.lines, sections, first, |doc.lines|) && Placed(doc, sections)
  {
    first := FrontMatterEnd(doc.lines);
    if doc.lines == [] {
      return first, [];
    }
    sections := Divide(doc, [], first, |doc.lines|, [], 0);
    assert sections[0..] == sections;
  }
}
