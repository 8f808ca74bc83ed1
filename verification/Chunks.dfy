/** Cutting a section into pieces a model can take: each piece is found by a binary search over a
    tokenizer about which nothing is assumed, not even that longer texts have more tokens. */
module BoundedChunks {
  import opened Prelude
  import opened MarkdownSections

  const MAX_TOKENS := 1024
  const MAX_WINDOW := 4096

  datatype Chunk = Chunk(content: string, startLine: nat, endLine: int)

  // ----- shortening the prefix

  function Halved(prefix: string, times: nat): string {
    if times == 0 then prefix else var p := Halved(prefix, times - 1); p[..|p| / 2]
  }

  predicate PrefixFits(tokenCount: string -> nat, prefix: string) {
    tokenCount(prefix) <= MAX_TOKENS / 4
  }

  lemma {:induction false} HalvedShrinks(prefix: string, times: nat)
    ensures |Halved(prefix, times)| <= (if times <= |prefix| then |prefix| - times else 0)
    ensures times >= |prefix| ==> Halved(prefix, times) == ""
  {
    if times > 0 {
      HalvedShrinks(prefix, times - 1);
    }
  }

  function PowerOfTwo(k: nat): nat {
    if k == 0 then 1 else 2 * PowerOfTwo(k - 1)
  }

  /** Halving a prefix `k` times leaves its first part, as long as the division of its length by two to the `k`. */
  lemma {:induction false} HalvedIs(prefix: string, k: nat)
    ensures PowerOfTwo(k) > 0 && Halved(prefix, k) <= prefix
    ensures |Halved(prefix, k)| * PowerOfTwo(k) <= |prefix| < (|Halved(prefix, k)| + 1) * PowerOfTwo(k)
  {
    if k > 0 {
      HalvedIs(prefix, k - 1);
      HalvesMultiply(|prefix|, |Halved(prefix, k - 1)|, PowerOfTwo(k - 1));
    }
  }

  lemma HalvesMultiply(n: nat, m: nat, power: nat)
    requires m * power <= n < (m + 1) * power
    ensures (m / 2) * (2 * power) <= n < (m / 2 + 1) * (2 * power)
  {
    var half := m / 2;
    assert m == 2 * half || m == 2 * half + 1;
    assert (half + 1) * (2 * power) == (2 * half + 2) * power;
    assert half * (2 * power) == (2 * half) * power;
    if m == 2 * half {
      assert (2 * half + 2) * power == (m + 1) * power + power;
    } else {
      assert m * power == (2 * half) * power + power;
    }
  }

  /** Halving ends exactly if one of the first `|prefix|` halvings fits: after those nothing is left to halve. */
  lemma {:induction false} ShorteningEnds(tokenCount: string -> nat, prefix: string)
    ensures (exists k :: PrefixFits(tokenCount, Halved(prefix, k)))
            <==> exists k :: 0 <= k <= |prefix| && PrefixFits(tokenCount, Halved(prefix, k))
  {
    if k: nat :| PrefixFits(tokenCount, Halved(prefix, k)) {
      HalvedShrinks(prefix, k);
      HalvedShrinks(prefix, |prefix|);
      if k > |prefix| {
        assert Halved(prefix, k) == Halved(prefix, |prefix|);
      }
    }
  }

  /** For a tokenizer that counts too many tokens for every text, the empty one included, it never ends. */
  lemma ShorteningCanGoOn(prefix: string)
    ensures !exists k :: PrefixFits(_ => MAX_TOKENS / 4 + 1, Halved(prefix, k))
  {
  }

  method ShortenPrefix(tokenCount: string -> nat, original: string) returns (prefix: string)
    requires exists k :: PrefixFits(tokenCount, Halved(original, k))
    ensures 4 * tokenCount(prefix) <= MAX_TOKENS && prefix <= original
    ensures exists k: nat ::
              && prefix == Halved(original, k)
              && forall j :: 0 <= j < k ==> 4 * tokenCount(Halved(original, j)) > MAX_TOKENS
  {
    prefix := original;
    ghost var times := 0;
    ghost var enough: nat :| PrefixFits(tokenCount, Halved(original, enough));
    while tokenCount(prefix) > MAX_TOKENS / 4
      invariant prefix == Halved(original, times) && times <= enough && prefix <= original
      invariant forall j :: 0 <= j < times ==> 4 * tokenCount(Halved(original, j)) > MAX_TOKENS
      decreases enough - times
    {
      prefix := prefix[..|prefix| / 2];
      times := times + 1;
    }
  }

  // ----- lines of characters

  function Newlines(text: string): nat {
    if text == "" then 0 else Newlines(text[..|text| - 1]) + (if text[|text| - 1] == '\n' then 1 else 0)
  }

  lemma {:induction false} NewlinesAdd(a: string, b: string)
    ensures Newlines(a + b) == Newlines(a) + Newlines(b)
  {
    if b == "" {
      assert a + b == a;
    } else {
      NewlinesAdd(a, b[..|b| - 1]);
      assert (a + b)[..|a + b| - 1] == a + b[..|b| - 1];
    }
  }

  /** The one-based line of a character of the section. */
  function LineOf(section: Section, i: nat): nat
    requires i <= |section.content|
  {
    section.startLine + Newlines(section.content[..i])
  }

  lemma {:induction false} NoNewlines(text: string)
    requires '\n' !in text
    ensures Newlines(text) == 0
  {
    if text != "" {
      NoNewlines(text[..|text| - 1]);
    }
  }

  lemma {:induction false} SizeFrom(lines: seq<string>, k: nat)
    requires k < |lines|
    ensures Size(lines, 0, k + 1) == |lines[0]| + 1 + Size(lines[1..], 0, k)
  {
    if k > 0 {
      SizeFrom(lines, k - 1);
    }
  }

  /** The number of newlines before a character of joined lines is the index of the line it is on. */
  lemma {:induction false} CharacterOnLine(lines: seq<string>, i: nat) returns (k: nat)
    requires forall j :: 0 <= j < |lines| ==> '\n' !in lines[j]
    requires i < |JoinLines(lines)|
    ensures k == Newlines(JoinLines(lines)[..i]) && k < |lines|
    ensures Size(lines, 0, k) <= i <= Size(lines, 0, k) + |lines[k]|
    ensures JoinLines(lines)[i] == (lines[k] + "\n")[i - Size(lines, 0, k)]
  {
    var text := JoinLines(lines);
    if i < |lines[0]| || |lines| == 1 {
      assert text[..i] == lines[0][..i];
      NoNewlines(text[..i]);
      k := 0;
    } else if i == |lines[0]| {
      assert text[..i] == lines[0];
      NoNewlines(text[..i]);
      k := 0;
    } else {
      var rest := JoinLines(lines[1..]);
      var head := lines[0] + "\n";
      assert text == head + rest;
      assert text[..i] == head + rest[..i - |head|];
      k := CharacterOnLine(lines[1..], i - |head|);
      NewlinesAdd(head, rest[..i - |head|]);
      NewlinesAdd(lines[0], "\n");
      NoNewlines(lines[0]);
      assert Newlines("\n") == 1;
      SizeFrom(lines, k);
      k := k + 1;
    }
  }

  /** The line computed for a character of a section is the source line it stands on. */
  lemma LineIsTheSourceLine(lines: seq<string>, section: Section, i: nat)
    requires IsSection(lines, section) && i < |section.content|
    requires forall j :: 0 <= j < |lines| ==> '\n' !in lines[j]
    ensures section.startLine <= LineOf(section, i) <= section.endLine
    ensures var own := lines[section.startLine - 1..section.endLine];
            var k := LineOf(section, i) - section.startLine;
            && Size(own, 0, k) <= i <= Size(own, 0, k) + |lines[LineOf(section, i) - 1]|
            && section.content[i] == (lines[LineOf(section, i) - 1] + "\n")[i - Size(own, 0, k)]
  {
    var own := lines[section.startLine - 1..section.endLine];
    var k := CharacterOnLine(own, i);
    assert own[k] == lines[LineOf(section, i) - 1];
  }

  // ----- the chunks of a section

  /** The length was tried and fits, and one character more does not, or is not there, or exceeds the window. */
  predicate Longest(tokenCount: string -> nat, prefix: string, content: string, start: nat, length: nat) {
    && 0 < length <= MAX_WINDOW && start + length <= |content|
    && tokenCount(prefix + content[start..start + length]) <= MAX_TOKENS
    && (length < MAX_WINDOW && start + length < |content| ==>
          tokenCount(prefix + content[start..start + length + 1]) > MAX_TOKENS)
  }

  /** Of such a length a piece takes everything up to the last newline, unless that has more tokens than allowed or
      the content ends there. */
  ghost predicate CutWithin(tokenCount: string -> nat, prefix: string, content: string, start: nat, length: nat,
                            end: nat)
    requires start + length <= |content|
  {
    && start < end <= start + length
    && (end < start + length ==>
          start + length < |content| && content[end - 1] == '\n' && '\n' !in content[end..start + length])
    && (end == start + length < |content| ==>
          forall i :: start <= i < end && content[i] == '\n' && '\n' !in content[i + 1..end] ==>
            i + 1 == end || tokenCount(prefix + content[start..i + 1]) > MAX_TOKENS)
  }

  ghost predicate WellCut(tokenCount: string -> nat, prefix: string, content: string, start: nat, end: nat) {
    exists length :: Longest(tokenCount, prefix, content, start, length)
                     && CutWithin(tokenCount, prefix, content, start, length, end)
  }

  /** For a tokenizer that counts no fewer tokens for longer texts, no longer piece would have fitted. */
  lemma LongestIsMaximal(tokenCount: string -> nat, prefix: string, content: string, start: nat, length: nat,
                         longer: nat)
    requires Longest(tokenCount, prefix, content, start, length)
    requires length < longer <= MAX_WINDOW && start + longer <= |content|
    requires forall a, b :: start <= a <= b <= |content| ==>
               tokenCount(prefix + content[start..a]) <= tokenCount(prefix + content[start..b])
    ensures tokenCount(prefix + content[start..start + longer]) > MAX_TOKENS
  {
    assert start + length + 1 <= start + longer;
  }

  /** The chunks cut so far hold the section up to the cursor, in order and without a gap, each within
      the token limit, as long as it may be, and with its true lines. */
  ghost predicate Tiling(tokenCount: string -> nat, prefix: string, section: Section, chunks: seq<Chunk>, cursor: nat)
    requires cursor <= |section.content|
    decreases |chunks|
  {
    if chunks == [] then cursor == 0
    else
      var c := chunks[|chunks| - 1];
      var n := |c.content| - |prefix|;
      && 0 < n <= cursor
      && c.content == prefix + section.content[cursor - n..cursor]
      && tokenCount(c.content) <= MAX_TOKENS
      && WellCut(tokenCount, prefix, section.content, cursor - n, cursor)
      && c.startLine == LineOf(section, cursor - n)
      && c.endLine == (if cursor == |section.content| then section.endLine else LineOf(section, cursor - 1))
      && Tiling(tokenCount, prefix, section, chunks[..|chunks| - 1], cursor - n)
  }

  function Bodies(prefix: string, chunks: seq<Chunk>): string
    requires forall i :: 0 <= i < |chunks| ==> |prefix| <= |chunks[i].content|
  {
    if chunks == [] then ""
    else Bodies(prefix, chunks[..|chunks| - 1]) + chunks[|chunks| - 1].content[|prefix|..]
  }

  /** Without their prefix the chunks give back the text, and none exceeds the limit. */
  lemma {:induction false} ChunksAreLossless(tokenCount: string -> nat, prefix: string, section: Section,
                                             chunks: seq<Chunk>, cursor: nat)
    requires cursor <= |section.content| && Tiling(tokenCount, prefix, section, chunks, cursor)
    ensures forall i :: 0 <= i < |chunks| ==>
              |prefix| < |chunks[i].content| && prefix <= chunks[i].content
                  && tokenCount(chunks[i].content) <= MAX_TOKENS
    ensures Bodies(prefix, chunks) == section.content[..cursor]
    decreases |chunks|
  {
    ChunksFit(tokenCount, prefix, section, chunks, cursor);
    if chunks != [] {
      var before := LastTile(tokenCount, prefix, section, chunks, cursor);
      ChunksAreLossless(tokenCount, prefix, section, chunks[..|chunks| - 1], before);
    }
  }

  /** The last chunk takes the section on from where the others end. */
  lemma LastTile(tokenCount: string -> nat, prefix: string, section: Section, chunks: seq<Chunk>, cursor: nat)
    returns (before: nat)
    requires chunks != [] && cursor <= |section.content| && Tiling(tokenCount, prefix, section, chunks, cursor)
    ensures before < cursor && Tiling(tokenCount, prefix, section, chunks[..|chunks| - 1], before)
    ensures var c := chunks[|chunks| - 1].content;
            && |prefix| < |c| && prefix <= c && tokenCount(c) <= MAX_TOKENS
            && section.content[..cursor] == section.content[..before] + c[|prefix|..]
  {
    var c := chunks[|chunks| - 1].content;
    before := cursor - (|c| - |prefix|);
    BodyOf(prefix, section.content, c, before, cursor);
  }

  lemma {:induction false} ChunksFit(tokenCount: string -> nat, prefix: string, section: Section,
                                     chunks: seq<Chunk>, cursor: nat)
    requires cursor <= |section.content| && Tiling(tokenCount, prefix, section, chunks, cursor)
    ensures forall i :: 0 <= i < |chunks| ==>
              |prefix| < |chunks[i].content| && prefix <= chunks[i].content
                  && tokenCount(chunks[i].content) <= MAX_TOKENS
    decreases |chunks|
  {
    if chunks != [] {
      var n := |chunks| - 1;
      var before := LastTile(tokenCount, prefix, section, chunks, cursor);
      ChunksFit(tokenCount, prefix, section, chunks[..n], before);
      assert forall i :: 0 <= i < n ==> chunks[i] == chunks[..n][i];
    }
  }

  lemma BodyOf(prefix: string, content: string, chunk: string, from: nat, to: nat)
    requires from <= to <= |content| && chunk == prefix + content[from..to]
    ensures prefix <= chunk && content[..to] == content[..from] + chunk[|prefix|..]
  {
    assert chunk[|prefix|..] == content[from..to];
  }

  /** The last newline of a stretch, if it has one. */
  method LastNewline(content: string, from: nat, to: nat) returns (newline: Option<nat>)
    requires from <= to <= |content|
    ensures newline.Some? ==>
              from <= newline.value < to && content[newline.value] == '\n' && '\n' !in content[newline.value + 1..to]
    ensures newline.None? ==> '\n' !in content[from..to]
  {
    var i := to;
    while i > from
      invariant from <= i <= to && '\n' !in content[i..to]
    {
      i := i - 1;
      if content[i] == '\n' {
        return Some(i);
      }
      assert content[i..to] == [content[i]] + content[i + 1..to];
    }
    return None;
  }

  /** Searches for a length that fits. Whatever the tokenizer does, a length found was itself tried; nothing
      is found only if not even one character fits. */
  method FittingLength(tokenCount: string -> nat, prefix: string, content: string, cursor: nat) returns (length: nat)
    requires cursor < |content|
    ensures length <= |content| - cursor && length <= MAX_WINDOW
    ensures length > 0 ==> tokenCount(prefix + content[cursor..cursor + length]) <= MAX_TOKENS
    ensures length == 0 ==> tokenCount(prefix + content[cursor..cursor + 1]) > MAX_TOKENS
    ensures length > 0 ==> Longest(tokenCount, prefix, content, cursor, length)
  {
    var lo, hi := 0, if MAX_WINDOW < |content| - cursor then MAX_WINDOW else |content| - cursor;
    while lo < hi
      invariant 0 <= lo <= hi <= |content| - cursor && hi <= MAX_WINDOW
      invariant lo > 0 ==> tokenCount(prefix + content[cursor..cursor + lo]) <= MAX_TOKENS
      invariant hi < MAX_WINDOW && cursor + hi < |content| ==>
                  tokenCount(prefix + content[cursor..cursor + hi + 1]) > MAX_TOKENS
    {
      var mid := (lo + hi + 1) / 2;
      if tokenCount(prefix + content[cursor..cursor + mid]) <= MAX_TOKENS {
        lo := mid;
      } else {
        hi := mid - 1;
      }
    }
    return lo;
  }

  /** Prefers to end a piece behind its last newline, unless the shorter piece has more tokens than allowed. */
  method PieceEnd(tokenCount: string -> nat, prefix: string, content: string, cursor: nat, length: nat)
    returns (end: nat)
    requires 0 < length && cursor + length <= |content|
    requires tokenCount(prefix + content[cursor..cursor + length]) <= MAX_TOKENS
    ensures CutWithin(tokenCount, prefix, content, cursor, length, end)
    ensures tokenCount(prefix + content[cursor..end]) <= MAX_TOKENS
  {
    end := cursor + length;
    if end < |content| {
      var newline := LastNewline(content, cursor, end);
      if newline.Some? {
        end := newline.value + 1;
      }
    }
    if tokenCount(prefix + content[cursor..end]) > MAX_TOKENS {
      end := cursor + length;
    }
  }

  lemma LastLineOf(section: Section, cursor: nat, end: nat)
    requires cursor < end <= |section.content|
    ensures var part := section.content[cursor..end];
            && LineOf(section, end) == LineOf(section, cursor) + Newlines(part)
            && LineOf(section, end - 1)
                == LineOf(section, cursor) + Newlines(part) - (if part[|part| - 1] == '\n' then 1 else 0)
  {
    var part := section.content[cursor..end];
    NewlinesAdd(section.content[..cursor], part);
    assert section.content[..end] == section.content[..cursor] + part;
    assert section.content[..end][..end - 1] == section.content[..end - 1];
  }

  /** All pieces of a section; it fails only at a character that does not fit even alone. */
  method BoundedSection(tokenCount: string -> nat, prefix: string, section: Section)
    returns (chunks: seq<Chunk>, failed: Option<nat>)
    ensures failed.None? ==> Tiling(tokenCount, prefix, section, chunks, |section.content|)
    ensures failed.Some? ==>
              && failed.value < |section.content| && Tiling(tokenCount, prefix, section, chunks, failed.value)
              && tokenCount(prefix + section.content[failed.value..failed.value + 1]) > MAX_TOKENS
  {
    var content := section.content;
    chunks := [];
    var cursor := 0;
    var line := section.startLine;
    while cursor < |content|
      invariant cursor <= |content| && Tiling(tokenCount, prefix, section, chunks, cursor)
      invariant line == LineOf(section, cursor)
      decreases |content| - cursor
    {
      var length := FittingLength(tokenCount, prefix, content, cursor);
      if length == 0 {
        return chunks, Some(cursor);
      }
      var end := PieceEnd(tokenCount, prefix, content, cursor, length);
      var part := content[cursor..end];
      LastLineOf(section, cursor, end);
      var chunk := Chunk(prefix + part, line,
                         if end == |content| then section.endLine
                         else line + Newlines(part) - (if part[|part| - 1] == '\n' then 1 else 0));
      assert WellCut(tokenCount, prefix, content, cursor, end);
      TilingGrows(tokenCount, prefix, section, chunks, cursor, chunk, end);
      chunks := chunks + [chunk];
      line := line + Newlines(part);
      cursor := end;
    }
    return chunks, None;
  }

  lemma {:induction false} TilingGrows(tokenCount: string -> nat, prefix: string, section: Section, chunks: seq<Chunk>,
                                       cursor: nat, c: Chunk, end: nat)
    requires cursor < end <= |section.content| && Tiling(tokenCount, prefix, section, chunks, cursor)
    requires c.content == prefix + section.content[cursor..end] && tokenCount(c.content) <= MAX_TOKENS
    requires WellCut(tokenCount, prefix, section.content, cursor, end)
    requires c.startLine == LineOf(section, cursor)
    requires c.endLine == if end == |section.content| then section.endLine else LineOf(section, end - 1)
    ensures Tiling(tokenCount, prefix, section, chunks + [c], end)
  {
    assert (chunks + [c])[..|chunks|] == chunks;
  }

  // ----- all sections

  function Head(text: string): (head: string)
    ensures head <= text && |head| == if |text| > 256 then 256 else |text|
  {
    if |text| <= 256 then text else text[..256]
  }

  function PrefixOf(title: string, section: Section): string {
    "资料主题：" + Head(title) + "\n章节：" + Head(section.heading) + "\n"
  }

  /** Shortening the section's prefix ends. */
  ghost predicate Shortens(tokenCount: string -> nat, title: string, section: Section) {
    exists k :: PrefixFits(tokenCount, Halved(PrefixOf(title, section), k))
  }

  ghost predicate SectionPrefix(tokenCount: string -> nat, title: string, section: Section, prefix: string) {
    4 * tokenCount(prefix) <= MAX_TOKENS && prefix <= PrefixOf(title, section)
  }

  /** Each of the sections so far is tiled by a group of chunks with a prefix of its own. */
  ghost predicate AllTiled(tokenCount: string -> nat, title: string, sections: seq<Section>,
                           prefixes: seq<string>, groups: seq<seq<Chunk>>) {
    && |prefixes| == |groups| <= |sections|
    && forall i :: 0 <= i < |groups| ==>
         && SectionPrefix(tokenCount, title, sections[i], prefixes[i])
         && Tiling(tokenCount, prefixes[i], sections[i], groups[i], |sections[i].content|)
  }

  /** The section is cut up to a character that does not fit even alone. */
  ghost predicate StopsAt(tokenCount: string -> nat, prefix: string, section: Section, chunks: seq<Chunk>, stop: nat) {
    && stop < |section.content| && Tiling(tokenCount, prefix, section, chunks, stop)
    && tokenCount(prefix + section.content[stop..stop + 1]) > MAX_TOKENS
  }

  /** The chunks of all sections, in order. It fails in the first section that has a character that does not
      fit even alone, with everything before that character cut. */
  method BoundedSections(tokenCount: string -> nat, title: string, sections: seq<Section>)
    returns (prefixes: seq<string>, groups: seq<seq<Chunk>>, rest: seq<Chunk>, failed: Option<nat>)
    requires forall i :: 0 <= i < |sections| ==> Shortens(tokenCount, title, sections[i])
    ensures failed.None? ==> |groups| == |sections| && AllTiled(tokenCount, title, sections, prefixes, groups)
    ensures failed.Some? ==>
              && |prefixes| == |groups| + 1 && AllTiled(tokenCount, title, sections, prefixes[..|groups|], groups)
              && |groups| < |sections|
              && StopsAt(tokenCount, prefixes[|groups|], sections[|groups|], rest, failed.value)
  {
    prefixes, groups := [], [];
    for i := 0 to |sections|
      invariant |groups| == i && AllTiled(tokenCount, title, sections, prefixes, groups)
    {
      var prefix := ShortenPrefix(tokenCount, PrefixOf(title, sections[i]));
      var chunks, stopped := BoundedSection(tokenCount, prefix, sections[i]);
      if stopped.Some? {
        assert (prefixes + [prefix])[..i] == prefixes;
        assert StopsAt(tokenCount, prefix, sections[i], chunks, stopped.value);
        return prefixes + [prefix], groups, chunks, stopped;
      }
      MoreTiled(tokenCount, title, sections, prefixes, groups, prefix, chunks);
      prefixes, groups := prefixes + [prefix], groups + [chunks];
    }
    return prefixes, groups, [], None;
  }

  lemma {:induction false} MoreTiled(tokenCount: string -> nat, title: string, sections: seq<Section>,
                                     prefixes: seq<string>, groups: seq<seq<Chunk>>, prefix: string,
                                     chunks: seq<Chunk>)
    requires AllTiled(tokenCount, title, sections, prefixes, groups) && |groups| < |sections|
    requires SectionPrefix(tokenCount, title, sections[|groups|], prefix)
    requires Tiling(tokenCount, prefix, sections[|groups|], chunks, |sections[|groups|].content|)
    ensures AllTiled(tokenCount, title, sections, prefixes + [prefix], groups + [chunks])
  {
  }
}
