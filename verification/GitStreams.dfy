/** Reading Git output as it streams in: a page of lines, a symbol search and a path list, each of
    which must not depend on where the stream happened to be cut. */
module GitStreams {
  import opened Prelude

  // ----- splitting a whole text

  /** The parts of a text between separators; there is always a last part, possibly empty. */
  function Split(text: string, separator: char): (parts: seq<string>)
    ensures |parts| > 0
  {
    if text == "" then [""]
    else
      var before := Split(text[..|text| - 1], separator);
      var c := text[|text| - 1];
      if c == separator then before + [""]
      else before[..|before| - 1] + [before[|before| - 1] + [c]]
  }

  function Join(parts: seq<string>, separator: char): string
    requires |parts| > 0
  {
    if |parts| == 1 then parts[0] else Join(parts[..|parts| - 1], separator) + [separator] + parts[|parts| - 1]
  }

  /** Splitting is what joining undoes: the parts hold no separator and give the text back. */
  lemma {:induction false} SplitIsLossless(text: string, separator: char)
    ensures Join(Split(text, separator), separator) == text
    ensures forall i :: 0 <= i < |Split(text, separator)| ==> separator !in Split(text, separator)[i]
  {
    if text != "" {
      var before, was := text[..|text| - 1], Split(text[..|text| - 1], separator);
      SplitIsLossless(before, separator);
      assert text == before + [text[|text| - 1]];
      if text[|text| - 1] == separator {
        assert was + [""] == Split(text, separator);
        JoinEnds(was, separator);
      } else {
        assert was[..|was| - 1] + [was[|was| - 1] + [text[|text| - 1]]] == Split(text, separator);
        JoinExtends(was, text[|text| - 1], separator);
      }
    }
  }

  lemma {:induction false} JoinEnds(parts: seq<string>, separator: char)
    requires |parts| > 0
    ensures Join(parts + [""], separator) == Join(parts, separator) + [separator]
  {
    assert (parts + [""])[..|parts|] == parts;
  }

  lemma {:induction false} JoinExtends(parts: seq<string>, c: char, separator: char)
    requires |parts| > 0
    ensures Join(parts[..|parts| - 1] + [parts[|parts| - 1] + [c]], separator) == Join(parts, separator) + [c]
  {
    var longer := parts[..|parts| - 1] + [parts[|parts| - 1] + [c]];
    assert longer[..|longer| - 1] == parts[..|parts| - 1];
  }

  function Last(parts: seq<string>): string
    requires |parts| > 0
  {
    parts[|parts| - 1]
  }

  /** A fragment without separator only makes the last part longer; a separator ends it. */
  lemma {:induction false} SplitExtends(text: string, fragment: string, separator: char)
    requires separator !in fragment
    ensures var parts := Split(text, separator);
            Split(text + fragment, separator) == parts[..|parts| - 1] + [Last(parts) + fragment]
  {
    var parts := Split(text, separator);
    if fragment == "" {
      assert text + fragment == text && Last(parts) + fragment == Last(parts);
    } else {
      var n := |fragment| - 1;
      SplitExtends(text, fragment[..n], separator);
      assert (text + fragment)[..|text + fragment| - 1] == text + fragment[..n];
      assert fragment[..n] + [fragment[n]] == fragment;
      assert Last(parts) + fragment[..n] + [fragment[n]] == Last(parts) + fragment;
    }
  }

  lemma {:induction false} SplitEnds(text: string, separator: char)
    ensures Split(text + [separator], separator) == Split(text, separator) + [""]
  {
    assert (text + [separator])[..|text|] == text;
  }

  function Concat(chunks: seq<string>): string {
    if chunks == [] then "" else Concat(chunks[..|chunks| - 1]) + chunks[|chunks| - 1]
  }

  lemma ConcatAppends(chunks: seq<string>, k: nat)
    requires k < |chunks|
    ensures Concat(chunks[..k + 1]) == Concat(chunks[..k]) + chunks[k]
  {
    assert chunks[..k + 1][..k] == chunks[..k];
  }

  /** Where the separator occurs next, or the end of the chunk. */
  method IndexOf(chunk: string, separator: char, offset: nat) returns (stop: nat)
    requires offset <= |chunk|
    ensures offset <= stop <= |chunk| && separator !in chunk[offset..stop]
    ensures stop < |chunk| ==> chunk[stop] == separator
  {
    stop := offset;
    while stop < |chunk| && chunk[stop] != separator
      invariant offset <= stop <= |chunk| && separator !in chunk[offset..stop]
    {
      stop := stop + 1;
      assert chunk[offset..stop] == chunk[offset..stop - 1] + [chunk[stop - 1]];
    }
  }

  // ----- the page a reader asks for

  datatype Line = Line(number: nat, text: string)

  /** The lines of the page so far, what they cost, and the first line that did not fit. */
  datatype Taken = Taken(lines: seq<Line>, characters: nat, nextLine: Option<nat>)

  datatype Page = Page(lines: seq<Line>, totalLines: nat, nextLine: Option<nat>, symbolFound: bool)

  function Digits(n: nat): nat {
    if n < 10 then 1 else 1 + Digits(n / 10)
  }

  function TenTo(k: nat): nat {
    if k == 0 then 1 else 10 * TenTo(k - 1)
  }

  /** The digits a number is written with: the fewest that suffice, and one for zero. */
  lemma {:induction false} DigitsSuffice(n: nat)
    ensures Digits(n) >= 1 && n < TenTo(Digits(n))
    ensures n > 0 ==> TenTo(Digits(n) - 1) <= n
  {
    if n >= 10 {
      DigitsSuffice(n / 10);
    }
  }

  function Cost(number: nat, text: string): nat {
    |text| + Digits(number) + 3
  }

  /** Takes one more line if it is wanted, nothing was left out before, and the budget allows it. */
  function Take(t: Taken, first: nat, last: nat, limit: nat, number: nat, text: string): Taken {
    if !(first <= number <= last) || t.nextLine.Some? then t
    else if t.characters + Cost(number, text) > limit then t.(nextLine := Some(number))
    else Taken(t.lines + [Line(number, text)], t.characters + Cost(number, text), None)
  }

  /** The greedy page over the first `n` of all lines. */
  function Greedy(lines: seq<string>, n: nat, first: nat, last: nat, limit: nat): Taken
    requires n <= |lines|
  {
    if n == 0 then Taken([], 0, None)
    else Take(Greedy(lines, n - 1, first, last, limit), first, last, limit, n, lines[n - 1])
  }

  predicate OccursAt(text: string, symbol: string, i: int) {
    0 <= i <= |text| - |symbol| && text[i..i + |symbol|] == symbol
  }

  predicate Contains(text: string, symbol: string) {
    exists i | 0 <= i <= |text| :: OccursAt(text, symbol, i)
  }

  /** A text contains a symbol exactly if the symbol stands between two parts of it. */
  lemma ContainedBetween(text: string, symbol: string)
    ensures Contains(text, symbol) <==> exists before, after :: text == before + symbol + after
  {
    if Contains(text, symbol) {
      var i :| 0 <= i <= |text| && OccursAt(text, symbol, i);
      assert text == text[..i] + symbol + text[i + |symbol|..];
    }
    if before, after :| text == before + symbol + after {
      assert OccursAt(text, symbol, |before|);
    }
  }

  /** There is one line more than there are newlines. */
  lemma {:induction false} LinesAreCounted(text: string)
    ensures |Split(text, '\n')| == |set i | 0 <= i < |text| && text[i] == '\n'| + 1
  {
    var all := set i | 0 <= i < |text| && text[i] == '\n';
    if text == "" {
      assert all == {};
    } else {
      var n := |text| - 1;
      LinesAreCounted(text[..n]);
      var before := set i | 0 <= i < |text[..n]| && text[..n][i] == '\n';
      assert all == if text[n] == '\n' then before + {n} else before;
    }
  }

  /** What a reader of the whole text would return. */
  function WholePage(text: string, first: nat, last: nat, limit: nat, symbol: string): Page {
    var lines := Split(text, '\n');
    var taken := Greedy(lines, |lines|, first, last, limit);
    Page(taken.lines, |lines|,
         if taken.nextLine.Some? then taken.nextLine else if last < |lines| then Some(last + 1) else None,
         symbol != "" && Contains(text, symbol))
  }

  lemma {:induction false} GreedyPrefix(lines: seq<string>, more: seq<string>, n: nat, first: nat, last: nat,
                                        limit: nat)
    requires n <= |lines| && n <= |more| && lines[..n] == more[..n]
    ensures Greedy(lines, n, first, last, limit) == Greedy(more, n, first, last, limit)
  {
    if n > 0 {
      assert lines[..n - 1] == lines[..n][..n - 1] && more[..n - 1] == more[..n][..n - 1];
      assert lines[n - 1] == lines[..n][n - 1] && more[n - 1] == more[..n][n - 1];
      GreedyPrefix(lines, more, n - 1, first, last, limit);
    }
  }

  // ----- searching across chunk boundaries

  /** The longest end of a text that could still begin an occurrence. */
  function TailOf(text: string, symbol: string): string {
    if |symbol| < 2 then "" else if |text| < |symbol| - 1 then text else text[|text| - (|symbol| - 1)..]
  }

  lemma OccursLater(prefix: string, text: string, symbol: string, i: nat)
    ensures OccursAt(prefix + text, symbol, |prefix| + i) <==> OccursAt(text, symbol, i)
  {
    if i + |symbol| <= |text| {
      assert (prefix + text)[|prefix| + i..|prefix| + i + |symbol|] == text[i..i + |symbol|];
    }
  }

  lemma OccursEarlier(text: string, more: string, symbol: string, i: nat)
    requires i + |symbol| <= |text|
    ensures OccursAt(text + more, symbol, i) <==> OccursAt(text, symbol, i)
  {
    assert (text + more)[i..i + |symbol|] == text[i..i + |symbol|];
  }

  /** An occurrence that is not in the text seen before lies in its tail and the new chunk. */
  lemma FoundAcross(seen: string, chunk: string, symbol: string)
    requires symbol != "" && !Contains(seen, symbol)
    ensures Contains(seen + chunk, symbol) <==> Contains(TailOf(seen, symbol) + chunk, symbol)
  {
    var tail := TailOf(seen, symbol);
    var skipped := seen[..|seen| - |tail|];
    assert seen + chunk == skipped + (tail + chunk);
    if Contains(tail + chunk, symbol) {
      var i :| 0 <= i <= |tail + chunk| && OccursAt(tail + chunk, symbol, i);
      OccursLater(skipped, tail + chunk, symbol, i);
    }
    if Contains(seen + chunk, symbol) {
      var i :| 0 <= i <= |seen + chunk| && OccursAt(seen + chunk, symbol, i);
      if i + |symbol| <= |seen| {
        OccursEarlier(seen, chunk, symbol, i);
      }
      OccursLater(skipped, tail + chunk, symbol, i - |skipped|);
    }
  }

  lemma TailAcross(seen: string, chunk: string, symbol: string)
    ensures TailOf(TailOf(seen, symbol) + chunk, symbol) == TailOf(seen + chunk, symbol)
  {
  }

  lemma ContainsGrows(seen: string, chunk: string, symbol: string)
    requires Contains(seen, symbol)
    ensures Contains(seen + chunk, symbol)
  {
    var i :| 0 <= i <= |seen| && OccursAt(seen, symbol, i);
    OccursEarlier(seen, chunk, symbol, i);
  }

  // ----- the pager

  class BlobPager {
    const first: nat
    const last: nat
    const limit: nat
    const symbol: string
    var lines: seq<Line>
    var number: nat
    var current: string
    var characters: nat
    var nextLine: Option<nat>
    var symbolTail: string
    var symbolFound: bool

    constructor (first: nat, last: nat, limit: nat, symbol: string)
      ensures this.first == first && this.last == last && this.limit == limit && this.symbol == symbol
      ensures Pages("") && Searches("")
    {
      this.first, this.last, this.limit, this.symbol := first, last, limit, symbol;
      lines, number, current, characters, nextLine := [], 1, "", 0, None;
      symbolTail, symbolFound := "", false;
    }

    /** The page fields after the text seen so far: the complete lines were taken greedily, and of the
        last, still open line nothing is kept once it is not wanted or no longer fits. */
    ghost predicate Pages(seen: string)
      reads this`lines, this`characters, this`nextLine, this`current, this`number
    {
      var parts := Split(seen, '\n');
      var n := |parts| - 1;
      var taken := Greedy(parts, n, first, last, limit);
      var open := parts[n];
      && number == n + 1 && lines == taken.lines && characters == taken.characters
      && if !(first <= number <= last) || taken.nextLine.Some? then nextLine == taken.nextLine && current == ""
         else if taken.characters + Cost(number, open) > limit then
           current == "" && (nextLine == Some(number) || (open == "" && nextLine == None))
         else nextLine == None && current == open
    }

    ghost predicate Searches(seen: string)
      reads this`symbolTail, this`symbolFound
    {
      && symbolFound == (symbol != "" && Contains(seen, symbol))
      && (!symbolFound && symbol != "" ==> symbolTail == TailOf(seen, symbol))
    }

    method Search(chunk: string, ghost seen: string)
      requires Searches(seen)
      modifies this`symbolTail, this`symbolFound
      ensures Searches(seen + chunk)
    {
      if symbol != "" && !symbolFound {
        var combined := symbolTail + chunk;
        FoundAcross(seen, chunk, symbol);
        TailAcross(seen, chunk, symbol);
        symbolFound := Contains(combined, symbol);
        symbolTail := if symbolFound || |symbol| < 2 then ""
                      else if |combined| < |symbol| - 1 then combined else combined[|combined| - (|symbol| - 1)..];
      } else if symbolFound {
        ContainsGrows(seen, chunk, symbol);
      }
    }

    /** A piece of the open line. */
    method Fragment(fragment: string, ghost seen: string)
      requires Pages(seen) && '\n' !in fragment
      modifies this`current, this`nextLine
      ensures Pages(seen + fragment)
    {
      SplitExtends(seen, fragment, '\n');
      ghost var parts, longer := Split(seen, '\n'), Split(seen + fragment, '\n');
      assert longer[..|parts| - 1] == parts[..|parts| - 1];
      GreedyPrefix(parts, longer, |parts| - 1, first, last, limit);
      if first <= number <= last && nextLine.None? {
        if characters + |current| + |fragment| + Digits(number) + 3 > limit {
          nextLine := Some(number);
          current := "";
        } else {
          current := current + fragment;
        }
      }
    }

    /** Decides about the open line when it ends. */
    method Record(ghost seen: string)
      requires Pages(seen)
      modifies this`lines, this`characters, this`nextLine, this`current
      ensures var parts := Split(seen, '\n');
              Taken(lines, characters, nextLine) == Greedy(parts, |parts|, first, last, limit) && current == ""
    {
      if first <= number <= last && nextLine.None? {
        if characters + |current| + Digits(number) + 3 > limit {
          nextLine := Some(number);
        } else {
          lines := lines + [Line(number, current)];
          characters := characters + |current| + Digits(number) + 3;
        }
      }
      current := "";
    }

    method EndLine(ghost seen: string)
      requires Pages(seen)
      modifies this`lines, this`characters, this`nextLine, this`current, this`number
      ensures Pages(seen + "\n")
    {
      Record(seen);
      number := number + 1;
      SplitEnds(seen, '\n');
      ghost var parts, longer := Split(seen, '\n'), Split(seen + "\n", '\n');
      GreedyPrefix(parts, longer, |parts|, first, last, limit);
    }

    /** The rest of the open line that is in the chunk, and its end if that is there too. */
    method ConsumeLine(chunk: string, offset: nat, ghost seen: string) returns (stop: nat)
      requires offset <= |chunk| && Pages(seen + chunk[..offset])
      modifies this`lines, this`characters, this`nextLine, this`current, this`number
      ensures offset <= stop <= |chunk|
      ensures if stop < |chunk| then Pages(seen + chunk[..stop + 1]) else Pages(seen + chunk)
    {
      stop := IndexOf(chunk, '\n', offset);
      FragmentAt(chunk, offset, stop, seen);
      if stop < |chunk| {
        EndLineAt(chunk, stop, seen);
      } else {
        assert chunk[..stop] == chunk;
      }
    }

    method FragmentAt(chunk: string, offset: nat, stop: nat, ghost seen: string)
      requires offset <= stop <= |chunk| && '\n' !in chunk[offset..stop] && Pages(seen + chunk[..offset])
      modifies this`lines, this`characters, this`nextLine, this`current, this`number
      ensures Pages(seen + chunk[..stop])
    {
      Fragment(chunk[offset..stop], seen + chunk[..offset]);
      assert seen + chunk[..offset] + chunk[offset..stop] == seen + chunk[..stop];
    }

    method EndLineAt(chunk: string, stop: nat, ghost seen: string)
      requires stop < |chunk| && chunk[stop] == '\n' && Pages(seen + chunk[..stop])
      modifies this`lines, this`characters, this`nextLine, this`current, this`number
      ensures Pages(seen + chunk[..stop + 1])
    {
      EndLine(seen + chunk[..stop]);
      assert seen + chunk[..stop] + "\n" == seen + chunk[..stop + 1];
    }

    method ConsumeLines(chunk: string, ghost seen: string)
      requires Pages(seen)
      modifies this`lines, this`characters, this`nextLine, this`current, this`number
      ensures Pages(seen + chunk)
    {
      var offset := 0;
      assert seen + chunk[..0] == seen;
      while true
        invariant offset <= |chunk| && Pages(seen + chunk[..offset])
        decreases |chunk| - offset
      {
        var stop := ConsumeLine(chunk, offset, seen);
        if stop == |chunk| {
          return;
        }
        offset := stop + 1;
      }
    }

    /** One chunk of the stream. */
    method Consume(chunk: string, ghost seen: string)
      requires Pages(seen) && Searches(seen)
      modifies this
      ensures Pages(seen + chunk) && Searches(seen + chunk)
    {
      Search(chunk, seen);
      ConsumeLines(chunk, seen);
    }
  }

  /** However the stream is cut, the page is the one of the whole text. */
  method ReadGitBlobPage(chunks: seq<string>, first: nat, last: nat, limit: nat, symbol: string) returns (page: Page)
    ensures page == WholePage(Concat(chunks), first, last, limit, symbol)
  {
    var pager := new BlobPager(first, last, limit, symbol);
    assert chunks[..0] == [];
    for k := 0 to |chunks|
      invariant pager.Pages(Concat(chunks[..k])) && pager.Searches(Concat(chunks[..k]))
      invariant pager.first == first && pager.last == last && pager.limit == limit && pager.symbol == symbol
    {
      ConcatAppends(chunks, k);
      pager.Consume(chunks[k], Concat(chunks[..k]));
    }
    assert chunks[..|chunks|] == chunks;
    pager.Record(Concat(chunks));
    return Page(pager.lines, pager.number,
                if pager.nextLine.Some? then pager.nextLine else if last < pager.number then Some(last + 1) else None,
                pager.symbolFound);
  }

  // ----- what a page contains, and where reading continues

  /** The lines from `first` on, numbered. */
  function Numbered(lines: seq<string>, first: nat, count: nat): (r: seq<Line>)
    requires 1 <= first && first + count - 1 <= |lines|
    ensures |r| == count && forall i :: 0 <= i < count ==> r[i] == Line(first + i, lines[first + i - 1])
  {
    seq(count, i requires 0 <= i < count => Line(first + i, lines[first + i - 1]))
  }

  function TotalCost(lines: seq<string>, first: nat, count: nat): nat
    requires 1 <= first && first + count - 1 <= |lines|
  {
    if count == 0 then 0
    else TotalCost(lines, first, count - 1) + Cost(first + count - 1, lines[first + count - 2])
  }

  /** How many of the first `n` lines a page starting at `first` takes: all it may, or up to the first
      that would exceed the budget. */
  ghost predicate Maximal(lines: seq<string>, n: nat, first: nat, last: nat, limit: nat, count: nat) {
    && 1 <= first && first + count - 1 <= |lines| && n <= |lines|
    && (count > 0 ==> first + count - 1 <= last && first + count - 1 <= n)
    && TotalCost(lines, first, count) <= limit
    && (first + count <= last && first + count <= n ==> TotalCost(lines, first, count + 1) > limit)
  }

  lemma {:induction false} GreedyIsMaximal(lines: seq<string>, n: nat, first: nat, last: nat, limit: nat)
    returns (count: nat)
    requires n <= |lines| && 1 <= first <= |lines|
    ensures Maximal(lines, n, first, last, limit, count)
    ensures Greedy(lines, n, first, last, limit)
            == Taken(Numbered(lines, first, count), TotalCost(lines, first, count),
                     if first + count <= last && first + count <= n then Some(first + count) else None)
  {
    if n == 0 {
      count := 0;
    } else {
      count := GreedyIsMaximal(lines, n - 1, first, last, limit);
      if first <= n <= last && first + count == n {
        if TotalCost(lines, first, count + 1) <= limit {
          count := count + 1;
          assert Numbered(lines, first, count) == Numbered(lines, first, count - 1) + [Line(n, lines[n - 1])];
        }
      }
    }
  }

  /** A page holds the longest run of whole lines from `first` within its window and budget, and reading
      continues right behind it until the text ends. */
  lemma PageContents(text: string, first: nat, last: nat, limit: nat, symbol: string) returns (count: nat)
    requires 1 <= first <= |Split(text, '\n')| && first <= last
    ensures var lines := Split(text, '\n');
            var page := WholePage(text, first, last, limit, symbol);
            && Maximal(lines, |lines|, first, last, limit, count) && page.lines == Numbered(lines, first, count)
            && page.nextLine == (if first + count <= |lines| then Some(first + count) else None)
            && (count == 0 <==> |lines[first - 1]| + Digits(first) + 3 > limit)
            && page.totalLines == |set i | 0 <= i < |text| && text[i] == '\n'| + 1
            && (page.symbolFound <==> symbol != "" && exists before, after :: text == before + symbol + after)
  {
    LinesAreCounted(text);
    ContainedBetween(text, symbol);
    var lines := Split(text, '\n');
    count := GreedyIsMaximal(lines, |lines|, first, last, limit);
    assert TotalCost(lines, first, 1) == TotalCost(lines, first, 0) + Cost(first, lines[first - 1]);
    if count > 0 {
      CostGrows(lines, first, 1, count);
    }
  }

  lemma {:induction false} CostGrows(lines: seq<string>, first: nat, fewer: nat, count: nat)
    requires 1 <= first && first + count - 1 <= |lines| && fewer <= count
    ensures TotalCost(lines, first, fewer) <= TotalCost(lines, first, count)
  {
    if fewer < count {
      CostGrows(lines, first, fewer, count - 1);
    }
  }

  /** Continuing from the returned line always makes progress exactly when the window does not end before
      its start and its first line fits the budget on its own. */
  lemma {:induction false} ContinuationAdvances(text: string, first: nat, last: nat, limit: nat)
    requires 1 <= first <= |Split(text, '\n')|
    ensures var nextLine := WholePage(text, first, last, limit, "").nextLine;
            (nextLine.None? || nextLine.value > first)
            <==> first <= last && Cost(first, Split(text, '\n')[first - 1]) <= limit
  {
    if first <= last {
      var _ := PageContents(text, first, last, limit, "");
    } else {
      NothingBefore(Split(text, '\n'), |Split(text, '\n')|, first, last, limit);
    }
  }

  lemma {:induction false} SplitTwo(a: string, b: string)
    requires '\n' !in a && '\n' !in b
    ensures Split(a + "\n" + b, '\n') == [a, b]
  {
    SplitExtends("", a, '\n');
    assert "" + a == a && Split("", '\n') == [""];
    assert Split(a, '\n') == [a];
    SplitEnds(a, '\n');
    SplitExtends(a + "\n", b, '\n');
    assert "" + b == b;
    assert [a, ""][..1] == [a];
  }

  /** A window that ends before it starts, asked for at the second of two lines, names that line again. */
  lemma {:induction false} ContinuationCanStall(limit: nat)
    ensures WholePage("a" + "\n" + "b", 2, 1, limit, "").nextLine == Some(2)
  {
    SplitTwo("a", "b");
    NothingBefore(["a", "b"], 2, 2, 1, limit);
  }

  lemma {:induction false} NothingBefore(lines: seq<string>, n: nat, first: nat, last: nat, limit: nat)
    requires n <= |lines| && last < first
    ensures Greedy(lines, n, first, last, limit) == Taken([], 0, None)
  {
    if n > 0 {
      NothingBefore(lines, n - 1, first, last, limit);
    }
  }

  /** A reader that follows `nextLine`, asking each time for a window of some further length, until
      nothing follows or a page comes back empty. `pages` answers a start and a length. */
  function Follow(pages: (nat, nat) -> Page, first: nat, windows: seq<nat>): seq<Line>
    decreases |windows|
  {
    if windows == [] then []
    else
      var page := pages(first, windows[0]);
      if page.nextLine.None? || page.lines == [] then page.lines
      else page.lines + Follow(pages, page.nextLine.value, windows[1..])
  }

  function PagesOf(text: string, limit: nat): (nat, nat) -> Page {
    (first: nat, length: nat) => WholePage(text, first, first + length, limit, "")
  }

  lemma NumberedJoins(lines: seq<string>, first: nat, count: nat, further: nat)
    requires 1 <= first && first + count + further - 1 <= |lines|
    ensures Numbered(lines, first, count) + Numbered(lines, first + count, further)
            == Numbered(lines, first, count + further)
  {
  }

  /** What of a page matters to the reader that follows it. */
  predicate Continues(page: Page, lines: seq<string>, first: nat, count: nat) {
    1 <= first && first + count - 1 <= |lines| && page.lines == Numbered(lines, first, count)
    && page.nextLine == if first + count <= |lines| then Some(first + count) else None
  }

  lemma PageContinues(text: string, first: nat, last: nat, limit: nat) returns (count: nat)
    requires 1 <= first <= |Split(text, '\n')| && first <= last
    ensures Continues(WholePage(text, first, last, limit, ""), Split(text, '\n'), first, count)
    ensures count == 0 <==> Cost(first, Split(text, '\n')[first - 1]) > limit
  {
    count := PageContents(text, first, last, limit, "");
  }

  lemma FollowOnePage(pages: (nat, nat) -> Page, first: nat, windows: seq<nat>, lines: seq<string>, count: nat)
    requires windows != [] && Continues(pages(first, windows[0]), lines, first, count)
    ensures Follow(pages, first, windows)
            == if count == 0 || first + count > |lines| then Numbered(lines, first, count)
               else Numbered(lines, first, count) + Follow(pages, first + count, windows[1..])
  {
  }

  /** Following from any line visits every further line once and in order, and - given enough pages -
      reaches the end or stops right before a line that alone exceeds the budget. */
  lemma {:induction false} FollowVisitsInOrder(text: string, first: nat, windows: seq<nat>, limit: nat)
    returns (count: nat)
    requires 1 <= first <= |Split(text, '\n')|
    ensures var lines := Split(text, '\n');
            && first + count - 1 <= |lines|
                && Follow(PagesOf(text, limit), first, windows) == Numbered(lines, first, count)
            && (|windows| > |lines| - first ==>
                  first + count - 1 == |lines| || Cost(first + count, lines[first + count - 1]) > limit)
    decreases |windows|
  {
    var lines := Split(text, '\n');
    forall at: nat, length: nat | 1 <= at <= |lines| ensures GoodPage(PagesOf(text, limit), lines, limit, at, length) {
      var taken := PageContinues(text, at, at + length, limit);
      assert PageTakes(PagesOf(text, limit)(at, length), lines, limit, at, taken);
    }
    count := FollowPages(PagesOf(text, limit), lines, first, windows, limit);
  }

  /** A page continues its start, and is empty only before a line that alone exceeds the budget. */
  ghost predicate GoodPage(pages: (nat, nat) -> Page, lines: seq<string>, limit: nat, at: nat, length: nat)
    requires 1 <= at <= |lines|
  {
    exists count: nat :: PageTakes(pages(at, length), lines, limit, at, count)
  }

  predicate PageTakes(page: Page, lines: seq<string>, limit: nat, at: nat, count: nat)
    requires 1 <= at <= |lines|
  {
    Continues(page, lines, at, count) && (count == 0 <==> Cost(at, lines[at - 1]) > limit)
  }

  lemma {:induction false} FollowPages(pages: (nat, nat) -> Page, lines: seq<string>, first: nat, windows: seq<nat>,
                                       limit: nat)
    returns (count: nat)
    requires 1 <= first <= |lines|
    requires forall at: nat, length: nat :: 1 <= at <= |lines| ==> GoodPage(pages, lines, limit, at, length)
    ensures first + count - 1 <= |lines| && Follow(pages, first, windows) == Numbered(lines, first, count)
    ensures |windows| > |lines| - first ==>
              first + count - 1 == |lines| || Cost(first + count, lines[first + count - 1]) > limit
    decreases |windows|
  {
    if windows == [] {
      count := 0;
    } else {
      assert GoodPage(pages, lines, limit, first, windows[0]);
      count :| PageTakes(pages(first, windows[0]), lines, limit, first, count);
      if 0 < count && first + count <= |lines| {
        var further := FollowPages(pages, lines, first + count, windows[1..], limit);
        FollowJoins(pages, lines, first, windows, count, further);
        count := count + further;
      } else {
        FollowOnePage(pages, first, windows, lines, count);
      }
    }
  }

  lemma {:induction false} FollowJoins(pages: (nat, nat) -> Page, lines: seq<string>, first: nat, windows: seq<nat>,
                                       count: nat, further: nat)
    requires windows != [] && Continues(pages(first, windows[0]), lines, first, count)
    requires 0 < count && first + count + further - 1 <= |lines| && first + count <= |lines|
    requires Follow(pages, first + count, windows[1..]) == Numbered(lines, first + count, further)
    ensures Follow(pages, first, windows) == Numbered(lines, first, count + further)
  {
    FollowOnePage(pages, first, windows, lines, count);
    NumberedJoins(lines, first, count, further);
  }

  // ----- the list of paths

  datatype ListFailure = PathTooLong | ListTooLong | Unterminated

  const MAX_PATH := 65536
  const MAX_CHARACTERS := 32 * 1024 * 1024
  const MAX_FILES := 1000000

  function TotalLength(paths: seq<string>): nat {
    if paths == [] then 0 else TotalLength(paths[..|paths| - 1]) + |paths[|paths| - 1]|
  }

  function NonEmpty(parts: seq<string>): seq<string> {
    if parts == [] then []
    else NonEmpty(parts[..|parts| - 1]) + (if parts[|parts| - 1] == "" then [] else [parts[|parts| - 1]])
  }

  /** Takes one terminated path of the list. */
  function AddPath(list: Outcome<seq<string>, ListFailure>, path: string): Outcome<seq<string>, ListFailure> {
    if list.Refused? then list
    else if |path| > MAX_PATH then Refused(PathTooLong)
    else if path == "" then list
    else if TotalLength(list.value) + |path| > MAX_CHARACTERS || |list.value| >= MAX_FILES then Refused(ListTooLong)
    else Ok(list.value + [path])
  }

  function AddPaths(parts: seq<string>, n: nat): Outcome<seq<string>, ListFailure>
    requires n <= |parts|
  {
    if n == 0 then Ok([]) else AddPath(AddPaths(parts, n - 1), parts[n - 1])
  }

  /** What a reader of the whole output would return: the first limit exceeded, or every path. */
  function WholeList(text: string): Outcome<seq<string>, ListFailure> {
    var parts := Split(text, '\0');
    var list := AddPaths(parts, |parts| - 1);
    if list.Refused? then list
    else if |Last(parts)| > MAX_PATH then Refused(PathTooLong)
    else if Last(parts) != "" then Refused(Unterminated)
    else list
  }

  lemma {:induction false} AddPathsPrefix(parts: seq<string>, more: seq<string>, n: nat)
    requires n <= |parts| && n <= |more| && parts[..n] == more[..n]
    ensures AddPaths(parts, n) == AddPaths(more, n)
  {
    if n > 0 {
      assert parts[..n - 1] == parts[..n][..n - 1] && more[..n - 1] == more[..n][..n - 1];
      assert parts[n - 1] == parts[..n][n - 1] && more[n - 1] == more[..n][n - 1];
      AddPathsPrefix(parts, more, n - 1);
    }
  }

  lemma NonEmptyStep(parts: seq<string>, n: nat)
    requires n < |parts|
    ensures NonEmpty(parts[..n + 1]) == NonEmpty(parts[..n]) + if parts[n] == "" then [] else [parts[n]]
  {
    assert parts[..n + 1][..n] == parts[..n];
  }

  predicate WithinLimits(kept: seq<string>) {
    TotalLength(kept) <= MAX_CHARACTERS && |kept| <= MAX_FILES
  }

  lemma PathAdded(list: Outcome<seq<string>, ListFailure>, short: bool, before: seq<string>, path: string)
    requires list.Ok? <==> short && WithinLimits(before)
    requires list.Ok? ==> list.value == before
    ensures var kept := before + if path == "" then [] else [path];
            && (AddPath(list, path).Ok? <==> short && |path| <= MAX_PATH && WithinLimits(kept))
            && (AddPath(list, path).Ok? ==> AddPath(list, path).value == kept)
  {
    var kept := before + if path == "" then [] else [path];
    if path == "" {
      assert kept == before;
    } else {
      assert kept[..|kept| - 1] == before;
    }
  }

  predicate ShortPaths(parts: seq<string>, n: nat)
    requires n <= |parts|
  {
    forall i :: 0 <= i < n ==> |parts[i]| <= MAX_PATH
  }

  lemma {:induction false} PathsAdded(parts: seq<string>, n: nat)
    requires n <= |parts|
    ensures AddPaths(parts, n).Ok? <==> ShortPaths(parts, n) && WithinLimits(NonEmpty(parts[..n]))
    ensures AddPaths(parts, n).Ok? ==> AddPaths(parts, n).value == NonEmpty(parts[..n])
  {
    if n > 0 {
      PathsAdded(parts, n - 1);
      NonEmptyStep(parts, n - 1);
      PathAdded(AddPaths(parts, n - 1), ShortPaths(parts, n - 1), NonEmpty(parts[..n - 1]), parts[n - 1]);
      assert ShortPaths(parts, n) <==> ShortPaths(parts, n - 1) && |parts[n - 1]| <= MAX_PATH;
    }
  }

  /** The list is returned exactly when the output is terminated and within every limit, and then it is
      the output split at its terminators, without empty paths. */
  lemma {:induction false} WholeListIsTheSplit(text: string)
    ensures var parts := Split(text, '\0');
            var kept := NonEmpty(parts[..|parts| - 1]);
            && (WholeList(text).Ok? <==>
                  Last(parts) == "" && ShortPaths(parts, |parts|) && WithinLimits(kept))
            && (WholeList(text).Ok? ==> WholeList(text).value == kept)
  {
    var parts := Split(text, '\0');
    PathsAdded(parts, |parts| - 1);
    assert ShortPaths(parts, |parts|) <==> ShortPaths(parts, |parts| - 1) && |Last(parts)| <= MAX_PATH;
  }

  /** The first path that is too long by itself, reached within the limits. */
  predicate TooLongAt(parts: seq<string>, k: nat) {
    k < |parts| && |parts[k]| > MAX_PATH && ShortPaths(parts, k) && WithinLimits(NonEmpty(parts[..k]))
  }

  ghost predicate SomeTooLong(parts: seq<string>, n: nat) {
    exists k :: 0 <= k < n && TooLongAt(parts, k)
  }

  /** Why a list is refused: at the first path that is too long by itself, if the list was within its limits up to
      there; for a rest without terminator, if everything else is in order; and otherwise for its size. */
  lemma {:induction false} RefusedBecause(text: string)
    ensures var parts := Split(text, '\0');
            && (WholeList(text) == Refused(PathTooLong) <==> SomeTooLong(parts, |parts|))
            && (WholeList(text) == Refused(Unterminated) <==>
                  Last(parts) != "" && ShortPaths(parts, |parts|) && WithinLimits(NonEmpty(parts[..|parts| - 1])))
  {
    var parts := Split(text, '\0');
    var n := |parts| - 1;
    PathsAdded(parts, n);
    PathsTooLong(parts, n);
    assert ShortPaths(parts, |parts|) <==> ShortPaths(parts, n) && |parts[n]| <= MAX_PATH;
    OneMorePlace(parts, n);
  }

  lemma OneMorePlace(parts: seq<string>, n: nat)
    ensures SomeTooLong(parts, n + 1) <==> SomeTooLong(parts, n) || TooLongAt(parts, n)
  {
  }

  lemma {:induction false} PathsTooLong(parts: seq<string>, n: nat)
    requires n <= |parts|
    ensures AddPaths(parts, n) == Refused(PathTooLong) <==> SomeTooLong(parts, n)
    ensures AddPaths(parts, n) != Refused(Unterminated)
  {
    if n > 0 {
      PathsTooLong(parts, n - 1);
      PathsAdded(parts, n - 1);
      OneMorePlace(parts, n - 1);
    }
  }

  function Terminated(paths: seq<string>): string {
    if paths == [] then "" else Terminated(paths[..|paths| - 1]) + paths[|paths| - 1] + "\0"
  }

  /** The limit on the size of a list counts its characters without the terminators. */
  lemma {:induction false} LengthIsCounted(paths: seq<string>)
    ensures TotalLength(paths) + |paths| == |Terminated(paths)|
  {
    if paths != [] {
      LengthIsCounted(paths[..|paths| - 1]);
    }
  }

  lemma {:induction false} SplitTerminated(paths: seq<string>)
    requires forall i :: 0 <= i < |paths| ==> '\0' !in paths[i]
    ensures Split(Terminated(paths), '\0') == paths + [""]
  {
    if paths != [] {
      var n := |paths| - 1;
      var before := Terminated(paths[..n]);
      SplitTerminated(paths[..n]);
      SplitExtends(before, paths[n], '\0');
      SplitEnds(before + paths[n], '\0');
      assert "" + paths[n] == paths[n];
      assert paths[..n] + [""] == Split(before, '\0');
      assert (paths[..n] + [""])[..n] == paths[..n];
      assert paths == paths[..n] + [paths[n]];
    }
  }

  lemma {:induction false} NonEmptyKeeps(paths: seq<string>)
    requires forall i :: 0 <= i < |paths| ==> paths[i] != ""
    ensures NonEmpty(paths) == paths
  {
    if paths != [] {
      NonEmptyKeeps(paths[..|paths| - 1]);
      assert paths == paths[..|paths| - 1] + [paths[|paths| - 1]];
    }
  }

  /** Any paths within the limits, each written with its terminator, are listed as they are. */
  lemma {:induction false} ListingGivesBack(paths: seq<string>)
    requires forall i :: 0 <= i < |paths| ==> paths[i] != "" && '\0' !in paths[i] && |paths[i]| <= 65536
    requires |paths| <= 1000000 && TotalLength(paths) <= 32 * 1024 * 1024
    ensures WholeList(Terminated(paths)) == Ok(paths)
  {
    SplitTerminated(paths);
    NonEmptyKeeps(paths);
    WholeListIsTheSplit(Terminated(paths));
    assert (paths + [""])[..|paths|] == paths;
    assert ShortPaths(paths + [""], |paths| + 1);
  }

  lemma {:induction false} PartsGrow(text: string, c: char)
    ensures var parts, longer := Split(text, '\0'), Split(text + [c], '\0');
            var n := |parts| - 1;
            && |longer| == (if c == '\0' then n + 2 else n + 1) && longer[..n] == parts[..n]
            && (if c == '\0' then longer[n] == parts[n] else |longer[n]| > |parts[n]|)
  {
    if c == '\0' {
      SplitEnds(text, '\0');
    } else {
      SplitExtends(text, [c], '\0');
    }
  }

  /** Ending a path adds it to the list and opens an empty one. */
  lemma {:induction false} OnePathMore(text: string)
    ensures var parts, longer := Split(text, '\0'), Split(text + "\0", '\0');
            && |longer| == |parts| + 1 && Last(longer) == ""
            && AddPaths(longer, |longer| - 1) == AddPath(AddPaths(parts, |parts| - 1), Last(parts))
  {
    var parts, longer := Split(text, '\0'), Split(text + "\0", '\0');
    SplitEnds(text, '\0');
    AddPathsPrefix(parts, longer, |parts| - 1);
    assert longer[|parts| - 1] == Last(parts);
  }

  /** A fragment makes the open path longer and leaves the others alone. */
  lemma {:induction false} LastPathLonger(text: string, fragment: string)
    requires '\0' !in fragment
    ensures var parts, longer := Split(text, '\0'), Split(text + fragment, '\0');
            && |longer| == |parts| && Last(longer) == Last(parts) + fragment
            && AddPaths(longer, |longer| - 1) == AddPaths(parts, |parts| - 1)
  {
    var parts, longer := Split(text, '\0'), Split(text + fragment, '\0');
    SplitExtends(text, fragment, '\0');
    AddPathsPrefix(parts, longer, |parts| - 1);
  }

  class PathLister {
    var files: seq<string>
    var pending: string
    var characters: nat
    var failure: Option<ListFailure>

    constructor ()
      ensures Lists("")
    {
      files, pending, characters, failure := [], "", 0, None;
    }

    /** The list after the output seen so far; a failure stays the failure of whatever follows. */
    ghost predicate Lists(seen: string)
      reads this
    {
      var parts := Split(seen, '\0');
      ListState(AddPaths(parts, |parts| - 1), Last(parts))
    }

    /** The fields for a list of ended paths and an open one. */
    ghost predicate ListState(list: Outcome<seq<string>, ListFailure>, open: string)
      reads this
    {
      match failure
      case Some(reason) => list == Refused(reason) || (list.Ok? && |open| > MAX_PATH && reason == PathTooLong)
      case None => list == Ok(files) && characters == TotalLength(files) && pending == open && |pending| <= MAX_PATH
    }

    /** Once the list failed, more output does not change why. */
    lemma FailureStays(seen: string, more: string)
      requires Lists(seen) && failure.Some?
      ensures Lists(seen + more)
      decreases |more|
    {
      if more == "" {
        assert seen + more == seen;
      } else {
        var n := |more| - 1;
        FailureStays(seen, more[..n]);
        assert seen + more == seen + more[..n] + [more[n]];
        FailureStaysBy(seen + more[..n], more[n]);
      }
    }

    lemma FailureStaysBy(text: string, c: char)
      requires Lists(text) && failure.Some?
      ensures Lists(text + [c])
    {
      var parts, longer := Split(text, '\0'), Split(text + [c], '\0');
      PartsGrow(text, c);
      AddPathsPrefix(parts, longer, |parts| - 1);
    }

    method Fragment(fragment: string, ghost seen: string)
      requires Lists(seen) && failure.None? && '\0' !in fragment
      modifies this
      ensures Lists(seen + fragment)
    {
      ghost var parts := Split(seen, '\0');
      LastPathLonger(seen, fragment);
      Extend(fragment, AddPaths(parts, |parts| - 1), Last(parts));
    }

    method Extend(fragment: string, ghost list: Outcome<seq<string>, ListFailure>, ghost open: string)
      requires ListState(list, open) && failure.None?
      modifies this
      ensures ListState(list, open + fragment)
    {
      pending := pending + fragment;
      if |pending| > MAX_PATH {
        failure := Some(PathTooLong);
      }
    }

    method EndPath(ghost seen: string)
      requires Lists(seen) && failure.None?
      modifies this
      ensures Lists(seen + "\0")
    {
      OnePathMore(seen);
      if pending != "" {
        characters := characters + |pending|;
        if characters > MAX_CHARACTERS || |files| >= MAX_FILES {
          failure := Some(ListTooLong);
          return;
        }
        files := files + [pending];
      }
      pending := "";
    }

    method EndPathAt(chunk: string, stop: nat, ghost seen: string)
      requires stop < |chunk| && chunk[stop] == '\0' && failure.None? && Lists(seen + chunk[..stop])
      modifies this
      ensures Lists(if failure.Some? then seen + chunk else seen + chunk[..stop + 1])
    {
      EndPath(seen + chunk[..stop]);
      assert seen + chunk[..stop] + "\0" == seen + chunk[..stop + 1];
      if failure.Some? {
        RestIgnored(chunk, stop + 1, seen);
      }
    }

    /** After a failure the rest of the chunk does not matter. */
    lemma RestIgnored(chunk: string, stop: nat, seen: string)
      requires stop <= |chunk| && failure.Some? && Lists(seen + chunk[..stop])
      ensures Lists(seen + chunk)
    {
      assert (seen + chunk[..stop]) + chunk[stop..] == seen + chunk;
      FailureStays(seen + chunk[..stop], chunk[stop..]);
    }

    /** The rest of the open path that is in the chunk, and its end if that is there too. */
    method ConsumePath(chunk: string, offset: nat, ghost seen: string) returns (stop: nat)
      requires offset <= |chunk| && failure.None? && Lists(seen + chunk[..offset])
      modifies this
      ensures offset <= stop <= |chunk|
      ensures if failure.Some? || stop == |chunk| then Lists(seen + chunk) else Lists(seen + chunk[..stop + 1])
    {
      stop := IndexOf(chunk, '\0', offset);
      Fragment(chunk[offset..stop], seen + chunk[..offset]);
      assert seen + chunk[..offset] + chunk[offset..stop] == seen + chunk[..stop];
      if failure.None? && stop < |chunk| {
        EndPathAt(chunk, stop, seen);
      } else if failure.Some? {
        RestIgnored(chunk, stop, seen);
      } else {
        assert chunk[..stop] == chunk;
      }
    }

    /** One chunk of the stream; after a failure chunks are ignored. */
    method Consume(chunk: string, ghost seen: string)
      requires Lists(seen)
      modifies this
      ensures Lists(seen + chunk)
    {
      if failure.Some? {
        FailureStays(seen, chunk);
        return;
      }
      var offset := 0;
      assert seen + chunk[..0] == seen;
      while true
        invariant offset <= |chunk| && failure.None? && Lists(seen + chunk[..offset])
        decreases |chunk| - offset
      {
        var stop := ConsumePath(chunk, offset, seen);
        if failure.Some? || stop == |chunk| {
          return;
        }
        offset := stop + 1;
      }
    }
  }

  /** However the stream is cut, the list - or the reason there is none - is that of the whole output. */
  method ListGitTreePaths(chunks: seq<string>) returns (list: Outcome<seq<string>, ListFailure>)
    ensures list == WholeList(Concat(chunks))
  {
    var lister := new PathLister();
    assert chunks[..0] == [];
    for k := 0 to |chunks|
      invariant lister.Lists(Concat(chunks[..k]))
    {
      ConcatAppends(chunks, k);
      lister.Consume(chunks[k], Concat(chunks[..k]));
    }
    assert chunks[..|chunks|] == chunks;
    if lister.failure.Some? {
      return Refused(lister.failure.value);
    }
    return if lister.pending != "" then Refused(Unterminated) else Ok(lister.files);
  }
}
