/** The mirror of a command's output: all of it goes to a log, and a bounded head and tail of it are shown.
    Whatever the chunks, both agree with what the whole output says. */
module BashOutputMirror {
  import opened Utf8

  const HEAD_MAX_BYTES: nat := 8 * 1024
  const HEAD_MAX_LINES: nat := 200
  const TAIL_MAX_BYTES: nat := 32 * 1024
  const TAIL_MAX_LINES: nat := 800

  type Bytes = seq<bv8>

  /** How many of the first `n` bytes are newlines. */
  function NewlinesTo(bytes: Bytes, n: nat): nat
    requires n <= |bytes|
  {
    if n == 0 then 0 else NewlinesTo(bytes, n - 1) + (if bytes[n - 1] == NEWLINE then 1 else 0)
  }

  function Newlines(bytes: Bytes): nat {
    NewlinesTo(bytes, |bytes|)
  }

  lemma {:induction false} NewlinesToSame(a: Bytes, b: Bytes, n: nat)
    requires n <= |a| && n <= |b| && a[..n] == b[..n]
    ensures NewlinesTo(a, n) == NewlinesTo(b, n)
  {
    if n > 0 {
      assert a[..n][n - 1] == b[..n][n - 1];
      assert a[..n - 1] == a[..n][..n - 1] == b[..n - 1];
      NewlinesToSame(a, b, n - 1);
    }
  }

  lemma {:induction false} NewlinesOfBoth(a: Bytes, b: Bytes, n: nat)
    requires n <= |b|
    ensures NewlinesTo(a + b, |a| + n) == Newlines(a) + NewlinesTo(b, n)
  {
    if n == 0 {
      NewlinesToSame(a, a + b, |a|);
    } else {
      NewlinesOfBoth(a, b, n - 1);
    }
  }

  lemma {:induction false} NewlinesAreCounted(bytes: Bytes, n: nat)
    requires n <= |bytes|
    ensures NewlinesTo(bytes, n) == |set i | 0 <= i < n && bytes[i] == 0x0a|
  {
    var all := set i | 0 <= i < n && bytes[i] == 0x0a;
    if n == 0 {
      assert all == {};
    } else {
      NewlinesAreCounted(bytes, n - 1);
      var before := set i | 0 <= i < n - 1 && bytes[i] == 0x0a;
      assert all == if bytes[n - 1] == 0x0a then before + {n - 1} else before;
    }
  }

  function NewlinesFrom(bytes: Bytes, from: nat): int
    requires from <= |bytes|
  {
    Newlines(bytes) - NewlinesTo(bytes, from)
  }

  lemma NewlinesOfSuffix(bytes: Bytes, from: nat, more: nat)
    requires from + more <= |bytes|
    ensures NewlinesFrom(bytes[from..], more) == NewlinesFrom(bytes, from + more)
    ensures NewlinesFrom(bytes, from) == Newlines(bytes[from..])
  {
    assert bytes[..from] + bytes[from..] == bytes;
    NewlinesOfBoth(bytes[..from], bytes[from..], more);
    NewlinesOfBoth(bytes[..from], bytes[from..], |bytes| - from);
    NewlinesToSame(bytes, bytes[..from], from);
  }

  lemma {:induction false} NewlinesGrow(bytes: Bytes, n: nat, m: nat)
    requires n <= m <= |bytes|
    ensures NewlinesTo(bytes, n) <= NewlinesTo(bytes, m)
  {
    if n < m {
      NewlinesGrow(bytes, n, m - 1);
    }
  }

  method NewlineCount(data: Bytes) returns (count: nat)
    ensures count == Newlines(data)
  {
    count := 0;
    for i := 0 to |data|
      invariant count == NewlinesTo(data, i)
    {
      if data[i] == NEWLINE {
        count := count + 1;
      }
    }
  }

  // ----- the head

  /** A prefix of this length keeps to both budgets: the newline that exhausts the lines is its last byte. */
  predicate Within(data: Bytes, bytesLeft: int, linesLeft: int, n: nat)
    requires n <= |data|
  {
    n == 0 || (n <= bytesLeft && NewlinesTo(data, n - 1) < linesLeft)
  }

  lemma ShorterIsWithin(data: Bytes, bytesLeft: int, linesLeft: int, n: nat, m: nat)
    requires n <= m <= |data| && Within(data, bytesLeft, linesLeft, m)
    ensures Within(data, bytesLeft, linesLeft, n)
  {
    if n > 0 {
      NewlinesGrow(data, n - 1, m - 1);
    }
  }

  /** The cut falls where the budget ends, or before the continuation bytes that stand there. */
  ghost predicate CutAt(data: Bytes, bytesLeft: int, linesLeft: int, n: nat, end: nat) {
    && n <= end < |data|
    && Within(data, bytesLeft, linesLeft, end) && !Within(data, bytesLeft, linesLeft, end + 1)
    && forall j :: n < j <= end ==> Continuation(data[j])
  }

  ghost predicate Cut(data: Bytes, bytesLeft: int, linesLeft: int, n: nat) {
    exists end: nat :: CutAt(data, bytesLeft, linesLeft, n, end)
  }

  method Utf8SafeEnd(data: Bytes, proposed: nat) returns (end: nat)
    ensures proposed >= |data| ==> end == |data|
    ensures proposed < |data| ==> end <= proposed
    ensures proposed < |data| ==> forall j :: end < j <= proposed ==> Continuation(data[j])
    ensures proposed < |data| && end > 0 ==> !Continuation(data[end])
  {
    if proposed >= |data| {
      return |data|;
    }
    end := proposed;
    while end > 0 && Continuation(data[end])
      invariant 0 <= end <= proposed
      invariant forall j :: end < j <= proposed ==> Continuation(data[j])
    {
      end := end - 1;
    }
  }

  method BudgetEnd(data: Bytes, bytesLeft: int, linesLeft: int) returns (end: nat)
    requires bytesLeft > 0 && linesLeft > 0 && data != []
    ensures end <= |data| && Within(data, bytesLeft, linesLeft, end)
    ensures end < |data| ==> !Within(data, bytesLeft, linesLeft, end + 1)
  {
    end := if |data| <= bytesLeft then |data| else bytesLeft;
    var newlines := 0;
    var i := 0;
    while i < end
      invariant i <= end == (if |data| <= bytesLeft then |data| else bytesLeft)
      invariant newlines == NewlinesTo(data, i) && newlines < linesLeft
    {
      if data[i] == NEWLINE {
        newlines := newlines + 1;
        if newlines >= linesLeft {
          return i + 1;
        }
      }
      i := i + 1;
    }
    NewlinesGrow(data, end - 1, end);
  }

  method PrefixWithinBudget(data: Bytes, bytesLeft: int, linesLeft: int) returns (length: nat)
    ensures length <= |data| && Within(data, bytesLeft, linesLeft, length)
    ensures length == |data| <==> Within(data, bytesLeft, linesLeft, |data|)
    ensures length < |data| ==> Cut(data, bytesLeft, linesLeft, length)
  {
    if bytesLeft <= 0 || linesLeft <= 0 || data == [] {
      if data != [] {
        NothingLeft(data, bytesLeft, linesLeft);
      }
      return 0;
    }
    var end := BudgetEnd(data, bytesLeft, linesLeft);
    length := Utf8SafeEnd(data, end);
    ShorterIsWithin(data, bytesLeft, linesLeft, length, end);
    if end < |data| {
      assert CutAt(data, bytesLeft, linesLeft, length, end);
      LongerIsOut(data, bytesLeft, linesLeft, end);
    }
  }

  lemma NothingLeft(data: Bytes, bytesLeft: int, linesLeft: int)
    requires (bytesLeft <= 0 || linesLeft <= 0) && data != []
    ensures !Within(data, bytesLeft, linesLeft, |data|) && CutAt(data, bytesLeft, linesLeft, 0, 0)
  {
  }

  lemma LongerIsOut(data: Bytes, bytesLeft: int, linesLeft: int, end: nat)
    requires end < |data| && !Within(data, bytesLeft, linesLeft, end + 1)
    ensures !Within(data, bytesLeft, linesLeft, |data|)
  {
    if Within(data, bytesLeft, linesLeft, |data|) {
      ShorterIsWithin(data, bytesLeft, linesLeft, end + 1, |data|);
    }
  }

  predicate InHead(output: Bytes, n: nat)
    requires n <= |output|
  {
    Within(output, HEAD_MAX_BYTES, HEAD_MAX_LINES, n)
  }

  /** That is, 8 KiB and 200 lines: up to its last byte it has fewer than 200 newlines. */
  lemma InHeadExactly(output: Bytes, n: nat)
    requires 0 < n <= |output|
    ensures InHead(output, 0)
    ensures InHead(output, n) <==> n <= 8192 && |set i | 0 <= i < n - 1 && output[i] == 0x0a| < 200
  {
    NewlinesAreCounted(output, n - 1);
  }

  /** What is shown first of a whole output: all of it if it fits, otherwise the longest prefix that
      does, but for continuation bytes at its end. Chunks are not mentioned. */
  ghost predicate HeadOf(output: Bytes, n: nat) {
    if InHead(output, |output|) then n == |output|
    else Cut(output, HEAD_MAX_BYTES, HEAD_MAX_LINES, n)
  }

  /** The budgets are kept, and of an output made of whole characters at most three bytes less are shown
      than they allow. */
  lemma HeadBounds(output: Bytes, n: nat)
    requires Text(output) && HeadOf(output, n)
    ensures n <= |output| && n <= HEAD_MAX_BYTES && Newlines(output[..n]) <= HEAD_MAX_LINES
    ensures !InHead(output, |output|) ==>
              exists end: nat :: n <= end <= n + 3 && end < |output| && InHead(output, end) && !InHead(output, end + 1)
  {
    HeadKeepsBudgets(output, n);
    if !InHead(output, |output|) {
      var end: nat :| CutAt(output, HEAD_MAX_BYTES, HEAD_MAX_LINES, n, end);
      ContinuationsAreShort(output, 0, n + 1, end + 1);
      assert InHead(output, end) && !InHead(output, end + 1);
    }
  }

  lemma HeadKeepsBudgets(output: Bytes, n: nat)
    requires HeadOf(output, n)
    ensures n <= |output| && n <= HEAD_MAX_BYTES && Newlines(output[..n]) <= HEAD_MAX_LINES
  {
    if !InHead(output, |output|) {
      var end: nat :| CutAt(output, HEAD_MAX_BYTES, HEAD_MAX_LINES, n, end);
      ShorterIsWithin(output, HEAD_MAX_BYTES, HEAD_MAX_LINES, n, end);
    }
    NewlinesToSame(output, output[..n], n);
  }

  /** The remaining budgets decide about a chunk what the full ones decide about the output. */
  lemma ChunkInHead(output: Bytes, data: Bytes, n: nat)
    requires n <= |data| && InHead(output, |output|)
    ensures Within(data, HEAD_MAX_BYTES - |output|, HEAD_MAX_LINES - Newlines(output), n)
            <==> InHead(output + data, |output| + n)
  {
    ChunkWithin(output, data, HEAD_MAX_BYTES, HEAD_MAX_LINES, n);
  }

  lemma ChunkWithin(output: Bytes, data: Bytes, bytes: int, lines: int, n: nat)
    requires n <= |data| && Within(output, bytes, lines, |output|)
    ensures Within(data, bytes - |output|, lines - Newlines(output), n)
            <==> Within(output + data, bytes, lines, |output| + n)
  {
    if n == 0 {
      SameWithin(output, output + data, bytes, lines, |output|);
    } else {
      NewlinesOfBoth(output, data, n - 1);
    }
  }

  lemma SameWithin(output: Bytes, all: Bytes, bytes: int, lines: int, n: nat)
    requires n <= |output| && output <= all
    ensures Within(output, bytes, lines, n) <==> Within(all, bytes, lines, n)
  {
    if n > 0 {
      NewlinesToSame(output, all, n - 1);
    }
  }

  lemma ContinuationsInChunk(output: Bytes, data: Bytes, n: nat, end: nat)
    requires n <= end < |data| && forall j :: n < j <= end ==> Continuation(data[j])
    ensures forall j :: |output| + n < j <= |output| + end ==> Continuation((output + data)[j])
  {
    assert forall j :: |output| <= j < |output + data| ==> (output + data)[j] == data[j - |output|];
  }

  lemma ChunkCut(output: Bytes, data: Bytes, n: nat)
    requires InHead(output, |output|)
    requires Cut(data, HEAD_MAX_BYTES - |output|, HEAD_MAX_LINES - Newlines(output), n)
    ensures HeadOf(output + data, |output| + n) && !InHead(output + data, |output + data|)
  {
    var end: nat :| CutAt(data, HEAD_MAX_BYTES - |output|, HEAD_MAX_LINES - Newlines(output), n, end);
    assert InHead(output + data, |output| + end) by {
      ChunkInHead(output, data, end);
    }
    assert !InHead(output + data, |output| + end + 1) by {
      ChunkInHead(output, data, end + 1);
    }
    ContinuationsInChunk(output, data, n, end);
    CutMakesHead(output + data, |output| + n, |output| + end);
  }

  lemma CutMakesHead(output: Bytes, n: nat, end: nat)
    requires CutAt(output, HEAD_MAX_BYTES, HEAD_MAX_LINES, n, end)
    ensures HeadOf(output, n) && !InHead(output, |output|)
  {
    LongerIsOut(output, HEAD_MAX_BYTES, HEAD_MAX_LINES, end);
  }

  /** More output does not move a head that is already cut. */
  lemma HeadStays(output: Bytes, data: Bytes, n: nat)
    requires HeadOf(output, n) && !InHead(output, |output|)
    ensures HeadOf(output + data, n) && !InHead(output + data, |output + data|)
  {
    var all := output + data;
    var end: nat :| CutAt(output, HEAD_MAX_BYTES, HEAD_MAX_LINES, n, end);
    SameWithin(output, all, HEAD_MAX_BYTES, HEAD_MAX_LINES, end);
    SameWithin(output, all, HEAD_MAX_BYTES, HEAD_MAX_LINES, end + 1);
    CutMakesHead(all, n, end);
  }

  // ----- the tail

  function Joined(chunks: seq<Bytes>): Bytes {
    if chunks == [] then [] else chunks[0] + Joined(chunks[1..])
  }

  lemma {:induction false} JoinedAppends(chunks: seq<Bytes>, data: Bytes)
    ensures Joined(chunks + [data]) == Joined(chunks) + data
  {
    if chunks == [] {
      assert [data][1..] == [];
    } else {
      JoinedAppends(chunks[1..], data);
      assert (chunks + [data])[1..] == chunks[1..] + [data];
    }
  }

  /** Where a window of limited size over everything from `head` on begins. */
  function WindowStart(output: Bytes, head: nat): nat
    requires head <= |output|
  {
    if |output| - head <= TAIL_MAX_BYTES then head else |output| - TAIL_MAX_BYTES
  }

  /** The last bytes of what comes behind `head`: all of it, or as much as the limit allows. */
  function Window(output: Bytes, head: nat): Bytes
    requires head <= |output|
  {
    output[WindowStart(output, head)..]
  }

  function Last(bytes: Bytes): Bytes {
    Window(bytes, 0)
  }

  /** The window over a longer output is the end of the window before and the new data. */
  lemma WindowMoves(output: Bytes, head: nat, data: Bytes)
    requires head <= |output|
    ensures Last(Window(output, head) + data) == Window(output + data, head)
  {
  }

  /** The last lines of the bytes from `floor` on: all of them, or as many as allowed, from the start of a line. */
  ghost predicate LastLines(bytes: Bytes, floor: nat, from: nat) {
    && floor <= from <= |bytes| && NewlinesFrom(bytes, from) <= TAIL_MAX_LINES
    && (from > floor ==> bytes[from - 1] == NEWLINE && NewlinesFrom(bytes, from) == TAIL_MAX_LINES)
  }

  ghost predicate LeadingContinuations(bytes: Bytes, n: nat) {
    && n <= |bytes| && (forall i :: 0 <= i < n ==> Continuation(bytes[i]))
    && (n < |bytes| ==> !Continuation(bytes[n]))
  }

  /** What is shown of a window: without the rest of a character it cuts, and no more lines than allowed. */
  ghost predicate Shown(window: Bytes, shown: Bytes) {
    exists n: nat, from: nat :: ShownFrom(window, n, from, shown)
  }

  ghost predicate ShownFrom(window: Bytes, n: nat, from: nat, shown: Bytes) {
    LeadingContinuations(window, n) && LastLines(window, n, from) && shown == window[from..]
  }

  class RollingTail {
    var chunks: seq<Bytes>
    var bytes: nat

    ghost predicate Valid()
      reads this
    {
      bytes == |Joined(chunks)| <= TAIL_MAX_BYTES
    }

    ghost function Contents(): Bytes
      reads this
    {
      Joined(chunks)
    }

    constructor ()
      ensures Valid() && Contents() == []
    {
      chunks := [];
      bytes := 0;
    }

    /** The window afterwards is the end of the window before and the new data. */
    method Append(data: Bytes)
      requires Valid()
      modifies this
      ensures Valid() && Contents() == Last(old(Contents()) + data)
    {
      if data == [] {
        assert Contents() + data == Contents();
        return;
      }
      JoinedAppends(chunks, data);
      chunks := chunks + [data];
      bytes := bytes + |data|;
      ghost var all := Joined(chunks);
      while bytes > TAIL_MAX_BYTES && chunks != []
        invariant bytes == |Joined(chunks)|
        invariant Last(Joined(chunks)) == Last(all)
        decreases if bytes > TAIL_MAX_BYTES then 1 else 0, |chunks|
      {
        DropFirst();
      }
    }

    method DropFirst()
      requires bytes == |Joined(chunks)| && bytes > TAIL_MAX_BYTES && chunks != []
      modifies this
      ensures bytes == |Joined(chunks)|
      ensures Last(Joined(chunks)) == Last(old(Joined(chunks)))
      ensures bytes <= TAIL_MAX_BYTES || |chunks| < |old(chunks)|
    {
      var excess := bytes - TAIL_MAX_BYTES;
      var first := chunks[0];
      ghost var before := Joined(chunks);
      assert before == first + Joined(chunks[1..]);
      if |first| <= excess {
        chunks := chunks[1..];
        bytes := bytes - |first|;
      } else {
        chunks := [first[excess..]] + chunks[1..];
        assert chunks[1..] == old(chunks)[1..];
        assert Joined(chunks) == before[excess..];
        bytes := bytes - excess;
      }
    }

    method Content() returns (result: Bytes)
      requires Valid()
      ensures Shown(Contents(), result)
    {
      var window := Joined(chunks);
      var start := 0;
      while start < |window| && Continuation(window[start])
        invariant start <= |window| && forall i :: 0 <= i < start ==> Continuation(window[i])
      {
        start := start + 1;
      }
      var from := StartOfLastLines(window, start);
      result := window[from..];
      assert ShownFrom(window, start, from, result);
    }
  }

  method StartOfLastLines(bytes: Bytes, floor: nat) returns (from: nat)
    requires floor <= |bytes|
    ensures LastLines(bytes, floor, from)
  {
    var newlines := 0;
    var i := |bytes|;
    while i > floor
      invariant floor <= i <= |bytes| && newlines == NewlinesFrom(bytes, i) <= TAIL_MAX_LINES
    {
      i := i - 1;
      if bytes[i] == NEWLINE {
        newlines := newlines + 1;
        if newlines > TAIL_MAX_LINES {
          return i + 1;
        }
      }
    }
    return floor;
  }

  /** The tail starts with a character, has at most 800 lines, and unless that limit is met misses at most
      three bytes of the window. */
  ghost predicate WholeTail(output: Bytes, head: nat, start: nat)
    requires head <= |output|
  {
    && WindowStart(output, head) <= start <= |output| && Boundary(output, start)
    && NewlinesFrom(output, start) <= TAIL_MAX_LINES
    && (NewlinesFrom(output, start) == TAIL_MAX_LINES || start <= WindowStart(output, head) + 3)
  }

  /** Of an output made of whole characters the tail is whole characters too. */
  lemma TailIsWholeCharacters(output: Bytes, head: nat, shown: Bytes)
    requires Text(output) && head <= |output| && Shown(Window(output, head), shown)
    ensures exists start: nat :: start <= |output| && shown == output[start..] && WholeTail(output, head, start)
  {
    var n: nat, from: nat :| ShownFrom(Window(output, head), n, from, shown);
    var at := WindowStart(output, head);
    NewlinesOfSuffix(output, at, from);
    LeadingBytes(output, at, n);
    LinesStart(output, at, n, from);
    assert WholeTail(output, head, at + from);
    assert shown == output[at + from..];
  }

  lemma {:induction false} LeadingBytes(output: Bytes, at: nat, n: nat)
    requires Text(output) && at <= |output| && LeadingContinuations(output[at..], n)
    ensures n <= 3 && Boundary(output, at + n)
  {
    assert forall i :: at <= i < |output| ==> output[i] == output[at..][i - at];
    ContinuationsAreShort(output, 0, at, at + n);
    BoundaryAt(output, 0, at + n);
  }

  lemma LinesStart(output: Bytes, at: nat, n: nat, from: nat)
    requires Text(output) && at <= |output| && n <= from <= |output| - at && Boundary(output, at + n)
    requires from > n ==> output[at..][from - 1] == NEWLINE
    ensures Boundary(output, at + from)
  {
    if from > n {
      BoundaryBehindNewline(output, at + from - 1);
    }
  }

  // ----- one command

  datatype Ending = Returned | LogUnreliable | CommandFailed

  /** What a command's whole output puts before the reader's eyes while it runs. */
  function Preview(output: Bytes, head: nat, notice: Bytes): Bytes
    requires head <= |output|
  {
    output[..head] + (if InHead(output, |output|) then [] else notice)
  }

  class OutputMirror {
    const notice: Bytes
    const tailHeading: Bytes
    const hint: Bytes
    const tail: RollingTail
    var log: Bytes
    var forwarded: Bytes
    var headBytes: nat
    var headLines: nat
    var overflow: bool
    var writeFailed: bool
    var previewFailed: bool
    ghost var output: Bytes
    ghost var head: nat

    ghost predicate HeadValid()
      reads this
    {
      && HeadOf(output, head) && head <= |output|
      && overflow == !InHead(output, |output|)
      && (!overflow ==> headBytes == |output| && headLines == Newlines(output))
    }

    ghost predicate TailValid()
      reads this, tail
    {
      tail.Valid() && head <= |output| && tail.Contents() == Window(output, head)
    }

    ghost predicate LogValid()
      reads this
    {
      log <= output && (!writeFailed ==> log == output)
    }

    ghost predicate PreviewValid()
      reads this
    {
      head <= |output| && Told(Preview(output, head, notice))
    }

    /** The reader took these bytes, or an initial part of them before it failed. */
    ghost predicate Told(due: Bytes)
      reads this
    {
      forwarded <= due && (!previewFailed ==> forwarded == due)
    }

    ghost predicate Valid()
      reads this, tail
    {
      HeadValid() && TailValid() && LogValid() && PreviewValid()
    }

    constructor (notice: Bytes, tailHeading: Bytes, hint: Bytes)
      ensures Valid() && output == [] && fresh(tail)
      ensures this.notice == notice && this.tailHeading == tailHeading && this.hint == hint
    {
      this.notice, this.tailHeading, this.hint := notice, tailHeading, hint;
      tail := new RollingTail();
      log, forwarded, output, head := [], [], [], 0;
      headBytes, headLines := 0, 0;
      overflow, writeFailed, previewFailed := false, false, false;
    }

    /** Writes all of a chunk, however little the system takes at a time; a write it refuses ends the log. */
    method WriteAll(data: Bytes, accepted: seq<int>)
      requires !writeFailed
      modifies this`log, this`writeFailed
      ensures old(log) <= log <= old(log) + data
      ensures !writeFailed ==> log == old(log) + data
    {
      var offset := 0;
      var call := 0;
      while offset < |data|
        invariant offset <= |data| && log == old(log) + data[..offset] && !writeFailed
        decreases |data| - offset
      {
        var written := if call < |accepted| then accepted[call] else 0;
        if written <= 0 {
          writeFailed := true;
          return;
        }
        if written > |data| - offset {
          written := |data| - offset;
        }
        log := log + data[offset..offset + written];
        offset := offset + written;
        call := call + 1;
      }
    }

    /** Passes a piece on unless the reader failed before; what it failed to take counts as not passed on. */
    method Forward(piece: Bytes, heard: bool, ghost due: Bytes)
      requires Told(due)
      modifies this`forwarded, this`previewFailed
      ensures Told(due + piece)
      ensures previewFailed == (old(previewFailed) || (piece != [] && !heard))
    {
      if piece == [] || previewFailed {
        assert due + piece == due || previewFailed;
        return;
      }
      if heard {
        forwarded := forwarded + piece;
      } else {
        previewFailed := true;
      }
    }

    /** One chunk. Log, head and tail afterwards are those of the longer output. */
    method OnData(data: Bytes, accepted: seq<int>, heard: bool, noticeHeard: bool)
      requires Valid()
      modifies this, tail
      ensures Valid() && output == old(output) + data
      ensures old(writeFailed) ==> writeFailed && log == old(log)
    {
      if !writeFailed {
        WriteAll(data, accepted);
      }
      if overflow {
        MoreTail(data);
      } else {
        Show(data, heard, noticeHeard);
      }
    }

    method MoreTail(data: Bytes)
      requires HeadValid() && TailValid() && PreviewValid() && overflow
      modifies this`output, tail
      ensures HeadValid() && TailValid() && PreviewValid() && output == old(output) + data
    {
      WindowMoves(output, head, data);
      HeadStays(output, data, head);
      assert (output + data)[..head] == output[..head];
      tail.Append(data);
      output := output + data;
    }

    method Show(data: Bytes, heard: bool, noticeHeard: bool)
      requires HeadValid() && TailValid() && PreviewValid() && !overflow
      modifies this`output, this`head, this`headBytes, this`headLines, this`overflow
      modifies this`forwarded, this`previewFailed, tail
      ensures HeadValid() && TailValid() && PreviewValid() && output == old(output) + data
    {
      ghost var before := output;
      assert Preview(before, head, notice) == before && tail.Contents() == [];
      var length := MoreHead(data, heard);
      if length < |data| {
        ShowRest(data[length..], noticeHeard, before + data[..length]);
      }
      assert TailValid() by {
        ChunkSuffix(before, data, length);
      }
      assert PreviewValid() by {
        PreviewAfter(before, data, length, notice);
      }
    }

    method MoreHead(data: Bytes, heard: bool) returns (length: nat)
      requires HeadValid() && !overflow && Told(output)
      modifies this`output, this`head, this`headBytes, this`headLines, this`overflow, this`forwarded, this`previewFailed
      ensures HeadValid() && output == old(output) + data && head == |old(output)| + length
      ensures length <= |data| && overflow == (length < |data|)
      ensures Told(old(output) + data[..length])
    {
      length := PrefixWithinBudget(data, HEAD_MAX_BYTES - headBytes, HEAD_MAX_LINES - headLines);
      ShownPrefix(output, data, length);
      CountBoth(output, data);
      ShowHead(data, length, heard, output);
      overflow := length < |data|;
      head := head + length;
      output := output + data;
    }

    method ShowHead(data: Bytes, length: nat, heard: bool, ghost due: Bytes)
      requires length <= |data| && Told(due)
      modifies this`headBytes, this`headLines, this`forwarded, this`previewFailed
      ensures headBytes == old(headBytes) + length && headLines == old(headLines) + NewlinesTo(data, length)
      ensures Told(due + data[..length])
    {
      if length > 0 {
        var preview := data[..length];
        NewlinesToSame(data, preview, length);
        headBytes := headBytes + |preview|;
        var lines := NewlineCount(preview);
        headLines := headLines + lines;
        Forward(preview, heard, due);
      } else {
        assert due + data[..length] == due;
      }
    }

    method ShowRest(rest: Bytes, noticeHeard: bool, ghost due: Bytes)
      requires tail.Valid() && tail.Contents() == [] && Told(due)
      modifies this`forwarded, this`previewFailed, tail
      ensures tail.Valid() && tail.Contents() == Last(rest)
      ensures Told(due + notice)
    {
      assert [] + rest == rest;
      tail.Append(rest);
      Forward(notice, noticeHeard, due);
    }

    method ForwardTail(heard: bool, tailHeard: bool, ghost due: Bytes) returns (ghost shown: Bytes)
      requires TailValid() && Told(due)
      modifies this`forwarded, this`previewFailed
      ensures Shown(Window(output, head), shown) && Told(due + tailHeading + shown)
      ensures heard && tailHeard ==> previewFailed == old(previewFailed)
    {
      Forward(tailHeading, heard, due);
      var content := tail.Content();
      shown := content;
      Forward(content, tailHeard, due + tailHeading);
    }

    /** Ends the command. Nothing but a whole log and a whole preview, closed by the end of the output and
        the path of the log, counts as returned. */
    method Finish(commandFailed: bool, closed: bool, heard: bool, tailHeard: bool, hintHeard: bool)
      returns (ending: Ending)
      requires Valid()
      modifies this`forwarded, this`previewFailed, this`writeFailed
      ensures ending == CommandFailed <==> commandFailed
      ensures ending == Returned ==>
                && closed && log == output
                && exists shown :: Ended(output, head, shown, notice, tailHeading, hint, forwarded)
      ensures !commandFailed && closed && !old(writeFailed) && !old(previewFailed)
              && heard && tailHeard && hintHeard ==>
                ending == Returned
    {
      writeFailed := writeFailed || !closed;
      ghost var due := Preview(output, head, notice);
      ghost var shown: Bytes := [];
      if overflow {
        shown := ForwardTail(heard, tailHeard, due);
        due := due + tailHeading + shown;
      }
      Forward(hint, hintHeard, due);
      if commandFailed {
        return CommandFailed;
      }
      if writeFailed || previewFailed {
        return LogUnreliable;
      }
      assert Ended(output, head, shown, notice, tailHeading, hint, forwarded);
      return Returned;
    }
  }

  /** The pieces a reader has taken once a command returned: the head; for a longer output also a notice
      and the tail; and the path of the log. */
  ghost predicate Ended(output: Bytes, head: nat, shown: Bytes, notice: Bytes, heading: Bytes, hint: Bytes,
                        forwarded: Bytes) {
    && head <= |output|
    && if InHead(output, |output|) then forwarded == Preview(output, head, notice) + hint
       else Shown(Window(output, head), shown)
            && forwarded == Preview(output, head, notice) + heading + shown + hint
  }

  lemma CountBoth(output: Bytes, data: Bytes)
    ensures Newlines(output + data) == Newlines(output) + Newlines(data)
  {
    NewlinesOfBoth(output, data, |data|);
  }

  lemma ChunkPrefix(output: Bytes, data: Bytes, length: nat)
    requires length <= |data|
    ensures (output + data)[..|output| + length] == output + data[..length]
  {
  }

  lemma PreviewAfter(output: Bytes, data: Bytes, length: nat, notice: Bytes)
    requires length <= |data| && (length == |data| <==> InHead(output + data, |output + data|))
    requires InHead(output, |output|)
    ensures Preview(output, |output|, notice) == output
    ensures Preview(output + data, |output| + length, notice)
            == output + data[..length] + (if length == |data| then [] else notice)
  {
    assert output[..|output|] == output;
    ChunkPrefix(output, data, length);
  }

  lemma ChunkSuffix(output: Bytes, data: Bytes, length: nat)
    requires length <= |data|
    ensures Window(output + data, |output| + length) == Last(data[length..])
  {
  }

  /** What is shown of a chunk makes the head of the longer output. */
  lemma ShownPrefix(output: Bytes, data: Bytes, length: nat)
    requires InHead(output, |output|) && length <= |data|
    requires length == |data| <==> Within(data, HEAD_MAX_BYTES - |output|, HEAD_MAX_LINES - Newlines(output), |data|)
    requires length < |data| ==> Cut(data, HEAD_MAX_BYTES - |output|, HEAD_MAX_LINES - Newlines(output), length)
    ensures HeadOf(output + data, |output| + length)
    ensures length == |data| <==> InHead(output + data, |output + data|)
  {
    if length < |data| {
      ChunkCut(output, data, length);
    } else {
      ChunkInHead(output, data, length);
    }
  }
}
