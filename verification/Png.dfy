/** Undoing the filters of PNG scanlines (section 6 of RFC 2083) in the output buffer itself. */
module PngScanlines {
  type byte = b: int | 0 <= b < 256

  function Abs(n: int): int {
    if n < 0 then -n else n
  }

  /** Which of three neighbours is taken for an estimate; ties go to the left, then to the upper one. */
  function Paeth(left: byte, up: byte, upLeft: byte): byte {
    var estimate := left + up - upLeft;
    var pa, pb, pc := Abs(estimate - left), Abs(estimate - up), Abs(estimate - upLeft);
    if pa <= pb && pa <= pc then left else if pb <= pc then up else upLeft
  }

  /** One number is at least as near to a third as another. */
  predicate AsNear(estimate: int, p: int, q: int) {
    && (estimate - p <= estimate - q || estimate - p <= q - estimate)
    && (p - estimate <= estimate - q || p - estimate <= q - estimate)
  }

  /** It is the nearest to the estimate, and the first such in the order left, upper, upper left. */
  lemma PaethIsNearest(left: byte, up: byte, upLeft: byte)
    ensures var estimate, p := left + up - upLeft, Paeth(left, up, upLeft);
            && p in {left, up, upLeft}
            && AsNear(estimate, p, left) && AsNear(estimate, p, up) && AsNear(estimate, p, upLeft)
            && (AsNear(estimate, left, p) ==> p == left)
            && (AsNear(estimate, up, p) ==> p == left || p == up)
  {
  }

  function Predicted(filter: byte, left: byte, up: byte, upLeft: byte): byte {
    if filter == 0 then 0
    else if filter == 1 then left
    else if filter == 2 then up
    else if filter == 3 then (left + up) / 2
    else Paeth(left, up, upLeft)
  }

  // ----- filtering, as the format defines it

  /** How lines lie in the image: `stride` bytes each, the bytes of a pixel `channels` apart. */
  datatype Layout = Layout(stride: nat, channels: nat)

  /** The prediction for byte `x` of the line that starts at `start`, from bytes of the unfiltered image. */
  function PredictionAt(image: seq<byte>, l: Layout, start: nat, filter: byte, x: nat): byte
    requires x < l.stride && start + l.stride <= |image| && l.channels > 0
    requires start == 0 || l.stride <= start
  {
    var left := if l.channels <= x then image[start + x - l.channels] else 0;
    var up := if start > 0 then image[start - l.stride + x] else 0;
    var upLeft := if start > 0 && l.channels <= x then image[start - l.stride + x - l.channels] else 0;
    Predicted(filter, left, up, upLeft)
  }

  function FilteredByte(image: seq<byte>, l: Layout, start: nat, filter: byte, x: nat): byte
    requires x < l.stride && start + l.stride <= |image| && l.channels > 0
    requires start == 0 || l.stride <= start
  {
    (image[start + x] - PredictionAt(image, l, start, filter, x)) % 256
  }

  // ----- what the filters come to

  lemma LineStart(n: nat, stride: nat)
    ensures (n + 1) * stride - stride == n * stride >= 0
    ensures n * stride == 0 || stride <= n * stride
  {
    if n > 0 {
      assert n * stride == (n - 1) * stride + stride;
    }
  }

  /** The sum of a line's filtered bytes at `x` and at every pixel to the left, for one channel. */
  function SumLeft(image: seq<byte>, l: Layout, start: nat, x: nat): nat
    requires x < l.stride && start + l.stride <= |image| && l.channels > 0
    requires start == 0 || l.stride <= start
    decreases x
  {
    FilteredByte(image, l, start, 1, x) + if l.channels <= x then SumLeft(image, l, start, x - l.channels) else 0
  }

  /** Filter 1: the bytes of a line are the sums of its filtered bytes along each channel. */
  lemma {:induction false} SubIsSummedAlong(image: seq<byte>, l: Layout, start: nat, x: nat)
    requires x < l.stride && start + l.stride <= |image| && l.channels > 0
    requires start == 0 || l.stride <= start
    ensures SumLeft(image, l, start, x) % 256 == image[start + x]
    decreases x
  {
    if l.channels <= x {
      SubIsSummedAlong(image, l, start, x - l.channels);
    }
  }

  /** How much `n` lines of `size` bytes take. */
  function Lines(n: nat, size: nat): nat {
    if n == 0 then 0 else Lines(n - 1, size) + size
  }

  /** The sum of the filtered bytes at `x` of line `y` and of every line above it. */
  function SumAbove(image: seq<byte>, l: Layout, y: nat, x: nat): nat
    requires x < l.stride && Lines(y, l.stride) + l.stride <= |image| && l.channels > 0
  {
    FilteredByte(image, l, Lines(y, l.stride), 2, x) + if y > 0 then SumAbove(image, l, y - 1, x) else 0
  }

  /** Filter 2: the bytes of an image are the sums of its filtered bytes down each column. */
  lemma {:induction false} UpIsSummedDown(image: seq<byte>, l: Layout, y: nat, x: nat)
    requires x < l.stride && Lines(y, l.stride) + l.stride <= |image| && l.channels > 0
    ensures SumAbove(image, l, y, x) % 256 == image[Lines(y, l.stride) + x]
  {
    if y > 0 {
      UpIsSummedDown(image, l, y - 1, x);
    }
  }

  /** Filter 3: twice the prediction is the sum of the byte to the left and the one above, rounded down. */
  lemma AverageRoundsDown(image: seq<byte>, l: Layout, start: nat, x: nat)
    requires x < l.stride && start + l.stride <= |image| && l.channels > 0 && l.stride <= start && l.channels <= x
    ensures var left: int := image[start + x - l.channels];
            var up: int := image[start - l.stride + x];
            var p: int := PredictionAt(image, l, start, 3, x);
            2 * p <= left + up <= 2 * p + 1
  {
  }

  /** A line that repeats the one above is filtered to zeros by the filters 2 and 4, and of a line in which every
      pixel repeats the one to its left, below such a line, the filters 1 and 4 leave only the first pixel. */
  lemma RepetitionVanishes(image: seq<byte>, l: Layout, start: nat, x: nat)
    requires x < l.stride && start + l.stride <= |image| && l.channels > 0 && l.stride <= start
    ensures image[start..start + l.stride] == image[start - l.stride..start] ==>
              FilteredByte(image, l, start, 2, x) == FilteredByte(image, l, start, 4, x) == 0
    ensures l.channels <= x && image[start + x] == image[start + x - l.channels]
            && image[start - l.stride + x] == image[start - l.stride + x - l.channels] ==>
              FilteredByte(image, l, start, 1, x) == FilteredByte(image, l, start, 4, x) == 0
    ensures FilteredByte(image, l, start, 0, x) == image[start + x]
  {
    var line, above := image[start..start + l.stride], image[start - l.stride..start];
    assert line[x] == image[start + x] && above[x] == image[start - l.stride + x];
    if l.channels <= x {
      assert line[x - l.channels] == image[start + x - l.channels];
      assert above[x - l.channels] == image[start - l.stride + x - l.channels];
    }
  }

  /** Byte `x` of the line at `start` is filtered to the one behind `cursor`, which names the filter; where the
      input has ended it is zero. */
  predicate ByteFiltered(raw: seq<byte>, image: seq<byte>, l: Layout, start: nat, cursor: nat, x: nat)
    requires x < l.stride && start + l.stride <= |image| && l.channels > 0 && (start == 0 || l.stride <= start)
  {
    if cursor + 1 + x < |raw| then raw[cursor + 1 + x] == FilteredByte(image, l, start, raw[cursor], x)
    else image[start + x] == 0
  }

  /** The first `n` bytes of the line at `start` are. */
  ghost predicate LineFiltered(raw: seq<byte>, image: seq<byte>, l: Layout, start: nat, cursor: nat, n: nat)
    requires start + l.stride <= |image| && l.channels > 0 && (start == 0 || l.stride <= start) && n <= l.stride
  {
    forall x :: 0 <= x < n ==> ByteFiltered(raw, image, l, start, cursor, x)
  }

  /** The lines before `start` are filtered to the bytes before `cursor`. */
  ghost predicate Filtered(raw: seq<byte>, image: seq<byte>, l: Layout, start: nat, cursor: nat)
    requires start <= |image| && l.channels > 0
    decreases cursor
  {
    if cursor == 0 then start == 0
    else
      && l.stride <= start && l.stride < cursor && (start - l.stride == 0 || l.stride <= start - l.stride)
      && LineFiltered(raw, image, l, start - l.stride, cursor - l.stride - 1, l.stride)
      && Filtered(raw, image, l, start - l.stride, cursor - l.stride - 1)
  }

  /** Only bytes up to a line matter for its filtering. */
  lemma LineFromPrefix(raw: seq<byte>, a: seq<byte>, b: seq<byte>, l: Layout, start: nat, cursor: nat, n: nat)
    requires start + l.stride <= |a| && start + l.stride <= |b| && l.channels > 0 && (start == 0 || l.stride <= start)
    requires n <= l.stride
    requires forall i :: 0 <= i < start + n ==> a[i] == b[i]
    requires LineFiltered(raw, a, l, start, cursor, n)
    ensures LineFiltered(raw, b, l, start, cursor, n)
  {
    forall x | 0 <= x < n ensures ByteFiltered(raw, b, l, start, cursor, x) {
      assert ByteFiltered(raw, a, l, start, cursor, x);
      if cursor + 1 + x < |raw| {
        assert PredictionAt(a, l, start, raw[cursor], x) == PredictionAt(b, l, start, raw[cursor], x);
      }
    }
  }

  lemma {:induction false} FilteredFromPrefix(raw: seq<byte>, a: seq<byte>, b: seq<byte>, l: Layout, start: nat,
                                              cursor: nat)
    requires start <= |a| && start <= |b| && l.channels > 0
    requires forall i :: 0 <= i < start ==> a[i] == b[i]
    requires Filtered(raw, a, l, start, cursor)
    ensures Filtered(raw, b, l, start, cursor)
    decreases cursor
  {
    if cursor > 0 {
      LineFromPrefix(raw, a, b, l, start - l.stride, cursor - l.stride - 1, l.stride);
      FilteredFromPrefix(raw, a, b, l, start - l.stride, cursor - l.stride - 1);
    }
  }

  /** Filtering loses nothing: an image is determined by its filtered lines. */
  lemma {:induction false} FilteringIsLossless(raw: seq<byte>, a: seq<byte>, b: seq<byte>, l: Layout, start: nat,
                                               cursor: nat)
    requires start <= |a| && start <= |b| && l.channels > 0
    requires Filtered(raw, a, l, start, cursor) && Filtered(raw, b, l, start, cursor)
    ensures a[..start] == b[..start]
    decreases cursor
  {
    if cursor > 0 {
      var line, from := start - l.stride, cursor - l.stride - 1;
      FilteringIsLossless(raw, a, b, l, line, from);
      assert forall i :: 0 <= i < line ==> a[..line][i] == b[..line][i];
      LineIsLossless(raw, a, b, l, line, from, l.stride);
    }
  }

  lemma {:induction false} LineIsLossless(raw: seq<byte>, a: seq<byte>, b: seq<byte>, l: Layout, start: nat,
                                          cursor: nat, n: nat)
    requires start + l.stride <= |a| && start + l.stride <= |b| && l.channels > 0 && (start == 0 || l.stride <= start)
    requires n <= l.stride
    requires LineFiltered(raw, a, l, start, cursor, l.stride) && LineFiltered(raw, b, l, start, cursor, l.stride)
    requires forall i :: 0 <= i < start ==> a[i] == b[i]
    ensures forall i :: 0 <= i < start + n ==> a[i] == b[i]
  {
    if n > 0 {
      LineIsLossless(raw, a, b, l, start, cursor, n - 1);
      var x := n - 1;
      assert ByteFiltered(raw, a, l, start, cursor, x) && ByteFiltered(raw, b, l, start, cursor, x);
      if cursor + 1 + x < |raw| {
        var p := PredictionAt(a, l, start, raw[cursor], x);
        assert p == PredictionAt(b, l, start, raw[cursor], x);
        assert FilteredByte(a, l, start, raw[cursor], x) == FilteredByte(b, l, start, raw[cursor], x);
        SameByte(a[start + x], b[start + x], p);
      }
    }
  }

  lemma SameByte(a: byte, b: byte, p: byte)
    requires (a - p) % 256 == (b - p) % 256
    ensures a == b
  {
  }

  lemma Undone(value: byte, p: byte)
    ensures ((value + p) % 256 - p) % 256 == value
  {
  }

  // ----- an encoder

  function EncodeLine(image: seq<byte>, l: Layout, start: nat, filter: byte, n: nat): (line: seq<byte>)
    requires start + l.stride <= |image| && l.channels > 0 && (start == 0 || l.stride <= start) && n <= l.stride
    ensures |line| == n
  {
    if n == 0 then [] else EncodeLine(image, l, start, filter, n - 1) + [FilteredByte(image, l, start, filter, n - 1)]
  }

  lemma {:induction false} EncodeLineAt(image: seq<byte>, l: Layout, start: nat, filter: byte, n: nat, x: nat)
    requires start + l.stride <= |image| && l.channels > 0 && (start == 0 || l.stride <= start) && x < n <= l.stride
    ensures EncodeLine(image, l, start, filter, n)[x] == FilteredByte(image, l, start, filter, x)
  {
    if x < n - 1 {
      EncodeLineAt(image, l, start, filter, n - 1, x);
    }
  }

  /** The image's lines before `start`, filtered by the given choices. */
  function Encode(image: seq<byte>, l: Layout, filters: seq<byte>, start: nat): seq<byte>
    requires start <= |image| && l.channels > 0 && start == |filters| * l.stride
    decreases |filters|
  {
    if filters == [] then []
    else
      var n := |filters| - 1;
      LineStart(n, l.stride);
      var line := start - l.stride;
      Encode(image, l, filters[..n], line) + [filters[n]] + EncodeLine(image, l, line, filters[n], l.stride)
  }

  lemma {:induction false} FilteredInLonger(raw: seq<byte>, longer: seq<byte>, image: seq<byte>, l: Layout, start: nat,
                                            cursor: nat)
    requires start <= |image| && cursor <= |raw| && l.channels > 0 && raw <= longer
    requires Filtered(raw, image, l, start, cursor)
    ensures Filtered(longer, image, l, start, cursor)
    decreases cursor
  {
    if cursor > 0 {
      var line, from := start - l.stride, cursor - l.stride - 1;
      FilteredInLonger(raw, longer, image, l, line, from);
      assert forall i :: 0 <= i < |raw| ==> longer[i] == raw[i];
      assert forall x :: 0 <= x < l.stride ==>
          ByteFiltered(raw, image, l, line, from, x) == ByteFiltered(longer, image, l, line, from, x);
    }
  }

  /** Every image has filtered lines, whatever filter is chosen for each. */
  lemma {:induction false} EncodeFilters(image: seq<byte>, l: Layout, filters: seq<byte>, start: nat)
    requires start <= |image| && l.channels > 0 && start == |filters| * l.stride
    ensures var raw := Encode(image, l, filters, start);
            |raw| == |filters| * (l.stride + 1) && Filtered(raw, image, l, start, |raw|)
    decreases |filters|
  {
    if filters != [] {
      var n := |filters| - 1;
      LineStart(n, l.stride);
      LineStart(n, l.stride + 1);
      var line := start - l.stride;
      var before := Encode(image, l, filters[..n], line);
      EncodeFilters(image, l, filters[..n], line);
      AppendLine(before, image, l, line, filters[n]);
    }
  }

  lemma AppendLine(before: seq<byte>, image: seq<byte>, l: Layout, line: nat, filter: byte)
    requires line + l.stride <= |image| && l.channels > 0 && (line == 0 || l.stride <= line)
    requires Filtered(before, image, l, line, |before|)
    ensures var raw := before + [filter] + EncodeLine(image, l, line, filter, l.stride);
            |raw| == |before| + l.stride + 1 && Filtered(raw, image, l, line + l.stride, |raw|)
  {
    var coded := EncodeLine(image, l, line, filter, l.stride);
    var raw := before + [filter] + coded;
    FilteredInLonger(before, raw, image, l, line, |before|);
    forall x | 0 <= x < l.stride ensures ByteFiltered(raw, image, l, line, |before|, x) {
      EncodeLineAt(image, l, line, filter, l.stride, x);
      assert raw[|before| + 1 + x] == coded[x];
    }
  }

  // ----- the decoder

  method UnfilterLine(raw: seq<byte>, bytes: array<byte>, l: Layout, start: nat, cursor: nat)
    requires start + l.stride <= bytes.Length && l.channels > 0 && (start == 0 || l.stride <= start)
    modifies bytes
    ensures LineFiltered(raw, bytes[..], l, start, cursor, l.stride)
    ensures forall i :: 0 <= i < start ==> bytes[i] == old(bytes[i])
  {
    var filter := if cursor < |raw| then raw[cursor] else 0;
    for x := 0 to l.stride
      invariant LineFiltered(raw, bytes[..], l, start, cursor, x)
      invariant forall i :: 0 <= i < start ==> bytes[i] == old(bytes[i])
    {
      ghost var before := bytes[..];
      var left := if l.channels <= x then bytes[start + x - l.channels] else 0;
      var up := if start > 0 then bytes[start - l.stride + x] else 0;
      var upLeft := if start > 0 && l.channels <= x then bytes[start - l.stride + x - l.channels] else 0;
      bytes[start + x] :=
        if cursor + 1 + x >= |raw| then 0
        else
          var value := raw[cursor + 1 + x];
          if filter == 0 then value
          else if filter == 1 then (value + left) % 256
          else if filter == 2 then (value + up) % 256
          else if filter == 3 then (value + (left + up) / 2) % 256
          else (value + Paeth(left, up, upLeft)) % 256;
      ByteUndone(raw, before, bytes[..], l, start, cursor, x);
    }
  }

  lemma ByteUndone(raw: seq<byte>, before: seq<byte>, after: seq<byte>, l: Layout, start: nat, cursor: nat, x: nat)
    requires start + l.stride <= |before| == |after| && l.channels > 0 && (start == 0 || l.stride <= start)
    requires x < l.stride && LineFiltered(raw, before, l, start, cursor, x)
    requires after == before[start + x :=
               if cursor + 1 + x >= |raw| then 0
               else (raw[cursor + 1 + x] + PredictionAt(before, l, start, raw[cursor], x)) % 256]
    ensures LineFiltered(raw, after, l, start, cursor, x + 1)
  {
    LineFromPrefix(raw, before, after, l, start, cursor, x);
    if cursor + 1 + x < |raw| {
      assert PredictionAt(after, l, start, raw[cursor], x) == PredictionAt(before, l, start, raw[cursor], x);
      Undone(raw[cursor + 1 + x], PredictionAt(before, l, start, raw[cursor], x));
    }
    assert ByteFiltered(raw, after, l, start, cursor, x);
  }

  lemma {:induction false} LinesAre(n: nat, size: nat)
    ensures Lines(n, size) == n * size
  {
    if n > 0 {
      LinesAre(n - 1, size);
    }
  }

  lemma {:induction false} LinesFit(height: nat, y: nat, size: nat)
    requires y < height
    ensures Lines(y, size) + size == Lines(y + 1, size) <= Lines(height, size)
    ensures Lines(y, size) == 0 || size <= Lines(y, size)
  {
    if y + 1 < height {
      LinesFit(height - 1, y, size);
    }
  }

  method UnfilterNext(raw: seq<byte>, bytes: array<byte>, l: Layout, start: nat, cursor: nat)
    requires start + l.stride <= bytes.Length && l.channels > 0 && (start == 0 || l.stride <= start)
    requires Filtered(raw, bytes[..], l, start, cursor)
    modifies bytes
    ensures Filtered(raw, bytes[..], l, start + l.stride, cursor + 1 + l.stride)
  {
    ghost var before := bytes[..];
    UnfilterLine(raw, bytes, l, start, cursor);
    FilteredFromPrefix(raw, before, bytes[..], l, start, cursor);
  }

  /** The decoded image is the one whose filtering gives the lines that were read; what is missing of them is zero. */
  method Unfilter(raw: seq<byte>, height: nat, l: Layout) returns (bytes: array<byte>)
    requires l.channels > 0
    ensures fresh(bytes) && bytes.Length == height * l.stride
    ensures Filtered(raw, bytes[..], l, bytes.Length, height * (l.stride + 1))
  {
    LinesAre(height, l.stride);
    LinesAre(height, l.stride + 1);
    bytes := new byte[height * l.stride](_ => 0);
    UnfilterAll(raw, bytes, height, l);
  }

  method UnfilterAll(raw: seq<byte>, bytes: array<byte>, height: nat, l: Layout)
    requires l.channels > 0 && bytes.Length == Lines(height, l.stride)
    modifies bytes
    ensures Filtered(raw, bytes[..], l, bytes.Length, Lines(height, l.stride + 1))
  {
    var cursor, start := 0, 0;
    for y := 0 to height
      invariant start == Lines(y, l.stride) <= bytes.Length && cursor == Lines(y, l.stride + 1)
      invariant Filtered(raw, bytes[..], l, start, cursor)
    {
      LinesFit(height, y, l.stride);
      LinesFit(height, y, l.stride + 1);
      UnfilterNext(raw, bytes, l, start, cursor);
      cursor := cursor + 1 + l.stride;
      start := start + l.stride;
    }
  }

  /** Decoding undoes any encoder that follows the format, whatever filter it chose for each line. */
  lemma {:induction false} DecodingUndoesEncoding(image: seq<byte>, l: Layout, filters: seq<byte>, decoded: seq<byte>)
    requires l.channels > 0 && |image| == |decoded| == |filters| * l.stride
    requires var raw := Encode(image, l, filters, |image|); Filtered(raw, decoded, l, |image|, |raw|)
    ensures decoded == image
  {
    EncodeFilters(image, l, filters, |image|);
    FilteringIsLossless(Encode(image, l, filters, |image|), image, decoded, l, |image|,
        |Encode(image, l, filters, |image|)|);
  }
}
