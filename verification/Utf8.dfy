/** Bytes as UTF-8 groups them (section 3 of RFC 3629): which bytes begin a character, and how many follow.
    Every valid text has this structure; overlong and surrogate forms are not excluded. */
module Utf8 {
  const NEWLINE: bv8 := 0x0a

  predicate Continuation(b: bv8) {
    b & 0xc0 == 0x80
  }

  /** The bytes of a character that begins with this byte; none begins with a continuation byte. */
  function Length(b: bv8): nat {
    if b & 0x80 == 0 then 1
    else if b & 0xe0 == 0xc0 then 2
    else if b & 0xf0 == 0xe0 then 3
    else if b & 0xf8 == 0xf0 then 4
    else 0
  }

  predicate CharacterAt(bytes: seq<bv8>, i: nat) {
    && i < |bytes| && 0 < Length(bytes[i]) <= |bytes| - i
    && forall j :: i < j < i + Length(bytes[i]) ==> Continuation(bytes[j])
  }

  /** From here on the bytes are whole characters. */
  predicate Boundary(bytes: seq<bv8>, i: nat)
    requires i <= |bytes|
    decreases |bytes| - i
  {
    i == |bytes| || (CharacterAt(bytes, i) && Boundary(bytes, i + Length(bytes[i])))
  }

  predicate Text(bytes: seq<bv8>) {
    Boundary(bytes, 0)
  }

  lemma FirstByte(b: bv8)
    ensures Continuation(b) ==> Length(b) == 0
    ensures b == NEWLINE ==> Length(b) == 1
  {
  }

  /** Where a byte is not a continuation byte, a character begins. */
  lemma {:induction false} BoundaryAt(bytes: seq<bv8>, start: nat, i: nat)
    requires start <= i <= |bytes| && Boundary(bytes, start)
    requires i < |bytes| ==> !Continuation(bytes[i])
    ensures Boundary(bytes, i)
    decreases i - start
  {
    if start < i {
      BoundaryAt(bytes, start + Length(bytes[start]), i);
    }
  }

  /** Behind a newline a character begins. */
  lemma {:induction false} BoundaryBehindNewline(bytes: seq<bv8>, i: nat)
    requires Text(bytes) && i < |bytes| && bytes[i] == NEWLINE
    ensures Boundary(bytes, i + 1)
  {
    FirstByte(bytes[i]);
    BoundaryAt(bytes, 0, i);
  }

  /** No text has four continuation bytes in a row, and none starts with one. */
  lemma {:induction false} ContinuationsAreShort(bytes: seq<bv8>, start: nat, from: nat, to: nat)
    requires start <= from <= to <= |bytes| && Boundary(bytes, start)
    requires forall i :: from <= i < to ==> Continuation(bytes[i])
    ensures to - from <= 3 && (from == start ==> to == start)
    decreases |bytes| - start
  {
    if start < |bytes| {
      var next := start + Length(bytes[start]);
      FirstByte(bytes[start]);
      if to > next {
        ContinuationsAreShort(bytes, next, if from >= next then from else next, to);
      }
    }
  }

  // ----- what encodes characters is such a text

  /** A code point as section 3 of RFC 3629 encodes it. */
  function Encoded(c: bv21): (bytes: seq<bv8>) {
    if c < 0x80 then [c as bv8]
    else if c < 0x800 then [(0xc0 | (c >> 6)) as bv8, Trail(c)]
    else if c < 0x1_0000 then [(0xe0 | (c >> 12)) as bv8, Trail(c >> 6), Trail(c)]
    else [(0xf0 | (c >> 18)) as bv8, Trail(c >> 12), Trail(c >> 6), Trail(c)]
  }

  /** The last six bits, in a continuation byte. */
  function Trail(c: bv21): bv8 {
    (0x80 | (c & 0x3f)) as bv8
  }

  lemma LeadTells(c: bv21)
    ensures Length(Encoded(c)[0]) == |Encoded(c)|
    ensures forall i :: 0 < i < |Encoded(c)| ==> Continuation(Encoded(c)[i])
  {
    TrailIsContinuation(c);
    TrailIsContinuation(c >> 6);
    TrailIsContinuation(c >> 12);
    LeadIs(c);
  }

  lemma TrailIsContinuation(c: bv21)
    ensures Continuation(Trail(c))
  {
  }

  lemma LeadIs(c: bv21)
    ensures c < 0x80 ==> Length(c as bv8) == 1
    ensures 0x80 <= c < 0x800 ==> Length((0xc0 | (c >> 6)) as bv8) == 2
    ensures 0x800 <= c < 0x1_0000 ==> Length((0xe0 | (c >> 12)) as bv8) == 3
    ensures 0x1_0000 <= c ==> Length((0xf0 | (c >> 18)) as bv8) == 4
  {
  }

  function EncodedAll(cs: seq<bv21>): seq<bv8> {
    if cs == [] then [] else Encoded(cs[0]) + EncodedAll(cs[1..])
  }

  lemma {:induction false} BoundaryFrom(before: seq<bv8>, rest: seq<bv8>, i: nat)
    requires i <= |rest| && Boundary(rest, i)
    ensures Boundary(before + rest, |before| + i)
    decreases |rest| - i
  {
    var all := before + rest;
    if i < |rest| {
      assert all[|before| + i] == rest[i];
      forall j | |before| + i < j < |before| + i + Length(rest[i]) ensures Continuation(all[j]) {
        assert all[j] == rest[j - |before|];
      }
      BoundaryFrom(before, rest, i + Length(rest[i]));
    }
  }

  /** Encoded characters, one behind the other, make a text, and each ends where the next begins. */
  lemma {:induction false} EncodingIsText(cs: seq<bv21>)
    ensures Text(EncodedAll(cs))
    ensures cs != [] ==> CharacterAt(EncodedAll(cs), 0) && Length(EncodedAll(cs)[0]) == |Encoded(cs[0])|
                         && Boundary(EncodedAll(cs), |Encoded(cs[0])|)
  {
    if cs != [] {
      EncodingIsText(cs[1..]);
      LeadTells(cs[0]);
      BoundaryFrom(Encoded(cs[0]), EncodedAll(cs[1..]), 0);
    }
  }
}
