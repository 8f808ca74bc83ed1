/** Values shared by every model: optional values, computations that may be refused, and trimming. */
module Prelude {
  datatype Option<+T> = None | Some(value: T) {
    function GetOr(default: T): T {
      if Some? then value else default
    }
  }

  datatype Outcome<+T, +E> = Ok(value: T) | Refused(error: E)

  /** What JavaScript's `trim` removes. */
  predicate Whitespace(c: char) {
    c as int in {9, 10, 11, 12, 13, 32, 0xA0, 0x1680, 0x2028, 0x2029, 0x202F, 0x205F, 0x3000, 0xFEFF}
    || 0x2000 <= c as int <= 0x200A
  }

  predicate Blank(text: string) {
    forall i :: 0 <= i < |text| ==> Whitespace(text[i])
  }

  /** The text without the whitespace around it. */
  function Trim(text: string): (t: string)
    ensures t == "" <==> Blank(text)
    decreases |text|
  {
    if text == "" then ""
    else if Whitespace(text[0]) then
      assert Blank(text) <==> Blank(text[1..]) by {
        assert forall i :: 0 < i < |text| ==> text[i] == text[1..][i - 1];
      }
      Trim(text[1..])
    else if Whitespace(text[|text| - 1]) then Trim(text[..|text| - 1])
    else text
  }
}
