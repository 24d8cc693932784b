/** MongoDB object ids as the story service takes them from strings:
    `Types.ObjectId.isValid` and `new Types.ObjectId(s)` on a hexadecimal
    string. An id is kept in its canonical form, 24 lower-case hex digits, so
    that two ids are equal exactly when their bytes are. */
module ObjectIds {
  import opened Wrappers

  const ObjectIdLength := 24

  predicate IsHexDigit(c: char) {
    '0' <= c <= '9' || 'a' <= c <= 'f' || 'A' <= c <= 'F'
  }

  predicate IsLowerHexDigit(c: char) {
    '0' <= c <= '9' || 'a' <= c <= 'f'
  }

  /** `Types.ObjectId.isValid(s)` for a string: 24 hexadecimal digits of either
      case. */
  predicate IsValidObjectId(s: string) {
    |s| == ObjectIdLength && forall i :: 0 <= i < |s| ==> IsHexDigit(s[i])
  }

  predicate IsCanonical(s: string) {
    |s| == ObjectIdLength && forall i :: 0 <= i < |s| ==> IsLowerHexDigit(s[i])
  }

  type ObjectId = s: string | IsCanonical(s) witness "000000000000000000000000"

  function LowerHexDigit(c: char): (r: char)
    requires IsHexDigit(c)
    ensures IsLowerHexDigit(r)
    ensures IsLowerHexDigit(c) ==> r == c
  {
    if 'A' <= c <= 'F' then (c as int + 32) as char else c
  }

  /** `new Types.ObjectId(s)`: the id a valid string denotes. Hex digits are
      read without regard to case, so the canonical text is lower case. */
  function ParseObjectId(s: string): (r: Option<ObjectId>)
    ensures r.Some? <==> IsValidObjectId(s)
    ensures r.Some? ==> forall i :: 0 <= i < ObjectIdLength ==> r.value[i] == LowerHexDigit(s[i])
  {
    if IsValidObjectId(s) then
      var lowered := seq(|s|, i requires 0 <= i < |s| => LowerHexDigit(s[i]));
      assert IsCanonical(lowered);
      Some(lowered)
    else None
  }

  /** An id's own text parses back to it. */
  lemma ParseCanonical(id: ObjectId)
    ensures ParseObjectId(id) == Some(id)
  {
    assert IsValidObjectId(id);
    assert ParseObjectId(id).value == id;
  }

  /** Two valid strings denote the same id exactly when they agree up to the
      case of their letters. */
  lemma ParseIgnoresCase(a: string, b: string)
    requires IsValidObjectId(a) && IsValidObjectId(b)
    ensures ParseObjectId(a) == ParseObjectId(b) <==>
              forall i :: 0 <= i < ObjectIdLength ==> LowerHexDigit(a[i]) == LowerHexDigit(b[i])
  {
    var x := ParseObjectId(a).value;
    var y := ParseObjectId(b).value;
    if forall i :: 0 <= i < ObjectIdLength ==> LowerHexDigit(a[i]) == LowerHexDigit(b[i]) {
      assert x == y;
    }
  }
}
