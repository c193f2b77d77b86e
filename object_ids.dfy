/**
 * MongoDB ObjectIds as the routes see them: a 12-byte identifier written as 24
 * hexadecimal digits. `ObjectId.isValid` accepts either case; `new ObjectId(s)`
 * parses such a string and `toString()` gives the digits back in lower case.
 */
module ObjectIds {

  predicate IsHexDigit(c: char) {
    '0' <= c <= '9' || 'a' <= c <= 'f' || 'A' <= c <= 'F'
  }

  predicate IsLowerHexDigit(c: char) {
    '0' <= c <= '9' || 'a' <= c <= 'f'
  }

  /** `ObjectId.isValid(s)` for a string argument (bson 6): 24 hexadecimal digits. */
  predicate IsValidId(s: string) {
    |s| == 24 && forall i :: 0 <= i < |s| ==> IsHexDigit(s[i])
  }

  predicate IsCanonical(s: string) {
    |s| == 24 && forall i :: 0 <= i < |s| ==> IsLowerHexDigit(s[i])
  }

  type HexText = s: string | IsCanonical(s) witness "000000000000000000000000"

  /** An ObjectId, held as the text its `toString()` returns. */
  datatype ObjectId = ObjectId(hex: HexText)

  function ToLowerHex(c: char): (d: char)
    ensures IsHexDigit(c) ==> IsLowerHexDigit(d)
    ensures IsLowerHexDigit(c) ==> d == c
  {
    if 'A' <= c <= 'F' then (c as int - 'A' as int + 'a' as int) as char else c
  }

  /** `new ObjectId(s)` for a string that `isValid` accepts. */
  function Parse(s: string): (id: ObjectId)
    requires IsValidId(s)
    ensures forall i :: 0 <= i < 24 ==> id.hex[i] == ToLowerHex(s[i])
  {
    ObjectId(seq(|s|, i requires 0 <= i < |s| => ToLowerHex(s[i])))
  }

  /** Parsing the text of an id gives the id back. */
  lemma ParseToString(id: ObjectId)
    ensures IsValidId(id.hex) && Parse(id.hex) == id
  {
    assert IsValidId(id.hex);
    assert Parse(id.hex).hex == id.hex;
  }

  /** Two valid strings name the same id exactly when they agree up to the case of their letters. */
  lemma ParseIgnoresCase(s: string, t: string)
    requires IsValidId(s) && IsValidId(t)
    ensures Parse(s) == Parse(t) <==> forall i :: 0 <= i < 24 ==> ToLowerHex(s[i]) == ToLowerHex(t[i])
  {
    if forall i :: 0 <= i < 24 ==> ToLowerHex(s[i]) == ToLowerHex(t[i]) {
      assert Parse(s).hex == Parse(t).hex;
    }
  }

  function ToUpperHex(c: char): (d: char)
    ensures IsLowerHexDigit(c) ==> IsHexDigit(d) && ToLowerHex(d) == c
  {
    if 'a' <= c <= 'f' then (c as int - 'a' as int + 'A' as int) as char else c
  }

  /** The text with each hex letter in upper case. */
  function Upper(s: string): (r: string)
    ensures |r| == |s| && forall i :: 0 <= i < |s| ==> r[i] == ToUpperHex(s[i])
  {
    seq(|s|, i requires 0 <= i < |s| => ToUpperHex(s[i]))
  }

  /** The id's text holds a letter, so its upper-case spelling is a different text. */
  predicate HasHexLetter(id: ObjectId) {
    exists i :: 0 <= i < 24 && 'a' <= id.hex[i] <= 'f'
  }

  /**
   * Every id's upper-case spelling is a valid id text that names the same id; it
   * differs from `toString()` exactly when the id holds a hex letter.
   */
  lemma UpperSpellingNamesSameId(id: ObjectId)
    ensures IsValidId(Upper(id.hex)) && Parse(Upper(id.hex)) == id
    ensures Upper(id.hex) != id.hex <==> HasHexLetter(id)
  {
    var text := Upper(id.hex);
    assert IsValidId(text);
    assert Parse(text).hex == id.hex;
    if HasHexLetter(id) {
      var i :| 0 <= i < 24 && 'a' <= id.hex[i] <= 'f';
      assert text[i] != id.hex[i];
    } else {
      assert text == id.hex;
    }
  }
}
