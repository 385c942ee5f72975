/**
 * The values the handlers work on: recipes as the document store holds them,
 * document identifiers, and the string-keyed maps that stand for the browser
 * session, the submitted form and the query string.
 */
module Records {
  import opened Wrappers

  /** The instant `datetime.utcnow()` returned, in microseconds; the model compares instants only for equality. */
  datatype Timestamp = Timestamp(microseconds: int)

  /** One stored recipe: the five wizard fields and the time of the last write. */
  datatype Recipe = Recipe(
    base: string,
    flavor: string,
    nutrition: string,
    texture: string,
    name: string,
    createdAt: Timestamp)

  /** A document identifier: its 24 hexadecimal digits in lower case. */
  datatype ObjectId = ObjectId(hex: string)

  type Session = map<string, string>
  type Form = map<string, string>
  type Args = map<string, string>
  type Store = map<ObjectId, Recipe>

  /** `m.get(key, default)` on a session, a form or the query string. */
  function Lookup(m: map<string, string>, key: string, default: string): (v: string)
    ensures key in m ==> v == m[key]
    ensures key !in m ==> v == default
  {
    if key in m then m[key] else default
  }

  predicate IsHexDigit(c: char) {
    '0' <= c <= '9' || 'a' <= c <= 'f' || 'A' <= c <= 'F'
  }

  function LowerHex(c: char): (l: char)
    requires IsHexDigit(c)
    ensures '0' <= l <= '9' || 'a' <= l <= 'f'
  {
    if 'A' <= c <= 'F' then (c as int - 'A' as int + 'a' as int) as char else c
  }

  /** The form in which an identifier prints: 24 lower-case hexadecimal digits. */
  predicate IsCanonical(id: ObjectId) {
    |id.hex| == 24 && forall i :: 0 <= i < 24 ==> '0' <= id.hex[i] <= '9' || 'a' <= id.hex[i] <= 'f'
  }

  /**
   * `ObjectId(text)`: a text of exactly 24 hexadecimal digits names an
   * identifier, letters in either case; anything else raises InvalidId.
   */
  function ParseObjectId(text: string): (r: Option<ObjectId>)
    ensures r.Some? <==> |text| == 24 && forall i :: 0 <= i < |text| ==> IsHexDigit(text[i])
    ensures r.Some? ==> IsCanonical(r.value)
    ensures r.Some? ==> forall i :: 0 <= i < 24 ==> r.value.hex[i] == LowerHex(text[i])
  {
    if |text| == 24 && forall i :: 0 <= i < |text| ==> IsHexDigit(text[i]) then
      Some(ObjectId(seq(24, i requires 0 <= i < 24 && IsHexDigit(text[i]) => LowerHex(text[i]))))
    else
      None
  }

  /** Printing an identifier and parsing the text gives the identifier back. */
  lemma ParsePrinted(id: ObjectId)
    requires IsCanonical(id)
    ensures ParseObjectId(id.hex) == Some(id)
  {
    var r := ParseObjectId(id.hex);
    assert forall i :: 0 <= i < 24 ==> LowerHex(id.hex[i]) == id.hex[i];
    assert r.value.hex == id.hex;
  }

  /** Two texts that differ only in the case of their letters name the same identifier. */
  lemma ParseIgnoresCase(a: string, b: string)
    requires |a| == |b| == 24
    requires forall i :: 0 <= i < 24 ==> IsHexDigit(a[i]) && IsHexDigit(b[i]) && LowerHex(a[i]) == LowerHex(b[i])
    ensures ParseObjectId(a) == ParseObjectId(b) != None
  {
    assert ParseObjectId(a).value.hex == ParseObjectId(b).value.hex;
  }
}
