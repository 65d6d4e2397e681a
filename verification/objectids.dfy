/**
 Record identifiers. The store assigns every record a 24-character
 lower-case hexadecimal identifier; a reset link carries one as plain text,
 which the store casts back before looking it up.
 */
module ObjectIds {
  import opened Optional

  predicate IsLowerHex(c: char) {
    '0' <= c <= '9' || 'a' <= c <= 'f'
  }

  predicate IsHex(c: char) {
    IsLowerHex(c) || 'A' <= c <= 'F'
  }

  predicate IsObjectId(s: string) {
    |s| == 24 && forall i :: 0 <= i < |s| ==> IsLowerHex(s[i])
  }

  type ObjectId = s: string | IsObjectId(s) witness "000000000000000000000000"

  function LowerHex(c: char): (d: char)
    requires IsHex(c)
    ensures IsLowerHex(d)
    ensures IsLowerHex(c) ==> d == c
  {
    if 'A' <= c <= 'F' then (c as int - 'A' as int + 'a' as int) as char else c
  }

  /** Casting the text of a path segment to an identifier: 24 hexadecimal
      digits of either case are accepted and normalised to lower case;
      anything else is a cast error. */
  function CastObjectId(s: string): (r: Option<ObjectId>)
    ensures r.Some? <==> |s| == 24 && forall i :: 0 <= i < |s| ==> IsHex(s[i])
    ensures r.Some? ==> forall i :: 0 <= i < 24 ==> IsHex(s[i]) && r.value[i] == LowerHex(s[i])
  {
    if |s| == 24 && forall i :: 0 <= i < |s| ==> IsHex(s[i]) then
      Some(seq(24, i requires 0 <= i < 24 => LowerHex(s[i])))
    else
      None
  }

  /** The text of an identifier casts back to that identifier. */
  lemma CastRoundTrip(id: ObjectId)
    ensures CastObjectId(id) == Some(id)
  {
    var r := CastObjectId(id);
    assert r.Some?;
    assert r.value == id;
  }

}
