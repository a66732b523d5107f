/** Document identifiers. MongoDB's ObjectId is kept as its canonical text:
    24 lower-case hexadecimal digits. A request carries ids as strings, and a
    lookup by id first casts the string to an ObjectId. */
module Ids {
  import opened Wrappers
  import Strings

  type Id = string

  predicate IsHexDigit(c: char)
  {
    '0' <= c <= '9' || 'a' <= c <= 'f' || 'A' <= c <= 'F'
  }

  /** The text of a stored id. */
  predicate IsCanonical(id: Id)
  {
    |id| == 24 && forall k :: 0 <= k < |id| ==> '0' <= id[k] <= '9' || 'a' <= id[k] <= 'f'
  }

  /** The cast of a request string to an ObjectId; `None` is the cast error
      that `findById` throws. */
  function Cast(s: string): (r: Option<Id>)
    ensures r.Some? <==> |s| == 24 && forall k :: 0 <= k < |s| ==> IsHexDigit(s[k])
    ensures r.Some? ==> IsCanonical(r.value) && r.value == Strings.Lower(s)
  {
    if |s| == 24 && forall k :: 0 <= k < |s| ==> IsHexDigit(s[k]) then Some(Strings.Lower(s)) else None
  }

  /** A stored id casts to itself. */
  lemma CastCanonical(id: Id)
    requires IsCanonical(id)
    ensures Cast(id) == Some(id)
  {
    Strings.LowerFixesLower(id);
  }

  /** The cast does not depend on the case of the hexadecimal digits. */
  lemma CastIgnoresCase(s: string)
    ensures Cast(Strings.Lower(s)) == Cast(s)
  {
    Strings.LowerIsLower(s);
    var l := Strings.Lower(s);
    if forall k :: 0 <= k < |s| ==> IsHexDigit(s[k]) {
      assert forall k :: 0 <= k < |l| ==> IsHexDigit(l[k]);
    } else {
      var k :| 0 <= k < |s| && !IsHexDigit(s[k]);
      assert !IsHexDigit(l[k]);
    }
  }
}
