/** Optional values, results, byte strings and fresh names, shared by every module. */
module Prelude {

  datatype Option<+T> = None | Some(value: T)

  datatype Result<+T, +E> = Ok(value: T) | Err(error: E)

  newtype byte = b: int | 0 <= b < 256

  type Bytes = seq<byte>

  function Last<T>(s: seq<T>): T
    requires |s| > 0
  {
    s[|s| - 1]
  }

  function Front<T>(s: seq<T>): seq<T>
    requires |s| > 0
  {
    s[..|s| - 1]
  }

  /** There is always another name. */
  lemma {:induction false} Unused(taken: set<nat>) returns (name: nat)
    ensures name !in taken && forall n :: n in taken ==> n < name
    decreases |taken|
  {
    if taken == {} {
      name := 0;
    } else {
      var n :| n in taken;
      var above := Unused(taken - {n});
      name := if above <= n then n + 1 else above;
      assert forall m :: m in taken ==> m == n || m in taken - {n};
    }
  }

  /** Letters and digits of ASCII, and with them the four signs that identifiers may have later on. */
  ghost predicate PlainSign(c: char, later: bool) {
    || '0' <= c <= '9' || 'A' <= c <= 'Z' || 'a' <= c <= 'z'
    || (later && (c == '.' || c == '_' || c == ':' || c == '-'))
  }

  /** An identifier of at most `most` signs. */
  ghost predicate Identifier(s: string, most: nat) {
    s != "" && |s| <= most && PlainSign(s[0], false) && forall i :: 0 <= i < |s| ==> PlainSign(s[i], true)
  }
}
