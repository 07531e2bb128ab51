/** Text primitives: JavaScript's `toLowerCase` on ASCII, `includes`, template `${}` of undefined. */
module Text {
  import opened Wrappers

  function LowerChar(c: char): char {
    if 'A' <= c <= 'Z' then (c as int + 32) as char else c
  }

  /** `toLowerCase`, restricted to the ASCII letters. */
  function Lower(s: string): (r: string)
    ensures |r| == |s|
    ensures forall k :: 0 <= k < |s| ==> r[k] == LowerChar(s[k])
  {
    if s == [] then [] else [LowerChar(s[0])] + Lower(s[1..])
  }

  /** `s.includes(w)`: `w` occurs in `s` as a contiguous piece. */
  predicate Includes(s: string, w: string) {
    exists i | 0 <= i <= |s| - |w| :: OccursAt(s, w, i)
  }

  /** `w` occurs in `s` starting at position `i`. */
  predicate OccursAt(s: string, w: string, i: int) {
    0 <= i <= |s| - |w| && s[i..i + |w|] == w
  }

  /** Template-literal text of a possibly undefined string. */
  function JsText(o: Option<string>): string {
    match o
    case Some(s) => s
    case None => "undefined"
  }

  /** Lowering twice is lowering once. */
  lemma LowerIdempotent(s: string)
    ensures Lower(Lower(s)) == Lower(s)
  {
    assert forall k :: 0 <= k < |s| ==> LowerChar(LowerChar(s[k])) == LowerChar(s[k]);
  }

  /** Lowering works character by character, so it distributes over concatenation. */
  lemma LowerConcat(s: string, t: string)
    ensures Lower(s + t) == Lower(s) + Lower(t)
  {
    assert forall k :: 0 <= k < |s + t| ==> Lower(s + t)[k] == (Lower(s) + Lower(t))[k];
  }

  /** A piece that occurs in `s` occurs in any text that contains `s`. */
  lemma IncludesInContext(pre: string, s: string, post: string, w: string)
    requires Includes(s, w)
    ensures Includes(pre + s + post, w)
  {
    var i :| 0 <= i <= |s| - |w| && OccursAt(s, w, i);
    var j := |pre| + i;
    assert (pre + s + post)[j..j + |w|] == s[i..i + |w|];
    assert OccursAt(pre + s + post, w, j);
  }
}
