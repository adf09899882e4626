/** The two JavaScript Array built-ins that Level.removeActor combines,
    `this.actors.splice(this.actors.indexOf(actor), 1)` (game.js:105-107),
    with the language's own semantics: `indexOf` answers -1 for a missing element, and
    `splice` reads a negative start as counted from the end. */
module JsArray {

  /** `indexOf`: the first position holding `x`, or -1 when there is none. */
  function IndexOf<T(==)>(s: seq<T>, x: T): (i: int)
    ensures -1 <= i < |s|
    ensures i == -1 <==> x !in s
    ensures 0 <= i ==> s[i] == x && x !in s[..i]
  {
    if |s| == 0 then -1
    else if s[0] == x then 0
    else
      var j := IndexOf(s[1..], x);
      assert s[1..][..if j < 0 then 0 else j] == s[1..if j < 0 then 1 else j + 1];
      if j == -1 then -1 else j + 1
  }

  /** Where `splice` starts: a negative start counts back from the end (clamped at 0),
      a start past the end is clamped to the length. */
  function SpliceStart(len: nat, start: int): (k: nat)
    ensures k <= len
  {
    if start < 0 then (if len + start < 0 then 0 else len + start)
    else if start > len then len
    else start
  }

  /** `splice(start, deleteCount)`: what remains of `s` after at most `deleteCount`
      elements are taken out from the normalised start. */
  function Splice<T>(s: seq<T>, start: int, deleteCount: int): seq<T> {
    var k := SpliceStart(|s|, start);
    var d := if deleteCount < 0 then 0 else if deleteCount > |s| - k then |s| - k else deleteCount;
    s[..k] + s[k + d..]
  }

  /** Removing an element that is present takes out exactly its first occurrence and
      nothing else. */
  lemma SpliceOutPresent<T>(s: seq<T>, x: T)
    requires x in s
    ensures var i := IndexOf(s, x);
      && Splice(s, i, 1) == s[..i] + s[i + 1..]
      && |Splice(s, i, 1)| == |s| - 1
      && multiset(Splice(s, i, 1)) == multiset(s) - multiset{x}
  {
    var i := IndexOf(s, x);
    var rest := s[..i] + s[i + 1..];
    assert Splice(s, i, 1) == rest;
    assert s == s[..i] + [x] + s[i + 1..];
    assert multiset(s) == multiset(s[..i]) + multiset{x} + multiset(s[i + 1..]);
    assert multiset(rest) == multiset(s[..i]) + multiset(s[i + 1..]);
  }

  /** Removing an element that is absent: `indexOf` gives -1, which `splice` reads as
      the last position, so the LAST element is dropped (nothing when `s` is empty). */
  lemma SpliceOutAbsent<T>(s: seq<T>, x: T)
    requires x !in s
    ensures |s| == 0 ==> Splice(s, IndexOf(s, x), 1) == []
    ensures |s| > 0 ==> Splice(s, IndexOf(s, x), 1) == s[..|s| - 1]
  {
  }
}
