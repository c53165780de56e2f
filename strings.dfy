/** `"/" in s` and `s.split("/", 1)`: splitting a string at its first slash. */
module Strings {

  /** Position of the first '/', or |s| when there is none. */
  function FirstSlash(s: string): (i: nat)
    ensures i <= |s|
    ensures i < |s| <==> '/' in s
    ensures i < |s| ==> s[i] == '/'
    ensures '/' !in s[..i]
  {
    if s == [] then 0
    else if s[0] == '/' then 0
    else
      var j := FirstSlash(s[1..]);
      assert s[1..][..j] == s[1..j + 1];
      assert s[..j + 1] == [s[0]] + s[1..j + 1];
      j + 1
  }

  /** `head, tail = s.split("/", 1)` for a string that contains '/'. */
  function SplitFirstSlash(s: string): (r: (string, string))
    requires '/' in s
    ensures s == r.0 + "/" + r.1
    ensures '/' !in r.0
  {
    var i := FirstSlash(s);
    assert s == s[..i] + [s[i]] + s[i + 1..];
    (s[..i], s[i + 1..])
  }

  /** Splitting the join of a slash-free head and any tail gives them back. */
  lemma {:induction false} SplitJoin(head: string, tail: string)
    requires '/' !in head
    ensures '/' in head + "/" + tail
    ensures SplitFirstSlash(head + "/" + tail) == (head, tail)
  {
    var s := head + "/" + tail;
    assert s[|head|] == '/';
    var r := SplitFirstSlash(s);
    // s[..|head|] is slash-free and s[|head|] is '/', so the first slash sits at |head|.
    assert s[..|head|] == head;
    assert FirstSlash(s) == |head|;
    assert r.0 == head;
    assert r.1 == s[|head| + 1..] == tail;
  }
}
