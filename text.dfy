/** The few operations of Go's `strings` package that the client uses. */
module Text {
  import opened Outcomes

  /** The lower case of one character, as Go's `unicode.ToLower` gives it for
      every character whose lower case is an ASCII character: the letters
      A to Z, LATIN CAPITAL LETTER I WITH DOT ABOVE (lower case `i`) and
      KELVIN SIGN (lower case `k`). Every other character is kept as it is. */
  function LowerChar(c: char): (d: char)
    ensures d == '/' <==> c == '/'
  {
    if 'A' <= c <= 'Z' then (c as int + 32) as char
    else if c == '\U{0130}' then 'i'
    else if c == '\U{212A}' then 'k'
    else c
  }

  /** `strings.ToLower`, character by character. */
  function ToLower(s: string): (t: string)
    ensures |t| == |s|
    ensures forall i :: 0 <= i < |s| ==> t[i] == LowerChar(s[i])
  {
    seq(|s|, i requires 0 <= i < |s| => LowerChar(s[i]))
  }

  /** Lowering a character twice changes nothing more. */
  lemma LowerCharIdempotent(c: char)
    ensures LowerChar(LowerChar(c)) == LowerChar(c)
  {
  }

  /** Lowering a string twice changes nothing more. */
  lemma ToLowerIdempotent(s: string)
    ensures ToLower(ToLower(s)) == ToLower(s)
  {
    forall i | 0 <= i < |s|
      ensures ToLower(ToLower(s))[i] == ToLower(s)[i]
    {
      LowerCharIdempotent(s[i]);
    }
  }

  /** No ASCII capital letter is left after lowering. */
  lemma ToLowerNoUpper(s: string)
    ensures forall i :: 0 <= i < |s| ==> !('A' <= ToLower(s)[i] <= 'Z')
  {
    forall i | 0 <= i < |s|
      ensures !('A' <= ToLower(s)[i] <= 'Z')
    {
      assert ToLower(s)[i] == LowerChar(s[i]);
    }
  }

  /** A string whose characters lower to those of `p` has the prefix `p` once lowered. */
  lemma LowersToPrefix(s: string, p: string)
    requires |p| <= |s|
    requires forall i :: 0 <= i < |p| ==> LowerChar(s[i]) == p[i]
    ensures HasPrefix(ToLower(s), p)
  {
    assert ToLower(s)[..|p|] == p;
  }

  /** `strings.HasPrefix`. */
  predicate HasPrefix(s: string, prefix: string) {
    |prefix| <= |s| && s[..|prefix|] == prefix
  }

  /** One differing character rules a prefix out. */
  lemma DiffersAt(s: string, prefix: string, i: nat)
    requires i < |prefix| && i < |s| && s[i] != prefix[i]
    ensures !HasPrefix(s, prefix)
  {
    if |prefix| <= |s| {
      assert s[..|prefix|][i] != prefix[i];
    }
  }

  /** `strings.TrimPrefix`: drops one leading `prefix` when there is one. */
  function TrimPrefix(s: string, prefix: string): (r: string)
    ensures HasPrefix(s, prefix) ==> prefix + r == s
    ensures !HasPrefix(s, prefix) ==> r == s
  {
    if HasPrefix(s, prefix) then s[|prefix|..] else s
  }

  /** The index of the first `c` in `s`, or `|s|` when there is none. */
  function IndexOf(s: string, c: char): (k: nat)
    ensures k <= |s|
    ensures k < |s| ==> s[k] == c
    ensures forall i :: 0 <= i < k ==> s[i] != c
  {
    if s == [] then 0
    else if s[0] == c then 0
    else 1 + IndexOf(s[1..], c)
  }

  /** What follows the first `/` of `s`, if it holds one. */
  function AfterSlash(s: string): Option<string> {
    var k := IndexOf(s, '/');
    if k == |s| then None else Some(s[k + 1..])
  }

  /** The first `/` of `head + "/" + tail` is the one after a slash-free `head`. */
  lemma AfterSlashOf(head: string, tail: string)
    requires '/' !in head
    ensures AfterSlash(head + "/" + tail) == Some(tail)
  {
    var s := head + "/" + tail;
    assert s == head + ['/'] + tail;
    IndexOfAfter(head, '/', tail);
    assert s[|head| + 1..] == tail;
  }

  /** The first `c` of `head + [c] + tail` is the one after `head` when `head` holds none. */
  lemma {:induction false} IndexOfAfter(head: string, c: char, tail: string)
    requires c !in head
    ensures IndexOf(head + [c] + tail, c) == |head|
  {
    var s := head + [c] + tail;
    if head == [] {
      assert s[0] == c;
    } else {
      assert s[0] == head[0];
      assert s[1..] == head[1..] + [c] + tail;
      IndexOfAfter(head[1..], c, tail);
    }
  }
}
