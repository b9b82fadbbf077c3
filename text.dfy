/** The handful of string operations the pages use: ASCII case folding
    (`toLowerCase`), substring search (`includes`), the two character classes
    of the password rules, and removal of a set of characters (`replace(/[..]/g, "")`). */
module Text {

  predicate IsDigit(c: char) { '0' <= c <= '9' }

  predicate IsUpper(c: char) { 'A' <= c <= 'Z' }

  function LowerChar(c: char): (r: char)
    ensures IsUpper(c) ==> r as int == c as int + 32
    ensures !IsUpper(c) ==> r == c
    ensures !IsUpper(r)
  {
    if IsUpper(c) then (c as int + 32) as char else c
  }

  /** `toLowerCase` restricted to the ASCII letters. */
  function Lower(s: string): (r: string)
    ensures |r| == |s|
    ensures forall i :: 0 <= i < |s| ==> r[i] == LowerChar(s[i])
  {
    if s == [] then [] else [LowerChar(s[0])] + Lower(s[1..])
  }

  lemma {:induction false} LowerIdempotent(s: string)
    ensures Lower(Lower(s)) == Lower(s)
  {
    var l := Lower(s);
    assert forall i :: 0 <= i < |l| ==> LowerChar(l[i]) == l[i];
  }

  /** `t` occurs in `s` starting at index `i`. */
  ghost predicate OccursAt(s: string, t: string, i: int) {
    0 <= i && i + |t| <= |s| && s[i..i + |t|] == t
  }

  /** `s.includes(t)`: a left-to-right scan of the start positions. */
  function Contains(s: string, t: string): (r: bool)
    decreases |s|
  {
    if |t| <= |s| && s[..|t|] == t then true
    else if s == [] then false
    else Contains(s[1..], t)
  }

  lemma {:induction false} ContainsIff(s: string, t: string)
    ensures Contains(s, t) <==> exists i :: OccursAt(s, t, i)
    decreases |s|
  {
    if |t| <= |s| && s[..|t|] == t {
      assert OccursAt(s, t, 0);
    } else if s == [] {
      assert t != [];
    } else {
      ContainsIff(s[1..], t);
      if exists i :: OccursAt(s[1..], t, i) {
        var i :| OccursAt(s[1..], t, i);
        assert s[i + 1..i + 1 + |t|] == s[1..][i..i + |t|];
        assert OccursAt(s, t, i + 1);
      }
      if exists i :: OccursAt(s, t, i) {
        var i :| OccursAt(s, t, i);
        assert i != 0;
        assert s[1..][i - 1..i - 1 + |t|] == s[i..i + |t|];
        assert OccursAt(s[1..], t, i - 1);
      }
    }
  }

  lemma ContainsEmpty(s: string)
    ensures Contains(s, "")
  {
    assert s[..0] == "";
  }

  /** `s.toLowerCase().includes(t.toLowerCase())`. */
  predicate IncludesIgnoreCase(s: string, t: string) {
    Contains(Lower(s), Lower(t))
  }

  lemma IncludesEmpty(s: string)
    ensures IncludesIgnoreCase(s, "")
  {
    ContainsEmpty(Lower(s));
  }

  /** `s.replace(/[cs]/g, "")`: every character of `cs` removed, the rest kept in order. */
  function RemoveAll(s: string, cs: set<char>): (r: string)
    ensures |r| <= |s|
    ensures forall i :: 0 <= i < |r| ==> r[i] !in cs
    ensures forall c :: c in r ==> c in s
  {
    if s == [] then []
    else if s[0] in cs then RemoveAll(s[1..], cs)
    else [s[0]] + RemoveAll(s[1..], cs)
  }

  lemma {:induction false} RemoveAllAppend(a: string, b: string, cs: set<char>)
    ensures RemoveAll(a + b, cs) == RemoveAll(a, cs) + RemoveAll(b, cs)
  {
    if a == [] {
      assert a + b == b;
    } else {
      assert (a + b)[1..] == a[1..] + b;
      RemoveAllAppend(a[1..], b, cs);
    }
  }

  lemma {:induction false} RemoveAllNone(s: string, cs: set<char>)
    requires forall i :: 0 <= i < |s| ==> s[i] !in cs
    ensures RemoveAll(s, cs) == s
  {
    if s != [] {
      RemoveAllNone(s[1..], cs);
    }
  }
}
