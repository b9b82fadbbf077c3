/** The part of the browser's URL handling the sign-up page relies on: the
    query of an address and `URLSearchParams.get`, following the
    application/x-www-form-urlencoded parser of the WHATWG URL Standard
    (section 5.1) except for percent-decoding. */
module SearchParams {
  import opened Wrappers

  /** The text before the first `c`, or all of `s` when it has none. */
  function Before(s: string, c: char): (r: string)
    ensures |r| <= |s| && r == s[..|r|]
    ensures c !in r
    ensures |r| < |s| ==> s[|r|] == c
  {
    if s == [] || s[0] == c then [] else [s[0]] + Before(s[1..], c)
  }

  /** The text after the first `c`, or `None` when `s` has none. */
  function After(s: string, c: char): (r: Option<string>)
    ensures r.None? <==> c !in s
    ensures r.Some? ==> s == Before(s, c) + [c] + r.value
  {
    var b := Before(s, c);
    if |b| == |s| then
      assert b == s;
      None
    else
      assert s == b + [c] + s[|b| + 1..];
      Some(s[|b| + 1..])
  }

  lemma {:induction false} BeforeAppend(a: string, b: string, c: char)
    requires c !in a
    ensures Before(a + b, c) == a + Before(b, c)
  {
    if a != [] {
      assert (a + b)[1..] == a[1..] + b;
      BeforeAppend(a[1..], b, c);
    } else {
      assert a + b == b;
    }
  }

  /** Cutting at a `c` placed right after a text without one gives both
      sides back. */
  lemma AfterMarker(a: string, b: string, c: char)
    requires c !in a
    ensures Before(a + [c] + b, c) == a
    ensures After(a + [c] + b, c) == Some(b)
  {
    assert a + [c] + b == a + ([c] + b);
    BeforeAppend(a, [c] + b, c);
    assert a + [] == a;
    var s := a + [c] + b;
    assert s[|a| + 1..] == b;
  }

  /** `s.split(c)`: the pieces between the occurrences of `c`. */
  function Split(s: string, c: char): (parts: seq<string>)
    ensures |parts| >= 1
    ensures forall i :: 0 <= i < |parts| ==> c !in parts[i]
    decreases |s|
  {
    match After(s, c)
    case None => [s]
    case Some(rest) => [Before(s, c)] + Split(rest, c)
  }

  /** `+` stands for a space; other characters are kept. */
  function Decode(s: string): (r: string)
    ensures |r| == |s|
    ensures forall i :: 0 <= i < |s| ==> r[i] == if s[i] == '+' then ' ' else s[i]
  {
    if s == [] then [] else [if s[0] == '+' then ' ' else s[0]] + Decode(s[1..])
  }

  lemma DecodeKeeps(s: string)
    requires '+' !in s
    ensures Decode(s) == s
  {
  }

  /** A non-empty piece whose decoded name, up to its first `=`, is `name`. */
  predicate Names(piece: string, name: string) {
    piece != "" && Decode(Before(piece, '=')) == name
  }

  /** The decoded value of a piece: what follows its first `=`, or "". */
  function PieceValue(piece: string): string {
    Decode(After(piece, '=').GetOr(""))
  }

  /** The value of the first non-empty `name=value` piece whose name is
      `name`; a piece without `=` has the empty value. */
  function Lookup(pieces: seq<string>, name: string): (r: Option<string>)
    ensures r.None? <==> forall i :: 0 <= i < |pieces| ==> !Names(pieces[i], name)
    ensures r.Some? ==> exists i :: 0 <= i < |pieces| && Names(pieces[i], name) && r.value == PieceValue(pieces[i])
                          && forall j :: 0 <= j < i ==> !Names(pieces[j], name)
  {
    if pieces == [] then None
    else if Names(pieces[0], name) then Some(PieceValue(pieces[0]))
    else
      var r := Lookup(pieces[1..], name);
      assert r.Some? ==> exists i :: 1 <= i < |pieces| && Names(pieces[i], name) && r.value == PieceValue(pieces[i])
                           && forall j :: 1 <= j < i ==> !Names(pieces[j], name) by {
        if r.Some? {
          var k :| 0 <= k < |pieces[1..]| && Names(pieces[1..][k], name) && r.value == PieceValue(pieces[1..][k])
                   && forall j :: 0 <= j < k ==> !Names(pieces[1..][j], name);
          assert pieces[k + 1] == pieces[1..][k];
          assert forall j :: 1 <= j < k + 1 ==> !Names(pieces[j], name) by {
            forall j | 1 <= j < k + 1 ensures !Names(pieces[j], name) { assert pieces[j] == pieces[1..][j - 1]; }
          }
        }
      }
      assert r.None? ==> forall i :: 0 <= i < |pieces| ==> !Names(pieces[i], name) by {
        if r.None? {
          forall i | 1 <= i < |pieces| ensures !Names(pieces[i], name) { assert pieces[i] == pieces[1..][i - 1]; }
        }
      }
      r
  }

  /** `new URLSearchParams(query).get(name)`. */
  function Get(query: string, name: string): Option<string> {
    Lookup(Split(query, '&'), name)
  }

  /** The query of an address (`location.search` without its `?`): what
      follows the first `?` ahead of any `#`, or "" without one. */
  function Search(url: string): (q: string)
    ensures '#' !in q
  {
    After(Before(url, '#'), '?').GetOr("")
  }

  /** A query made of the one piece `name=value` gives the value back, as long as
      the value has no `&` or `+` and the name no `=`, `&` or `+`. */
  lemma GetSinglePair(name: string, value: string)
    requires name != [] && '=' !in name && '&' !in name && '+' !in name
    requires '&' !in value && '+' !in value
    ensures Get(name + "=" + value, name) == Some(value)
  {
    var q := name + "=" + value;
    assert '&' !in q;
    assert Split(q, '&') == [q];
    AfterMarker(name, value, '=');
    DecodeKeeps(name);
    DecodeKeeps(value);
  }
}
