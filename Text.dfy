/** The string handling of the payment form: `String.prototype.trim`,
    `replace(/\s/g, '')` and `slice(-n)`. JavaScript's `trim` and `\s` agree on one
    set of white-space characters (the WhiteSpace and LineTerminator productions). */
module Text {

  predicate IsSpace(c: char) {
    || c == '\t' || c == '\n' || c == '\U{000B}' || c == '\U{000C}' || c == '\r' || c == ' '
    || c == '\U{00A0}' || c == '\U{1680}' || ('\U{2000}' <= c <= '\U{200A}')
    || c == '\U{2028}' || c == '\U{2029}' || c == '\U{202F}' || c == '\U{205F}'
    || c == '\U{3000}' || c == '\U{FEFF}'
  }

  predicate AllSpace(s: string) {
    forall i :: 0 <= i < |s| ==> IsSpace(s[i])
  }

  /** `s` without its leading white space. */
  function TrimStart(s: string): (r: string)
    ensures |r| <= |s| && r == s[|s| - |r|..]
    ensures AllSpace(s[..|s| - |r|])
    ensures r != [] ==> !IsSpace(r[0])
  {
    if s != [] && IsSpace(s[0]) then TrimStart(s[1..]) else s
  }

  /** `s` without its trailing white space. */
  function TrimEnd(s: string): (r: string)
    ensures |r| <= |s| && r == s[..|r|]
    ensures AllSpace(s[|r|..])
    ensures r != [] ==> !IsSpace(r[|r| - 1])
  {
    if s != [] && IsSpace(s[|s| - 1]) then TrimEnd(s[..|s| - 1]) else s
  }

  /** `s.trim()`: `s` less the white space at both ends (see TrimStart and TrimEnd);
      the result neither starts nor ends with white space, and is empty exactly when
      `s` is all white space. */
  function Trim(s: string): (r: string)
    ensures |r| <= |s|
    ensures exists i, j :: 0 <= i <= j <= |s| && r == s[i..j] && AllSpace(s[..i]) && AllSpace(s[j..])
    ensures r != [] ==> !IsSpace(r[0]) && !IsSpace(r[|r| - 1])
    ensures r == [] <==> AllSpace(s)
  {
    var front := TrimStart(s);
    var r := TrimEnd(front);
    assert r != [] ==> r[0] == front[0];
    assert r == [] ==> AllSpace(s) by {
      if r == [] {
        assert front == [];
        assert s[..|s|] == s;
      }
    }
    r
  }

  /** `s.replace(/\s/g, '')`: the characters of `s` that are not white space, in order. */
  function StripSpaces(s: string): (r: string)
    ensures |r| <= |s|
    ensures s == [] ==> r == []
    ensures |s| == 1 ==> r == if IsSpace(s[0]) then [] else s
    ensures forall i :: 0 <= i < |r| ==> !IsSpace(r[i])
    ensures forall c :: c in s && !IsSpace(c) ==> c in r
    ensures !(exists i :: 0 <= i < |s| && IsSpace(s[i])) ==> r == s
  {
    if s == [] then []
    else
      var rest := StripSpaces(s[1..]);
      assert forall c :: c in s[1..] ==> c in s;
      assert forall c :: c in s ==> c == s[0] || c in s[1..];
      if IsSpace(s[0]) then rest else [s[0]] + rest
  }

  /** Stripping works character by character: the result for a concatenation is the
      concatenation of the results, so together with the one-character cases it keeps
      every non-space character, in order and as often as it occurs. */
  lemma {:induction false} StripSpacesAppend(a: string, b: string)
    ensures StripSpaces(a + b) == StripSpaces(a) + StripSpaces(b)
    decreases |a|
  {
    if a == [] {
      assert a + b == b;
    } else {
      assert (a + b)[1..] == a[1..] + b;
      StripSpacesAppend(a[1..], b);
    }
  }

  /** `s.slice(-n)`: the last `n` characters, or all of `s` when it is shorter. As
      `-0` is `0`, `slice(-0)` is all of `s` too. */
  function Last(s: string, n: nat): (r: string)
    ensures |r| == if n == 0 || |s| <= n then |s| else n
    ensures r == s[|s| - |r|..]
  {
    if n == 0 || |s| <= n then s else s[|s| - n..]
  }
}
