// The handful of JavaScript string operations the application relies on,
// stated on `seq<char>`: `trim`, `toLowerCase`, `includes`, `startsWith` and
// the single-character global `replace` calls.
module JsText {

  /** The code points ECMAScript's `String.prototype.trim` removes
    * (WhiteSpace and LineTerminator). */
  predicate IsSpace(c: char)
  {
    c == ' ' || c == '\t' || c == '\n' || c == '\U{B}' || c == '\U{C}' || c == '\r'
    || c == '\U{A0}' || c == '\U{1680}' || ('\U{2000}' <= c <= '\U{200A}')
    || c == '\U{2028}' || c == '\U{2029}' || c == '\U{202F}' || c == '\U{205F}'
    || c == '\U{3000}' || c == '\U{FEFF}'
  }

  predicate AllSpace(s: string)
  {
    forall i :: 0 <= i < |s| ==> IsSpace(s[i])
  }

  lemma AllSpaceAppend(a: string, b: string)
    requires AllSpace(a) && AllSpace(b)
    ensures AllSpace(a + b)
  {
    forall i | 0 <= i < |a + b| ensures IsSpace((a + b)[i]) {
      if i >= |a| {
        assert (a + b)[i] == b[i - |a|];
      }
    }
  }

  /** `s.trimStart()`: the suffix left after dropping leading white space. */
  function TrimStart(s: string): (r: string)
    ensures |r| <= |s| && r == s[|s| - |r|..]
    ensures AllSpace(s[..|s| - |r|])
    ensures r == [] || !IsSpace(r[0])
  {
    if s != [] && IsSpace(s[0]) then
      var t := s[1..];
      var r := TrimStart(t);
      assert s[|s| - |r|..] == t[|t| - |r|..];
      assert s[..|s| - |r|] == [s[0]] + t[..|t| - |r|];
      AllSpaceAppend([s[0]], t[..|t| - |r|]);
      r
    else s
  }

  /** `s.trimEnd()`: the prefix left after dropping trailing white space. */
  function TrimEnd(s: string): (r: string)
    ensures |r| <= |s| && r == s[..|r|]
    ensures AllSpace(s[|r|..])
    ensures r == [] || !IsSpace(r[|r| - 1])
  {
    if s != [] && IsSpace(s[|s| - 1]) then
      var t := s[..|s| - 1];
      var r := TrimEnd(t);
      assert s[..|r|] == t[..|r|];
      assert s[|r|..] == t[|r|..] + [s[|s| - 1]];
      AllSpaceAppend(t[|r|..], [s[|s| - 1]]);
      r
    else s
  }

  /** `s.trim()`. */
  function Trim(s: string): string
  {
    TrimEnd(TrimStart(s))
  }

  /** `!s.trim()`: the string is empty once trimmed. */
  predicate IsBlank(s: string)
  {
    Trim(s) == []
  }

  lemma TrimStartEmptyIff(s: string)
    ensures TrimStart(s) == [] <==> AllSpace(s)
  {
    var r := TrimStart(s);
    if r == [] {
      assert s[..|s|] == s;
    } else {
      assert r[0] == s[|s| - |r|];
    }
  }

  /** A string trims to nothing exactly when every character is white space. */
  lemma BlankIffAllSpace(s: string)
    ensures IsBlank(s) <==> AllSpace(s)
  {
    TrimStartEmptyIff(s);
    var a := TrimStart(s);
    assert TrimEnd(a) == [] ==> a[|TrimEnd(a)|..] == a;
  }

  /** `toLowerCase` on one character: ASCII capitals map to small letters. */
  function LowerChar(c: char): (r: char)
    ensures 'A' <= c <= 'Z' ==> 'a' <= r <= 'z' && r as int - c as int == 32
    ensures !('A' <= c <= 'Z') ==> r == c
  {
    if 'A' <= c <= 'Z' then (c as int + 32) as char else c
  }

  /** `s.toLowerCase()`, character by character. */
  function Lower(s: string): (r: string)
    ensures |r| == |s|
    ensures forall i :: 0 <= i < |s| ==> r[i] == LowerChar(s[i])
  {
    seq(|s|, i requires 0 <= i < |s| => LowerChar(s[i]))
  }

  /** Lower-casing twice is lower-casing once, and it leaves no capitals. */
  lemma LowerIdempotent(s: string)
    ensures Lower(Lower(s)) == Lower(s)
    ensures forall i :: 0 <= i < |s| ==> !('A' <= Lower(s)[i] <= 'Z')
  {
  }

  predicate StartsWith(s: string, prefix: string)
  {
    |prefix| <= |s| && s[..|prefix|] == prefix
  }

  predicate OccursAt(s: string, sub: string, i: int)
  {
    0 <= i && i + |sub| <= |s| && s[i..i + |sub|] == sub
  }

  /** `s.includes(sub)`, scanning start positions left to right. */
  predicate Includes(s: string, sub: string)
    decreases |s|
  {
    StartsWith(s, sub) || (s != [] && Includes(s[1..], sub))
  }

  /** The scan agrees with the textbook definition: `sub` occurs at some index. */
  lemma {:induction false} IncludesIff(s: string, sub: string)
    ensures Includes(s, sub) <==> exists i :: OccursAt(s, sub, i)
    decreases |s|
  {
    if StartsWith(s, sub) {
      assert OccursAt(s, sub, 0);
    } else if s != [] {
      IncludesIff(s[1..], sub);
      if Includes(s[1..], sub) {
        var i :| OccursAt(s[1..], sub, i);
        assert s[i + 1..i + 1 + |sub|] == s[1..][i..i + |sub|];
        assert OccursAt(s, sub, i + 1);
      } else {
        forall i | 0 <= i ensures !OccursAt(s, sub, i) {
          if i == 0 {
            if |sub| <= |s| {
              assert s[0..|sub|] == s[..|sub|];
            }
          } else if i + |sub| <= |s| {
            assert s[1..][i - 1..i - 1 + |sub|] == s[i..i + |sub|];
            assert !OccursAt(s[1..], sub, i - 1);
          }
        }
      }
    }
  }

  /** The empty string occurs in every string. */
  lemma IncludesEmpty(s: string)
    ensures Includes(s, [])
  {
    assert StartsWith(s, []);
  }

  /** `s.replace(/x/g, y)` for a one-character pattern `x`. */
  function ReplaceChar(s: string, x: char, y: char): (r: string)
    ensures |r| == |s|
    ensures forall i :: 0 <= i < |s| ==> r[i] == (if s[i] == x then y else s[i])
  {
    seq(|s|, i requires 0 <= i < |s| => if s[i] == x then y else s[i])
  }

  /** `s.replace(/[...]/g, '')`: delete every character of the class `cs`. */
  function RemoveChars(s: string, cs: set<char>): (r: string)
    ensures |r| <= |s|
    ensures forall i :: 0 <= i < |r| ==> r[i] !in cs
    ensures multiset(r) <= multiset(s)
  {
    if s == [] then []
    else
      var rest := RemoveChars(s[1..], cs);
      assert s == [s[0]] + s[1..];
      if s[0] in cs then rest else [s[0]] + rest
  }

  /** Removing characters that do not occur leaves the string as it was, so
    * removing twice is removing once. */
  lemma {:induction false} RemoveCharsIdle(s: string, cs: set<char>)
    requires forall i :: 0 <= i < |s| ==> s[i] !in cs
    ensures RemoveChars(s, cs) == s
  {
    if s != [] {
      RemoveCharsIdle(s[1..], cs);
    }
  }

  /** Every character that is not removed survives, in order: the result is
    * the input with exactly the characters of `cs` filtered out. */
  lemma {:induction false} RemoveCharsKeeps(s: string, cs: set<char>, c: char)
    requires c !in cs
    ensures multiset(RemoveChars(s, cs))[c] == multiset(s)[c]
  {
    if s != [] {
      RemoveCharsKeeps(s[1..], cs, c);
      assert s == [s[0]] + s[1..];
    }
  }
}
