/** String primitives shared by the JavaScript and Python models: ASCII case folding,
    substring search with the semantics of `String.prototype.includes`/`indexOf`,
    whitespace, trimming and `split` on one separator character. */
module Text {

  /** ASCII lowercasing of one character (`toLowerCase` / `str.lower` restricted to ASCII). */
  function LowerChar(c: char): char {
    if 'A' <= c <= 'Z' then (c as int + 32) as char else c
  }

  function Lower(s: string): string {
    seq(|s|, i requires 0 <= i < |s| => LowerChar(s[i]))
  }

  predicate IsUpperAscii(c: char) { 'A' <= c <= 'Z' }
  predicate IsLowerAscii(c: char) { 'a' <= c <= 'z' }
  predicate IsAsciiLetter(c: char) { IsUpperAscii(c) || IsLowerAscii(c) }

  /** No character of `s` is an upper-case ASCII letter. */
  predicate NoUpper(s: string) {
    forall i :: 0 <= i < |s| ==> !IsUpperAscii(s[i])
  }

  lemma LowerHasNoUpper(s: string)
    ensures NoUpper(Lower(s)) && |Lower(s)| == |s|
  {
  }

  lemma LowerOfNoUpper(s: string)
    requires NoUpper(s)
    ensures Lower(s) == s
  {
  }

  lemma LowerAppend(a: string, b: string)
    ensures Lower(a + b) == Lower(a) + Lower(b)
  {
  }

  /** `sub` occurs in `s` at position `i`. */
  predicate Occurs(s: string, sub: string, i: int) {
    0 <= i && i + |sub| <= |s| && s[i..i + |sub|] == sub
  }

  lemma OccursShift(s: string, sub: string, j: int)
    requires |s| > 0 && 1 <= j
    ensures Occurs(s, sub, j) <==> Occurs(s[1..], sub, j - 1)
  {
    if j + |sub| <= |s| {
      assert s[j..j + |sub|] == s[1..][j - 1..j - 1 + |sub|];
    }
  }

  /** `s.indexOf(sub)`: the first position where `sub` occurs, or -1 when it does not
      occur (`IndexOfCorrect`). */
  function IndexOf(s: string, sub: string): (r: int)
    ensures -1 <= r <= |s|
    decreases |s|
  {
    if sub <= s then 0
    else if s == [] then -1
    else
      var k := IndexOf(s[1..], sub);
      if k >= 0 then k + 1 else -1
  }

  /** `IndexOf` finds an occurrence, and no occurrence comes before it. */
  lemma {:induction false} IndexOfCorrect(s: string, sub: string)
    ensures IndexOf(s, sub) >= 0 ==> Occurs(s, sub, IndexOf(s, sub))
    ensures forall j :: 0 <= j < (if IndexOf(s, sub) < 0 then |s| + 1 else IndexOf(s, sub)) ==> !Occurs(s, sub, j)
    decreases |s|
  {
    if sub <= s {
      assert s[0..|sub|] == sub;
    } else if s != [] {
      IndexOfCorrect(s[1..], sub);
      var k := IndexOf(s[1..], sub);
      assert !Occurs(s, sub, 0);
      forall j | 1 <= j < (if k < 0 then |s| + 1 else k + 1)
        ensures !Occurs(s, sub, j)
      {
        OccursShift(s, sub, j);
      }
      if k >= 0 {
        OccursShift(s, sub, k + 1);
      }
    }
  }

  /** `s.includes(sub)`. */
  predicate Contains(s: string, sub: string) {
    IndexOf(s, sub) >= 0
  }

  lemma ContainsIff(s: string, sub: string)
    ensures Contains(s, sub) <==> exists i :: Occurs(s, sub, i)
  {
    IndexOfCorrect(s, sub);
    if !Contains(s, sub) {
      forall i ensures !Occurs(s, sub, i) {
        if 0 <= i <= |s| {
        }
      }
    }
  }

  lemma ContainsEmpty(s: string)
    ensures Contains(s, "")
  {
    IndexOfCorrect(s, "");
    assert Occurs(s, "", 0);
  }

  lemma ContainsSelf(s: string)
    ensures Contains(s, s)
  {
    IndexOfCorrect(s, s);
    assert Occurs(s, s, 0);
  }

  /** A string containing `b` contains everything `b` contains. */
  lemma ContainsTrans(s: string, b: string, a: string)
    requires Contains(s, b) && Contains(b, a)
    ensures Contains(s, a)
  {
    ContainsIff(s, b);
    ContainsIff(b, a);
    var i :| Occurs(s, b, i);
    var j :| Occurs(b, a, j);
    assert s[i..i + |b|] == b && b[j..j + |a|] == a;
    forall k | 0 <= k < |a| ensures s[i + j + k] == a[k] {
      assert s[i + j + k] == s[i..i + |b|][j + k];
    }
    assert s[i + j..i + j + |a|] == a;
    assert Occurs(s, a, i + j);
    ContainsIff(s, a);
  }

  /** `a.toLowerCase().includes(b.toLowerCase())`. */
  predicate ContainsCI(a: string, b: string) {
    Contains(Lower(a), Lower(b))
  }

  /** Whitespace as both JavaScript and Python's `re` agree on it for ASCII:
      space, tab, newline, vertical tab, form feed and carriage return. */
  predicate IsSpace(c: char) {
    c == ' ' || c == '\t' || c == '\n' || c == '\r' || c == '\U{000B}' || c == '\U{000C}'
  }

  function TrimStart(s: string): (r: string)
    ensures |r| <= |s|
    ensures r == s[|s| - |r|..]
    ensures r == [] || !IsSpace(r[0])
  {
    if s != [] && IsSpace(s[0]) then TrimStart(s[1..]) else s
  }

  function TrimEnd(s: string): (r: string)
    ensures |r| <= |s|
    ensures r == s[..|r|]
    ensures r == [] || !IsSpace(r[|r| - 1])
  {
    if s != [] && IsSpace(s[|s| - 1]) then TrimEnd(s[..|s| - 1]) else s
  }

  /** `s.trim()`. */
  function Trim(s: string): string {
    TrimEnd(TrimStart(s))
  }

  /** Every character is whitespace. */
  predicate AllSpace(s: string) {
    forall i :: 0 <= i < |s| ==> IsSpace(s[i])
  }

  lemma {:induction false} TrimStartBlank(s: string)
    ensures TrimStart(s) == [] <==> AllSpace(s)
  {
    if s != [] && IsSpace(s[0]) {
      TrimStartBlank(s[1..]);
      assert forall i :: 1 <= i < |s| ==> s[i] == s[1..][i - 1];
    }
  }

  lemma {:induction false} TrimEndBlank(s: string)
    ensures TrimEnd(s) == [] <==> AllSpace(s)
  {
    if s != [] && IsSpace(s[|s| - 1]) {
      TrimEndBlank(s[..|s| - 1]);
      assert forall i :: 0 <= i < |s| - 1 ==> s[i] == s[..|s| - 1][i];
    }
  }

  /** `!s.trim()`: trimming leaves nothing exactly when `s` is all whitespace. */
  lemma TrimBlank(s: string)
    ensures Trim(s) == [] <==> AllSpace(s)
  {
    TrimStartBlank(s);
    var t := TrimStart(s);
    TrimEndBlank(t);
    assert t == [] || !IsSpace(t[0]);
  }

  /** Number of occurrences of character `c` in `s`. */
  function CountChar(s: string, c: char): nat {
    if s == [] then 0 else (if s[0] == c then 1 else 0) + CountChar(s[1..], c)
  }

  lemma CountCharAppend(a: string, b: string, c: char)
    ensures CountChar(a + b, c) == CountChar(a, c) + CountChar(b, c)
  {
    if a == [] {
      assert a + b == b;
    } else {
      assert (a + b)[0] == a[0];
      assert (a + b)[1..] == a[1..] + b;
      CountCharAppend(a[1..], b, c);
    }
  }

  /** `s.split(sep)` for a one-character separator: the pieces between separators,
      including empty ones; there is one piece more than there are separators. */
  function Split(s: string, sep: char): (r: seq<string>)
    ensures |r| == 1 + CountChar(s, sep)
    ensures forall k :: 0 <= k < |r| ==> sep !in r[k]
    decreases |s|
  {
    if s == [] then
      [""]
    else
      var rest := Split(s[1..], sep);
      if s[0] == sep then [""] + rest
      else [[s[0]] + rest[0]] + rest[1..]
  }

  /** `pieces.join(sep)`. */
  function Join(pieces: seq<string>, sep: char): string {
    if pieces == [] then ""
    else if |pieces| == 1 then pieces[0]
    else pieces[0] + [sep] + Join(pieces[1..], sep)
  }

  /** Splitting and joining again on the same separator gives back the string. */
  lemma {:induction false} JoinSplit(s: string, sep: char)
    ensures Join(Split(s, sep), sep) == s
    decreases |s|
  {
    if s != [] {
      var rest := Split(s[1..], sep);
      JoinSplit(s[1..], sep);
      if s[0] == sep {
        assert Split(s, sep) == [""] + rest;
      } else {
        var r := Split(s, sep);
        assert r == [[s[0]] + rest[0]] + rest[1..];
        if |rest| == 1 {
          assert Join(r, sep) == [s[0]] + rest[0];
        } else {
          assert r[1..] == rest[1..];
          assert Join(rest, sep) == rest[0] + [sep] + Join(rest[1..], sep);
        }
      }
    }
  }
}
