/** The Python `str` and list operations the core relies on, stated over
    Dafny strings (sequences of Unicode scalar values). */
module Text {

  /** `c.isspace()`: the characters that `str.split()` and `str.strip()`
      treat as whitespace. */
  predicate IsSpace(c: char)
  {
    var n := c as int;
    || 9 <= n <= 13
    || 0x1C <= n <= 0x20
    || n == 0x85 || n == 0xA0 || n == 0x1680
    || 0x2000 <= n <= 0x200A
    || n == 0x2028 || n == 0x2029 || n == 0x202F || n == 0x205F || n == 0x3000
  }

  /** `c.lower()` for ASCII letters; every other character is unchanged. */
  function LowerChar(c: char): char
  {
    if 'A' <= c <= 'Z' then (c as int + 32) as char else c
  }

  /** `s.lower()`, character by character. */
  function ToLower(s: string): (r: string)
    ensures |r| == |s|
    ensures forall i :: 0 <= i < |s| ==> r[i] == LowerChar(s[i])
  {
    seq(|s|, i requires 0 <= i < |s| => LowerChar(s[i]))
  }

  lemma ToLowerAppend(a: string, b: string)
    ensures ToLower(a + b) == ToLower(a) + ToLower(b)
  {
    assert forall i :: 0 <= i < |a + b| ==> ToLower(a + b)[i] == (ToLower(a) + ToLower(b))[i];
  }

  /** `p` occurs in `s` starting at index `i`. */
  predicate OccursAt(s: string, p: string, i: int)
  {
    0 <= i && i + |p| <= |s| && s[i..i + |p|] == p
  }

  /** `p in s`. */
  predicate Contains(s: string, p: string)
  {
    exists i | 0 <= i <= |s| :: OccursAt(s, p, i)
  }

  /** `any(w in s for w in words)`. */
  predicate ContainsAny(s: string, words: seq<string>)
  {
    exists k | 0 <= k < |words| :: Contains(s, words[k])
  }

  lemma ContainsExtended(a: string, b: string, p: string)
    requires Contains(a, p)
    ensures Contains(a + b, p)
  {
    var i :| 0 <= i <= |a| && OccursAt(a, p, i);
    assert (a + b)[i..i + |p|] == a[i..i + |p|];
    assert OccursAt(a + b, p, i);
  }

  lemma ContainsAnyExtended(a: string, b: string, words: seq<string>)
    requires ContainsAny(a, words)
    ensures ContainsAny(a + b, words)
  {
    var k :| 0 <= k < |words| && Contains(a, words[k]);
    ContainsExtended(a, b, words[k]);
  }

  /** A lower-cased text keeps every lower-case match when more text is appended. */
  lemma ContainsAnyLowerExtended(t: string, u: string, words: seq<string>)
    requires ContainsAny(ToLower(t), words)
    ensures ContainsAny(ToLower(t + u), words)
  {
    ToLowerAppend(t, u);
    ContainsAnyExtended(ToLower(t), ToLower(u), words);
  }

  /** A text placed between two texts occurs in the whole. */
  lemma ContainsMiddle(a: string, p: string, b: string)
    ensures Contains(a + p + b, p)
  {
    assert (a + p + b)[|a|..|a| + |p|] == p;
    assert OccursAt(a + p + b, p, |a|);
  }

  /** Whatever occurs in a part occurs in any text built around that part. */
  lemma ContainsWithin(a: string, b: string, c: string, p: string)
    requires Contains(b, p)
    ensures Contains(a + b + c, p)
  {
    var i :| 0 <= i <= |b| && OccursAt(b, p, i);
    assert (a + b + c)[|a| + i..|a| + i + |p|] == b[i..i + |p|];
    assert OccursAt(a + b + c, p, |a| + i);
  }

  /** Both inserted texts occur in `a + x + b + y + c`. */
  lemma ContainsBoth(a: string, x: string, b: string, y: string, c: string)
    ensures Contains(a + x + b + y + c, x) && Contains(a + x + b + y + c, y)
  {
    assert a + x + b + y + c == a + x + (b + y + c);
    ContainsMiddle(a, x, b + y + c);
    ContainsMiddle(a + x + b, y, c);
  }

  /** `"` + s + `"`: the text as an f-string puts it between double quotes. */
  function Quoted(s: string): string
  {
    "\"" + s + "\""
  }

  /** A lower-case word placed between two texts is found in the lower-cased whole. */
  lemma LowerContainsMiddle(a: string, p: string, b: string)
    requires ToLower(p) == p
    ensures Contains(ToLower(a + p + b), p)
  {
    var s := a + p + b;
    assert s[|a|..|a| + |p|] == p;
    assert ToLower(s)[|a|..|a| + |p|] == ToLower(p);
    assert OccursAt(ToLower(s), p, |a|);
  }

  /** A lower-case word inside a leading part stays in the lower-cased whole. */
  lemma LowerContainsInLead(a: string, p: string, b: string, rest: string)
    requires ToLower(p) == p
    ensures Contains(ToLower(a + p + b + rest), p)
  {
    assert a + p + b + rest == a + p + (b + rest);
    LowerContainsMiddle(a, p, b + rest);
  }

  /** A pattern with a character that `s` lacks does not occur in `s`. */
  lemma CharAbsent(s: string, p: string, j: nat)
    requires j < |p| && p[j] !in s
    ensures !Contains(s, p)
  {
    forall i | 0 <= i <= |s| ensures !OccursAt(s, p, i) {
      if i + |p| <= |s| {
        assert s[i..i + |p|][j] == s[i + j];
      }
    }
  }

  /** `s.find(p, k)`: the first index at or after `k` where `p` occurs, or -1. */
  function FindFrom(s: string, p: string, k: nat): (r: int)
    requires k <= |s|
    ensures r == -1 || (k <= r <= |s| && OccursAt(s, p, r))
    ensures forall j :: k <= j <= |s| && (r == -1 || j < r) ==> !OccursAt(s, p, j)
    decreases |s| - k
  {
    if OccursAt(s, p, k) then k
    else if k == |s| then -1
    else FindFrom(s, p, k + 1)
  }

  /** `s.find(p)`: the index of the first occurrence of `p`, or -1. */
  function Find(s: string, p: string): (r: int)
    ensures r == -1 <==> !Contains(s, p)
    ensures r != -1 ==> 0 <= r <= |s| - |p| && OccursAt(s, p, r)
    ensures forall j :: 0 <= j < r ==> !OccursAt(s, p, j)
  {
    FindFrom(s, p, 0)
  }

  /** `s.replace(pat, rep, 1)`: the first occurrence of `pat`, if any, becomes `rep`. */
  function ReplaceFirst(s: string, pat: string, rep: string): (r: string)
    ensures !Contains(s, pat) ==> r == s
    ensures Contains(s, pat) ==>
              |r| == |s| - |pat| + |rep| &&
              r == s[..Find(s, pat)] + rep + s[Find(s, pat) + |pat|..]
  {
    var i := Find(s, pat);
    if i == -1 then s else s[..i] + rep + s[i + |pat|..]
  }

  /** The number of whitespace characters at the start of `s`. */
  function LeadingSpace(s: string): (n: nat)
    ensures n <= |s|
    ensures forall k :: 0 <= k < n ==> IsSpace(s[k])
    ensures n < |s| ==> !IsSpace(s[n])
  {
    if s != [] && IsSpace(s[0]) then 1 + LeadingSpace(s[1..]) else 0
  }

  /** The number of whitespace characters at the end of `s`. */
  function TrailingSpace(s: string): (n: nat)
    ensures n <= |s|
    ensures forall k :: |s| - n <= k < |s| ==> IsSpace(s[k])
    ensures n < |s| ==> !IsSpace(s[|s| - 1 - n])
  {
    if s != [] && IsSpace(s[|s| - 1]) then 1 + TrailingSpace(s[..|s| - 1]) else 0
  }

  /** `s.strip()`: `s` without its leading and trailing whitespace. */
  function Strip(s: string): (r: string)
    ensures r == "" <==> forall k :: 0 <= k < |s| ==> IsSpace(s[k])
    ensures r != "" ==> !IsSpace(r[0]) && !IsSpace(r[|r| - 1])
    ensures |r| <= |s|
  {
    var a := LeadingSpace(s);
    if a == |s| then "" else s[a..|s| - TrailingSpace(s)]
  }

  /** `s.split(sep)` for a one-character separator: the pieces between the
      separators, always at least one (`"".split("\n") == [""]`). */
  function Split(s: string, sep: char): (parts: seq<string>)
    ensures |parts| >= 1
    ensures forall k :: 0 <= k < |parts| ==> sep !in parts[k]
    decreases |s|
  {
    if s == [] then [""]
    else
      var rest := Split(s[1..], sep);
      if s[0] == sep then [""] + rest
      else [[s[0]] + rest[0]] + rest[1..]
  }

  /** `sep.join(parts)`. */
  function Join(parts: seq<string>, sep: string): string
    decreases |parts|
  {
    if |parts| == 0 then ""
    else if |parts| == 1 then parts[0]
    else parts[0] + sep + Join(parts[1..], sep)
  }

  /** Splitting on a separator and joining the pieces back gives the original text. */
  lemma {:induction false} JoinSplit(s: string, sep: char)
    ensures Join(Split(s, sep), [sep]) == s
    decreases |s|
  {
    if s != [] {
      var rest := Split(s[1..], sep);
      JoinSplit(s[1..], sep);
      if s[0] == sep {
        assert ([""] + rest)[1..] == rest;
        assert s == [sep] + s[1..];
      } else {
        var parts := [[s[0]] + rest[0]] + rest[1..];
        assert parts[1..] == rest[1..];
        if |rest| == 1 {
          assert s == [s[0]] + s[1..];
        } else {
          assert rest[1..] == rest[1..];
          assert Join(rest, [sep]) == rest[0] + [sep] + Join(rest[1..], [sep]);
          assert s == [s[0]] + s[1..];
        }
      }
    }
  }

  /** Every piece of a join occurs in the joined text. */
  lemma {:induction false} JoinContainsPart(parts: seq<string>, sep: string, k: nat)
    requires k < |parts|
    ensures Contains(Join(parts, sep), parts[k])
    decreases |parts|
  {
    if |parts| == 1 {
      assert OccursAt(Join(parts, sep), parts[k], 0);
    } else if k == 0 {
      var j := Join(parts, sep);
      assert j == parts[0] + (sep + Join(parts[1..], sep));
      assert j[0..|parts[0]|] == parts[0];
      assert OccursAt(j, parts[0], 0);
    } else {
      JoinContainsPart(parts[1..], sep, k - 1);
      var rest := Join(parts[1..], sep);
      var i :| 0 <= i <= |rest| && OccursAt(rest, parts[k], i);
      var pre := parts[0] + sep;
      assert Join(parts, sep) == pre + rest;
      assert (pre + rest)[|pre| + i..|pre| + i + |parts[k]|] == rest[i..i + |parts[k]|];
      assert OccursAt(Join(parts, sep), parts[k], |pre| + i);
    }
  }

  /** `chr(10).join(f"- {x}" for x in items)`: one bullet line per item. */
  function BulletList(items: seq<string>): (r: string)
    ensures forall k :: 0 <= k < |items| ==> Contains(r, "- " + items[k])
  {
    var lines := seq(|items|, i requires 0 <= i < |items| => "- " + items[i]);
    forall k | 0 <= k < |items| ensures Contains(Join(lines, "\n"), "- " + items[k]) {
      JoinContainsPart(lines, "\n", k);
    }
    Join(lines, "\n")
  }

  /** `len(s.split())`: the number of maximal runs of non-whitespace characters. */
  function WordCount(s: string): nat
    decreases |s|
  {
    if s == [] then 0
    else
      var n := |s|;
      WordCount(s[..n - 1]) + (if !IsSpace(s[n - 1]) && (n == 1 || IsSpace(s[n - 2])) then 1 else 0)
  }

  /** Appending text never lowers the word count. */
  lemma {:induction false} WordCountExtended(t: string, u: string)
    ensures WordCount(t) <= WordCount(t + u)
    decreases |u|
  {
    if u == [] {
      assert t + u == t;
    } else {
      var u' := u[..|u| - 1];
      WordCountExtended(t, u');
      assert (t + u)[..|t + u| - 1] == t + u';
    }
  }

  /** The decimal digit `d`. */
  function DigitChar(d: nat): char
    requires d < 10
  {
    ('0' as int + d) as char
  }

  /** `str(n)` for a natural number. */
  function NatToString(n: nat): (r: string)
    ensures |r| >= 1
    ensures n >= 10 ==> |r| >= 2
    ensures r[|r| - 1] == DigitChar(n % 10)
    decreases n
  {
    if n < 10 then [DigitChar(n)] else NatToString(n / 10) + [DigitChar(n % 10)]
  }

  /** Distinct numbers have distinct decimal representations. */
  lemma {:induction false} NatToStringInjective(a: nat, b: nat)
    requires NatToString(a) == NatToString(b)
    ensures a == b
    decreases a
  {
    var ra, rb := NatToString(a), NatToString(b);
    assert DigitChar(a % 10) == DigitChar(b % 10);
    if a >= 10 && b >= 10 {
      assert NatToString(a / 10) == ra[..|ra| - 1];
      assert NatToString(b / 10) == rb[..|rb| - 1];
      NatToStringInjective(a / 10, b / 10);
    }
  }

  /** `s[:n]`. */
  function Take<T>(s: seq<T>, n: nat): (r: seq<T>)
    ensures |r| == if |s| <= n then |s| else n
    ensures r == s[..|r|]
  {
    if |s| <= n then s else s[..n]
  }
}
