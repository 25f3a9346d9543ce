/** String operations with the meaning they have in Python. */
module Text {

  /** Characters that `str.strip` removes. */
  predicate IsSpace(c: char) {
    var n := c as int;
    9 <= n <= 13 || 28 <= n <= 32 || n == 0x85 || n == 0xA0 || n == 0x1680 || 0x2000 <= n <= 0x200A
    || n in {0x2028, 0x2029, 0x202F, 0x205F, 0x3000}
  }

  /** `s.strip()`. */
  function Strip(s: string): string {
    if s == "" then s
    else if IsSpace(s[0]) then Strip(s[1..])
    else if IsSpace(s[|s| - 1]) then Strip(s[..|s| - 1])
    else s
  }

  /** `s.upper()` on the ASCII letters that HTTP methods consist of. */
  function Upper(s: string): string {
    seq(|s|, i requires 0 <= i < |s| => if 'a' <= s[i] <= 'z' then (s[i] as int - 32) as char else s[i])
  }

  lemma UpperExactly(s: string, i: nat)
    requires i < |s|
    ensures |Upper(s)| == |s| && !('a' <= Upper(s)[i] <= 'z')
    ensures Upper(s)[i] == s[i] || ('a' <= s[i] <= 'z' && Upper(s)[i] as int == s[i] as int - 32)
  {
  }

  /** The part of `s` before the first `c`. */
  function Before(s: string, c: char): string { if s == "" || s[0] == c then "" else [s[0]] + Before(s[1..], c) }

  /** `s.rstrip(c)`. */
  function TrimRight(s: string, c: char): string {
    if s != "" && s[|s| - 1] == c then TrimRight(s[..|s| - 1], c) else s
  }

  /** `s.split(c)`. */
  function Split(s: string, c: char): (parts: seq<string>)
    ensures parts != []
    decreases |s|
  {
    var head := Before(s, c);
    if |head| >= |s| then [s] else [head] + Split(s[|head| + 1..], c)
  }

  /** `c.join(parts)`. */
  function Join(parts: seq<string>, c: char): string
    requires parts != []
  {
    if |parts| == 1 then parts[0] else parts[0] + [c] + Join(parts[1..], c)
  }

  lemma {:induction false} BeforeStops(s: string, c: char)
    ensures Before(s, c) <= s && c !in Before(s, c)
    ensures |Before(s, c)| < |s| ==> s[|Before(s, c)|] == c
  {
    if s != "" && s[0] != c {
      BeforeStops(s[1..], c);
    }
  }

  /** Splitting cuts at every separator and loses nothing. */
  lemma {:induction false} SplitJoin(s: string, c: char)
    ensures Join(Split(s, c), c) == s && forall i | 0 <= i < |Split(s, c)| :: c !in Split(s, c)[i]
    decreases |s|
  {
    BeforeStops(s, c);
    var head := Before(s, c);
    if |head| < |s| {
      SplitJoin(s[|head| + 1..], c);
      assert s == head + [c] + s[|head| + 1..];
      assert ([head] + Split(s[|head| + 1..], c))[1..] == Split(s[|head| + 1..], c);
    } else {
      assert head == s;
    }
  }

  lemma {:induction false} BeforeAll(s: string, c: char)
    ensures c !in s ==> Before(s, c) == s
    ensures forall r: string :: c !in s ==> Before(s + [c] + r, c) == s
  {
    if s == "" {
    } else {
      BeforeAll(s[1..], c);
      assert forall r: string :: (s + [c] + r)[1..] == s[1..] + [c] + r;
    }
  }

  /** Splitting cuts off what precedes the first separator. */
  lemma SplitCut(a: string, r: string, c: char)
    requires c !in a
    ensures Split(a + [c] + r, c) == [a] + Split(r, c)
  {
    BeforeAll(a, c);
    assert (a + [c] + r)[|a| + 1..] == r;
  }

  /** `strip` takes off spaces at both ends and nothing else. */
  lemma {:induction false} StripExactly(s: string) returns (left: string, right: string)
    ensures s == left + Strip(s) + right
    ensures (forall i | 0 <= i < |left| :: IsSpace(left[i])) && (forall i | 0 <= i < |right| :: IsSpace(right[i]))
    ensures Strip(s) != "" ==> !IsSpace(Strip(s)[0]) && !IsSpace(Strip(s)[|Strip(s)| - 1])
  {
    hide IsSpace;
    if s == "" {
      left, right := "", "";
    } else if IsSpace(s[0]) {
      left, right := StripExactly(s[1..]);
      left := [s[0]] + left;
    } else if IsSpace(s[|s| - 1]) {
      left, right := StripExactly(s[..|s| - 1]);
      assert s == s[..|s| - 1] + [s[|s| - 1]];
      right := right + [s[|s| - 1]];
    } else {
      left, right := "", "";
    }
  }

  /** `rstrip` takes off one character at the end, as often as it stands there. */
  lemma {:induction false} TrimRightExactly(s: string, c: char)
    ensures TrimRight(s, c) <= s && (forall i | |TrimRight(s, c)| <= i < |s| :: s[i] == c)
    ensures TrimRight(s, c) != "" ==> TrimRight(s, c)[|TrimRight(s, c)| - 1] != c
  {
    if s != "" && s[|s| - 1] == c {
      TrimRightExactly(s[..|s| - 1], c);
    }
  }

  lemma {:induction false} TrimRightMore(s: string, c: char)
    ensures TrimRight(s + [c], c) == TrimRight(s, c)
  {
    assert (s + [c])[..|s|] == s;
  }

  /** `sub in s`. */
  predicate Contains(s: string, sub: string) { exists i | 0 <= i <= |s| :: sub <= s[i..] }
}
