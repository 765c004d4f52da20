/**
 * The parts of Python's `str` that the session controller relies on:
 * `strip()`, `count(c)`, `startswith`, `endswith`, `in` on substrings,
 * `rfind`, and the slices `s[-n:]` and `s[a:-b]`.
 */
module Text {
  import opened Wrappers

  /** `c.isspace()` for Python 3 strings: the characters `str.strip()` removes. */
  predicate IsSpace(c: char) {
    var n := c as int;
    || 0x09 <= n <= 0x0D
    || 0x1C <= n <= 0x20
    || n == 0x85 || n == 0xA0 || n == 0x1680
    || 0x2000 <= n <= 0x200A
    || n == 0x2028 || n == 0x2029 || n == 0x202F || n == 0x205F || n == 0x3000
  }

  predicate AllSpace(s: string) {
    forall i :: 0 <= i < |s| ==> IsSpace(s[i])
  }

  /** `s.lstrip()` */
  function TrimStart(s: string): string {
    if s != [] && IsSpace(s[0]) then TrimStart(s[1..]) else s
  }

  /** `s.rstrip()` */
  function TrimEnd(s: string): string {
    if s != [] && IsSpace(s[|s| - 1]) then TrimEnd(s[..|s| - 1]) else s
  }

  /** `lstrip` removes a run of white space from the front and stops at the first other character. */
  lemma {:induction false} TrimStartShape(s: string)
    ensures var r := TrimStart(s);
      |r| <= |s| && r == s[|s| - |r|..] && AllSpace(s[..|s| - |r|]) && (r == [] || !IsSpace(r[0]))
    decreases |s|
  {
    if s != [] && IsSpace(s[0]) {
      TrimStartShape(s[1..]);
      var r := TrimStart(s[1..]);
      assert s[..|s| - |r|] == [s[0]] + s[1..][..|s[1..]| - |r|];
    }
  }

  /** `rstrip` removes a run of white space from the back and stops at the last other character. */
  lemma {:induction false} TrimEndShape(s: string)
    ensures var r := TrimEnd(s);
      |r| <= |s| && r == s[..|r|] && AllSpace(s[|r|..]) && (r == [] || !IsSpace(r[|r| - 1]))
    decreases |s|
  {
    if s != [] && IsSpace(s[|s| - 1]) {
      TrimEndShape(s[..|s| - 1]);
      var r := TrimEnd(s[..|s| - 1]);
      assert s[|r|..] == s[..|s| - 1][|r|..] + [s[|s| - 1]];
    }
  }

  /** `s.strip()`: the longest infix that neither starts nor ends with white space. */
  function Strip(s: string): string {
    TrimEnd(TrimStart(s))
  }

  lemma {:induction false} TrimStartPadded(pad: string, core: string)
    requires AllSpace(pad)
    requires core == [] || !IsSpace(core[0])
    ensures TrimStart(pad + core) == core
    decreases |pad|
  {
    if pad != [] {
      assert (pad + core)[1..] == pad[1..] + core;
      TrimStartPadded(pad[1..], core);
    }
  }

  lemma {:induction false} TrimEndPadded(core: string, pad: string)
    requires AllSpace(pad)
    requires core == [] || !IsSpace(core[|core| - 1])
    ensures TrimEnd(core + pad) == core
    decreases |pad|
  {
    if pad != [] {
      assert (core + pad)[..|core + pad| - 1] == core + pad[..|pad| - 1];
      TrimEndPadded(core, pad[..|pad| - 1]);
    }
  }

  /** Stripping removes exactly the white space around a text that has none at its ends. */
  lemma StripPadded(before: string, core: string, after: string)
    requires AllSpace(before) && AllSpace(after)
    requires core != [] ==> !IsSpace(core[0]) && !IsSpace(core[|core| - 1])
    ensures Strip(before + core + after) == core
  {
    assert before + core + after == before + (core + after);
    if core == [] {
      assert AllSpace(before + after) by {
        forall i | 0 <= i < |before + after|
          ensures IsSpace((before + after)[i])
        {
          if i >= |before| {
            assert (before + after)[i] == after[i - |before|];
          }
        }
      }
      TrimStartPadded(before + after, []);
      assert before + after + [] == before + after;
      assert before + core + after == before + after;
    } else {
      assert (core + after)[0] == core[0];
      TrimStartPadded(before, core + after);
    }
    TrimEndPadded(core, after);
  }

  /** `strip()` is idempotent, so stripping a directive twice (in `ask_llm`, then in `act`) is stripping it once. */
  lemma StripIdempotent(s: string)
    ensures Strip(Strip(s)) == Strip(s)
  {
    var t := TrimStart(s);
    var r := TrimEnd(t);
    TrimStartShape(s);
    TrimEndShape(t);
    if r != [] {
      assert r[0] == t[0];
    }
    StripPadded([], r, []);
    assert [] + r + [] == r;
  }

  /** `s.count(c)` for a single character. */
  function Count(s: string, c: char): (n: nat)
    ensures n <= |s|
  {
    if s == [] then 0 else (if s[0] == c then 1 else 0) + Count(s[1..], c)
  }

  /** A character occurs in a text exactly when its count there is positive. */
  lemma {:induction false} CountZero(s: string, c: char)
    ensures Count(s, c) == 0 <==> c !in s
    decreases |s|
  {
    if s != [] {
      CountZero(s[1..], c);
      assert s == [s[0]] + s[1..];
    }
  }

  lemma {:induction false} CountConcat(a: string, b: string, c: char)
    ensures Count(a + b, c) == Count(a, c) + Count(b, c)
    decreases |a|
  {
    if a == [] {
      assert a + b == b;
    } else {
      assert (a + b)[1..] == a[1..] + b;
      CountConcat(a[1..], b, c);
    }
  }

  predicate StartsWith(s: string, prefix: string) {
    |prefix| <= |s| && s[..|prefix|] == prefix
  }

  predicate EndsWith(s: string, suffix: string) {
    |suffix| <= |s| && s[|s| - |suffix|..] == suffix
  }

  /** `p` occurs in `s` starting at index `i`. */
  predicate OccursAt(p: string, s: string, i: nat) {
    i + |p| <= |s| && s[i..i + |p|] == p
  }

  /** The greatest index not above `i` at which `p` occurs in `s`. */
  function RFindFrom(p: string, s: string, i: nat): (r: Option<nat>)
    requires i <= |s|
    ensures r.Some? ==> r.value <= i && OccursAt(p, s, r.value)
    ensures r.Some? ==> forall j: nat :: r.value < j <= i ==> !OccursAt(p, s, j)
    ensures r.None? ==> forall j: nat :: j <= i ==> !OccursAt(p, s, j)
    decreases i
  {
    if OccursAt(p, s, i) then Some(i)
    else if i == 0 then None
    else RFindFrom(p, s, i - 1)
  }

  /** `s.rfind(p)`, with `None` for Python's `-1`: the last occurrence of `p` in `s`. */
  function RFind(p: string, s: string): (r: Option<nat>)
    ensures r.Some? ==> OccursAt(p, s, r.value)
    ensures r.Some? ==> forall j: nat :: r.value < j ==> !OccursAt(p, s, j)
    ensures r.None? ==> forall j: nat :: !OccursAt(p, s, j)
  {
    RFindFrom(p, s, |s|)
  }

  /** `p in s` for strings. */
  predicate Contains(s: string, p: string)
    ensures Contains(s, p) <==> exists i: nat :: OccursAt(p, s, i)
  {
    RFind(p, s).Some?
  }

  /** `s[-n:] if len(s) > n else s`: the last `n` characters, or all of `s` when it is shorter. */
  function Tail(s: string, n: nat): (r: string)
    ensures |r| == if |s| < n then |s| else n
    ensures r == s[|s| - |r|..]
  {
    if |s| > n then s[|s| - n..] else s
  }

  /** `s[a:-b]` with Python's clamping: empty when the two cuts cross. */
  function SliceInner(s: string, a: nat, b: nat): (r: string)
    requires 0 < b
    ensures a + b <= |s| ==> r == s[a..|s| - b]
    ensures a + b > |s| ==> r == []
  {
    var hi := if b <= |s| then |s| - b else 0;
    var lo := if a <= |s| then a else |s|;
    if lo <= hi then s[lo..hi] else []
  }

  /** The text before the first `c` (all of `s` when there is none): `s.split(c)[0]`. */
  function Before(s: string, c: char): (r: string)
    ensures StartsWith(s, r) && c !in r
    ensures |r| < |s| ==> s[|r|] == c
  {
    if s == [] || s[0] == c then [] else [s[0]] + Before(s[1..], c)
  }

  /** The text after the first `c`. */
  function After(s: string, c: char): (r: string)
    requires c in s
    ensures |Before(s, c)| < |s| && r == s[|Before(s, c)| + 1..]
  {
    if s[0] == c then s[1..] else After(s[1..], c)
  }

  /** Splitting at the first `c` of `a + [c] + b`, where `a` has none, gives back `a`. */
  lemma {:induction false} BeforeFirst(a: string, c: char, b: string)
    requires c !in a
    ensures Before(a + [c] + b, c) == a
    decreases |a|
  {
    if a == [] {
      assert (a + [c] + b)[0] == c;
    } else {
      assert (a + [c] + b)[1..] == a[1..] + [c] + b;
      BeforeFirst(a[1..], c, b);
      assert a == [a[0]] + a[1..];
    }
  }

  /** A text without `c` is its own part before the first `c`. */
  lemma {:induction false} BeforeAbsent(a: string, c: char)
    requires c !in a
    ensures Before(a, c) == a
    decreases |a|
  {
    if a != [] {
      BeforeAbsent(a[1..], c);
      assert a == [a[0]] + a[1..];
    }
  }

  /** An occurrence stays an occurrence when text is added on either side. */
  lemma OccursInContext(p: string, left: string, s: string, right: string, i: nat)
    requires OccursAt(p, s, i)
    ensures OccursAt(p, left + s + right, |left| + i)
  {
    var t := left + s + right;
    assert t[|left| + i..|left| + i + |p|] == s[i..i + |p|];
  }

  /** `p in a` implies `p in a + b`. */
  lemma ContainsAppend(p: string, a: string, b: string)
    requires Contains(a, p)
    ensures Contains(a + b, p)
  {
    var i: nat :| OccursAt(p, a, i);
    OccursInContext(p, [], a, b, i);
    assert [] + a + b == a + b;
  }

  /** `p in b` implies `p in a + b`. */
  lemma ContainsPrepend(p: string, a: string, b: string)
    requires Contains(b, p)
    ensures Contains(a + b, p)
  {
    var i: nat :| OccursAt(p, b, i);
    OccursInContext(p, a, b, [], i);
    assert a + b + [] == a + b;
  }

  lemma ContainsSelf(p: string)
    ensures Contains(p, p)
  {
    assert OccursAt(p, p, 0);
  }
}
