/**
 * The screen reconciler: `clean_output` (agentuse.py:100-105), which strips
 * terminal escape sequences and control characters from a capture, and
 * `get_new_terminal_content` (agentuse.py:202-222), which cuts the part of a
 * capture that is new since an earlier one.
 */
module Screen {
  import opened Wrappers
  import opened Text

  const Esc: char := '\U{1B}'

  /** The cap on a delta, in characters. */
  const MaxDelta: nat := 30000

  /** `[A-Za-z]` */
  predicate IsLetter(c: char) {
    'A' <= c <= 'Z' || 'a' <= c <= 'z'
  }

  /** `[0-9;]`, the parameter bytes the first two patterns accept. */
  predicate IsParam(c: char) {
    '0' <= c <= '9' || c == ';'
  }

  /** `[\x00-\x08\x0B\x0C\x0E-\x1F\x7F]`: every C0 control but tab, line feed and carriage return, and DEL. */
  predicate IsControl(c: char) {
    var n := c as int;
    0x00 <= n <= 0x08 || n == 0x0B || n == 0x0C || 0x0E <= n <= 0x1F || n == 0x7F
  }

  predicate ControlFree(s: string) {
    forall i :: 0 <= i < |s| ==> !IsControl(s[i])
  }

  /** The three escape-sequence patterns, in the order the passes apply them. */
  datatype Pattern =
    | Csi      // \x1b\[[0-9;]*[A-Za-z]      cursor movement, colours
    | ModeCsi  // \x1b\[[?][0-9;]*[lh]       private mode set / reset
    | AnyCsi   // \x1b\[.*?[A-Za-z]          anything up to the next letter on the line

  /** The end of the run of parameter characters that starts at `i`. */
  function ParamEnd(s: string, i: nat): (j: nat)
    requires i <= |s|
    ensures i <= j <= |s|
    ensures forall k :: i <= k < j ==> IsParam(s[k])
    ensures j < |s| ==> !IsParam(s[j])
    decreases |s| - i
  {
    if i < |s| && IsParam(s[i]) then ParamEnd(s, i + 1) else i
  }

  /** Where the lazy `.*?[A-Za-z]` from `i` stops: at the first letter, at a line feed (which `.` does not match), or at the end. */
  function LazyEnd(s: string, i: nat): (j: nat)
    requires i <= |s|
    ensures i <= j <= |s|
    ensures forall k :: i <= k < j ==> !IsLetter(s[k]) && s[k] != '\n'
    ensures j < |s| ==> IsLetter(s[j]) || s[j] == '\n'
    decreases |s| - i
  {
    if i < |s| && !IsLetter(s[i]) && s[i] != '\n' then LazyEnd(s, i + 1) else i
  }

  /**
   * The length of the match of `p` at the start of `s`, if there is one. The
   * letter (or `l`/`h`) that ends a match is outside the class of the run before
   * it, so no backtracking can make a shorter or a longer match.
   */
  function MatchLength(p: Pattern, s: string): (r: Option<nat>)
    ensures r.Some? ==> 3 <= r.value <= |s| && s[0] == Esc && s[1] == '['
    ensures r.Some? ==> '\n' !in s[..r.value]
  {
    if |s| < 2 || s[0] != Esc || s[1] != '[' then None
    else match p
      case Csi =>
        var j := ParamEnd(s, 2);
        if j < |s| && IsLetter(s[j]) then Some(j + 1) else None
      case ModeCsi =>
        if |s| < 3 || s[2] != '?' then None
        else
          var j := ParamEnd(s, 3);
          if j < |s| && (s[j] == 'l' || s[j] == 'h') then Some(j + 1) else None
      case AnyCsi =>
        var j := LazyEnd(s, 2);
        if j < |s| && IsLetter(s[j]) then Some(j + 1) else None
  }

  /** `re.sub(p, "", s)`: scan left to right, drop each match, keep every other character. */
  function Sub(p: Pattern, s: string): string
    decreases |s|
  {
    if s == [] then []
    else match MatchLength(p, s)
      case Some(n) => Sub(p, s[n..])
      case None => [s[0]] + Sub(p, s[1..])
  }

  /** A pass only deletes characters. */
  lemma {:induction false} SubShrinks(p: Pattern, s: string)
    ensures multiset(Sub(p, s)) <= multiset(s)
    decreases |s|
  {
    if s != [] {
      match MatchLength(p, s)
      case Some(n) =>
        assert Sub(p, s) == Sub(p, s[n..]);
        SubShrinks(p, s[n..]);
        assert s == s[..n] + s[n..];
        assert multiset(s) == multiset(s[..n]) + multiset(s[n..]);
      case None =>
        var tail := Sub(p, s[1..]);
        assert Sub(p, s) == [s[0]] + tail;
        SubShrinks(p, s[1..]);
        assert s == [s[0]] + s[1..];
        assert multiset(s) == multiset([s[0]]) + multiset(s[1..]);
        assert multiset([s[0]] + tail) == multiset([s[0]]) + multiset(tail);
    }
  }

  /** No match spans a line feed, so a pass keeps every line feed. */
  lemma {:induction false} SubKeepsLineFeeds(p: Pattern, s: string)
    ensures Count(Sub(p, s), '\n') == Count(s, '\n')
    decreases |s|
  {
    if s != [] {
      match MatchLength(p, s)
      case Some(n) =>
        SubKeepsLineFeeds(p, s[n..]);
        assert s == s[..n] + s[n..];
        CountConcat(s[..n], s[n..], '\n');
        CountZero(s[..n], '\n');
      case None =>
        SubKeepsLineFeeds(p, s[1..]);
        CountConcat([s[0]], Sub(p, s[1..]), '\n');
        CountConcat([s[0]], s[1..], '\n');
        assert s == [s[0]] + s[1..];
    }
  }

  /** Every match starts with ESC, so a text without ESC passes unchanged. */
  lemma {:induction false} SubWithoutEsc(p: Pattern, s: string)
    requires Esc !in s
    ensures Sub(p, s) == s
    decreases |s|
  {
    if s != [] {
      SubWithoutEsc(p, s[1..]);
      assert s == [s[0]] + s[1..];
    }
  }

  /** The last pass: delete every control character, keep everything else in order. */
  function DropControls(s: string): (r: string)
    ensures ControlFree(r)
  {
    if s == [] then []
    else if IsControl(s[0]) then DropControls(s[1..])
    else [s[0]] + DropControls(s[1..])
  }

  /** The last pass keeps every occurrence of a character that is not a control. */
  lemma {:induction false} DropControlsKeepsCount(s: string, c: char)
    requires !IsControl(c)
    ensures Count(DropControls(s), c) == Count(s, c)
    decreases |s|
  {
    if s != [] {
      DropControlsKeepsCount(s[1..], c);
      if !IsControl(s[0]) {
        assert ([s[0]] + DropControls(s[1..]))[1..] == DropControls(s[1..]);
      }
    }
  }

  /** The last pass only deletes characters. */
  lemma {:induction false} DropControlsShrinks(s: string)
    ensures multiset(DropControls(s)) <= multiset(s)
    decreases |s|
  {
    if s != [] {
      DropControlsShrinks(s[1..]);
      assert s == [s[0]] + s[1..];
    }
  }

  lemma {:induction false} DropControlsKeepsClean(s: string)
    requires ControlFree(s)
    ensures DropControls(s) == s
    decreases |s|
  {
    if s != [] {
      DropControlsKeepsClean(s[1..]);
      assert s == [s[0]] + s[1..];
    }
  }

  /** `clean_output`: the three escape-sequence passes, then the control-character pass. */
  function CleanOutput(s: string): (r: string)
    ensures ControlFree(r)
    ensures Esc !in r
  {
    DropControls(Sub(AnyCsi, Sub(ModeCsi, Sub(Csi, s))))
  }

  lemma MultisetChain(m0: multiset<char>, m1: multiset<char>, m2: multiset<char>, m3: multiset<char>, m4: multiset<char>)
    requires m0 <= m1 && m1 <= m2 && m2 <= m3 && m3 <= m4
    ensures m0 <= m4 && |m0| <= |m4|
  {
    assert m4 == m0 + (m1 - m0) + (m2 - m1) + (m3 - m2) + (m4 - m3);
  }

  /** Cleaning never adds a character, so the result is never longer than the capture. */
  lemma CleanOutputShrinks(s: string)
    ensures multiset(CleanOutput(s)) <= multiset(s)
    ensures |CleanOutput(s)| <= |s|
  {
    var a := Sub(Csi, s);
    var b := Sub(ModeCsi, a);
    var c := Sub(AnyCsi, b);
    SubShrinks(Csi, s);
    SubShrinks(ModeCsi, a);
    SubShrinks(AnyCsi, b);
    var r := DropControls(c);
    DropControlsShrinks(c);
    MultisetChain(multiset(r), multiset(c), multiset(b), multiset(a), multiset(s));
    assert |multiset(r)| <= |multiset(s)|;
  }

  /** Cleaning keeps the line structure: exactly as many line feeds come out as went in. */
  lemma CleanOutputKeepsLineFeeds(s: string)
    ensures Count(CleanOutput(s), '\n') == Count(s, '\n')
  {
    SubKeepsLineFeeds(Csi, s);
    SubKeepsLineFeeds(ModeCsi, Sub(Csi, s));
    SubKeepsLineFeeds(AnyCsi, Sub(ModeCsi, Sub(Csi, s)));
    DropControlsKeepsCount(Sub(AnyCsi, Sub(ModeCsi, Sub(Csi, s))), '\n');
  }

  /** On a capture without escape sequences cleaning only drops controls, so every tab and carriage return survives. */
  lemma CleanOutputPlainText(s: string)
    requires Esc !in s
    ensures CleanOutput(s) == DropControls(s)
    ensures Count(CleanOutput(s), '\t') == Count(s, '\t')
    ensures Count(CleanOutput(s), '\r') == Count(s, '\r')
  {
    SubWithoutEsc(Csi, s);
    SubWithoutEsc(ModeCsi, s);
    SubWithoutEsc(AnyCsi, s);
    DropControlsKeepsCount(s, '\t');
    DropControlsKeepsCount(s, '\r');
  }

  /** The texts cleaning leaves alone are exactly the control-free ones. */
  lemma CleanOutputFixedPoints(s: string)
    ensures CleanOutput(s) == s <==> ControlFree(s)
  {
    if ControlFree(s) {
      assert Esc !in s by {
        if Esc in s {
          var i :| 0 <= i < |s| && s[i] == Esc;
          assert IsControl(s[i]);
        }
      }
      CleanOutputPlainText(s);
      DropControlsKeepsClean(s);
    }
  }

  /** Cleaning twice is cleaning once, so comparing cleaned captures is stable. */
  lemma CleanOutputIdempotent(s: string)
    ensures CleanOutput(CleanOutput(s)) == CleanOutput(s)
  {
    CleanOutputFixedPoints(CleanOutput(s));
  }

  /** A select-graphic-rendition sequence, as colour output writes it. */
  function Sgr(params: string): string {
    "\U{1B}[" + params + "m"
  }

  /** The first pass removes a whole colour sequence. */
  lemma CsiDropsSgr(params: string, rest: string)
    requires forall k :: 0 <= k < |params| ==> IsParam(params[k])
    ensures Sub(Csi, Sgr(params) + rest) == Sub(Csi, rest)
  {
    var a := Sgr(params);
    var s := a + rest;
    assert s[0] == Esc && s[1] == '[';
    assert forall k :: 2 <= k < 2 + |params| ==> s[k] == params[k - 2];
    assert s[2 + |params|] == 'm';
    assert ParamEnd(s, 2) == 2 + |params|;
    assert s[|a|..] == rest;
  }

  lemma ColourExampleParts()
    ensures "\U{1B}[31mred\U{1B}[0m" == Sgr("31") + ("red" + (Sgr("0") + []))
    ensures forall k :: 0 <= k < 2 ==> IsParam("31"[k])
    ensures IsParam("0"[0])
  {
  }

  /** Colour codes are removed and the coloured text is kept. */
  lemma CleanOutputColourExample()
    ensures CleanOutput("\U{1B}[31mred\U{1B}[0m") == "red"
  {
    ColourExampleParts();
    CsiDropsSgr("0", []);
    SubAfterPlainPrefix(Csi, "red", Sgr("0") + []);
    CsiDropsSgr("31", "red" + (Sgr("0") + []));
    assert "red" + [] == "red";
    SubWithoutEsc(ModeCsi, "red");
    SubWithoutEsc(AnyCsi, "red");
    DropControlsKeepsClean("red");
  }

  /** A pass copies a stretch without ESC unchanged and carries on after it. */
  lemma {:induction false} SubAfterPlainPrefix(p: Pattern, a: string, b: string)
    requires Esc !in a
    ensures Sub(p, a + b) == a + Sub(p, b)
    decreases |a|
  {
    if a == [] {
      assert a + b == b;
    } else {
      assert (a + b)[1..] == a[1..] + b;
      SubAfterPlainPrefix(p, a[1..], b);
      assert a == [a[0]] + a[1..];
    }
  }

  /** `ESC [ ? params final`, a private-mode sequence such as the cursor toggles. */
  function Toggle(params: string, final: char): string {
    "\U{1B}[?" + params + [final]
  }

  const ModeExample: string := "\U{1B}[?25lok\U{1B}[?25h"

  /** The first pass does not match a private-mode sequence: its `?` is not a parameter character. */
  lemma CsiSkipsToggle(params: string, final: char, rest: string)
    requires Esc !in params && final != Esc
    ensures Sub(Csi, Toggle(params, final) + rest) == Toggle(params, final) + Sub(Csi, rest)
  {
    var a := Toggle(params, final);
    var s := a + rest;
    assert s[2] == '?';
    assert ParamEnd(s, 2) == 2;
    assert a[1..] == "[?" + params + [final];
    assert s[1..] == a[1..] + rest;
    SubAfterPlainPrefix(Csi, a[1..], rest);
    assert a == [a[0]] + a[1..];
  }

  /** The second pass removes a whole private-mode sequence ending in `l` or `h`. */
  lemma ModeCsiDropsToggle(params: string, final: char, rest: string)
    requires forall k :: 0 <= k < |params| ==> IsParam(params[k])
    requires final == 'l' || final == 'h'
    ensures Sub(ModeCsi, Toggle(params, final) + rest) == Sub(ModeCsi, rest)
  {
    var a := Toggle(params, final);
    var s := a + rest;
    assert s[0] == Esc && s[1] == '[' && s[2] == '?';
    assert forall k :: 3 <= k < 3 + |params| ==> s[k] == params[k - 3];
    assert s[3 + |params|] == final;
    assert ParamEnd(s, 3) == 3 + |params|;
    assert s[|a|..] == rest;
  }

  lemma ModeExampleParts()
    ensures ModeExample == Toggle("25", 'l') + ("ok" + (Toggle("25", 'h') + []))
    ensures Esc !in "25" && forall k :: 0 <= k < 2 ==> IsParam("25"[k])
  {
  }

  lemma ModeExampleFirstPass()
    ensures Sub(Csi, ModeExample) == ModeExample
  {
    ModeExampleParts();
    var on := Toggle("25", 'h');
    CsiSkipsToggle("25", 'h', []);
    SubAfterPlainPrefix(Csi, "ok", on + []);
    CsiSkipsToggle("25", 'l', "ok" + (on + []));
  }

  lemma ModeExampleSecondPass()
    ensures Sub(ModeCsi, ModeExample) == "ok"
  {
    ModeExampleParts();
    var on := Toggle("25", 'h');
    ModeCsiDropsToggle("25", 'l', "ok" + (on + []));
    SubAfterPlainPrefix(ModeCsi, "ok", on + []);
    ModeCsiDropsToggle("25", 'h', []);
    assert "ok" + [] == "ok";
  }

  /** A private-mode toggle escapes the first pass (its `?` is not a parameter) and is removed by the second. */
  lemma CleanOutputModeExample()
    ensures CleanOutput(ModeExample) == "ok"
  {
    ModeExampleFirstPass();
    ModeExampleSecondPass();
    SubWithoutEsc(AnyCsi, "ok");
    DropControlsKeepsClean("ok");
  }

  /**
   * `get_new_terminal_content`: the text after the last occurrence of
   * `previous` in `current`, or the whole of `current` when `previous` is
   * empty or absent; in every case only the last `MaxDelta` characters.
   */
  function NewContent(previous: string, current: string): (r: string)
    ensures |r| <= MaxDelta && |r| <= |current|
    ensures r == current[|current| - |r|..]
    ensures previous == [] || !Contains(current, previous) ==> r == Tail(current, MaxDelta)
    ensures previous != [] && Contains(current, previous) ==>
      exists i: nat :: OccursAt(previous, current, i)
                    && (forall j: nat :: i < j ==> !OccursAt(previous, current, j))
                    && r == Tail(current[i + |previous|..], MaxDelta)
  {
    if previous == [] then Tail(current, MaxDelta)
    else match RFind(previous, current)
      case Some(i) => Tail(current[i + |previous|..], MaxDelta)
      case None => Tail(current, MaxDelta)
  }

  /** An unchanged capture has an empty delta. */
  lemma NewContentOfSameCapture(s: string)
    ensures NewContent(s, s) == []
  {
    if s != [] {
      assert OccursAt(s, s, 0);
    }
  }

  /** The converse fails: a capture that merely ends with the earlier one also has an empty delta. */
  lemma NewContentEmptyForDifferentCaptures()
    ensures NewContent("b", "ab") == [] && "b" != "ab"
  {
    assert OccursAt("b", "ab", 1);
  }

  /** Output appended after the earlier capture is reported exactly, provided the earlier capture does not recur inside it. */
  lemma NewContentOfAppend(previous: string, extra: string)
    requires previous != [] && |extra| <= MaxDelta
    requires forall j: nat :: 0 < j ==> !OccursAt(previous, previous + extra, j)
    ensures NewContent(previous, previous + extra) == extra
  {
    var current := previous + extra;
    assert OccursAt(previous, current, 0);
    assert current[|previous|..] == extra;
  }

  /** The two generations of cleaned capture that the controller keeps. */
  datatype Captures = Captures(transcript: string, previous: string)

  const NoCaptures := Captures([], [])

  /** The captures after a pass, and the delta when the capture changed. */
  datatype Tracked = Tracked(captures: Captures, delta: Option<string>)

  /**
   * The screen bookkeeping of one pass of the loop over a cleaned capture
   * (agentuse.py:347-355): the delta, when the capture changed, is taken
   * against `previous` before the generations shift.
   */
  function Track(c: Captures, clean: string): Tracked {
    if clean == c.transcript then Tracked(c, None)
    else Tracked(Captures(clean, c.transcript), Some(NewContent(c.previous, clean)))
  }

  /**
   * Because the delta is taken before the shift, it is measured against the
   * capture two changes back: the second change of a session is reported in
   * full, the first capture included, rather than only what was added to it.
   */
  lemma SecondChangeReportedInFull(first: string, second: string)
    requires first != [] && second != first
    ensures Track(NoCaptures, first) == Tracked(Captures(first, []), Some(Tail(first, MaxDelta)))
    ensures Track(Track(NoCaptures, first).captures, second) == Tracked(Captures(second, first), Some(Tail(second, MaxDelta)))
  {
  }
}
