/**
 * The three Python string built-ins the ingestion path relies on:
 * `s.split('\n')`, `s.strip()` and `a, b = s.split('  ', 1)`.
 */
module PyStr {
  import opened Wrappers

  // ---------------------------------------------------------------------
  // s.split('\n')
  // ---------------------------------------------------------------------

  /** Joins pieces with a newline between each two; the inverse of SplitLines. */
  function JoinLines(lines: seq<string>): string
    requires |lines| >= 1
    decreases |lines|
  {
    if |lines| == 1 then lines[0] else lines[0] + "\n" + JoinLines(lines[1..])
  }

  /** True when no piece holds a newline. */
  predicate NewlineFree(lines: seq<string>)
  {
    forall i :: 0 <= i < |lines| ==> '\n' !in lines[i]
  }

  /**
   * Python's `s.split('\n')`: the pieces between newlines, always at least
   * one (an empty text gives one empty piece, a trailing newline gives a
   * trailing empty piece).
   */
  function SplitLines(s: string): (lines: seq<string>)
    ensures |lines| >= 1
    ensures NewlineFree(lines)
    ensures JoinLines(lines) == s
    decreases |s|
  {
    if s == [] then [""]
    else
      var rest := SplitLines(s[1..]);
      if s[0] == '\n' then
        [""] + rest
      else
        var lines := [[s[0]] + rest[0]] + rest[1..];
        assert |rest| > 1 ==> JoinLines(lines) == [s[0]] + rest[0] + "\n" + JoinLines(rest[1..]);
        lines
  }

  /** SplitLines is the only way to cut a text into newline-free pieces. */
  lemma {:induction false} SplitLinesOfJoin(lines: seq<string>)
    requires |lines| >= 1 && NewlineFree(lines)
    ensures SplitLines(JoinLines(lines)) == lines
    decreases |JoinLines(lines)|
  {
    var s := JoinLines(lines);
    if |lines| == 1 {
      if s != [] {
        assert s[0] in lines[0];
        var tail := [s[1..]];
        assert JoinLines(tail) == s[1..];
        SplitLinesOfJoin(tail);
      }
    } else if lines[0] == [] {
      assert s == "\n" + JoinLines(lines[1..]);
      assert s[1..] == JoinLines(lines[1..]);
      SplitLinesOfJoin(lines[1..]);
    } else {
      var tail := [lines[0][1..]] + lines[1..];
      assert s[0] == lines[0][0];
      assert s[0] in lines[0];
      assert JoinLines(tail) == lines[0][1..] + "\n" + JoinLines(lines[1..]);
      assert s[1..] == JoinLines(tail);
      assert NewlineFree(tail) by {
        forall i | 0 <= i < |tail| ensures '\n' !in tail[i] {
          if i == 0 {
            assert forall c :: c in lines[0][1..] ==> c in lines[0];
          } else {
            assert tail[i] == lines[i];
          }
        }
      }
      SplitLinesOfJoin(tail);
      assert [lines[0][0]] + lines[0][1..] == lines[0];
    }
  }

  // ---------------------------------------------------------------------
  // s.strip()
  // ---------------------------------------------------------------------

  /** The characters Python's `str.isspace` accepts, a fixed set. */
  predicate IsSpace(c: char)
  {
    c == ' ' || ('\t' <= c <= '\r') || ('\U{1C}' <= c <= '\U{1F}')
    || c == '\U{85}' || c == '\U{A0}' || c == '\U{1680}'
    || ('\U{2000}' <= c <= '\U{200A}') || c == '\U{2028}' || c == '\U{2029}'
    || c == '\U{202F}' || c == '\U{205F}' || c == '\U{3000}'
  }

  /** True when every character is whitespace (the empty string included). */
  predicate IsBlank(s: string)
  {
    forall i :: 0 <= i < |s| ==> IsSpace(s[i])
  }

  /** `s.lstrip()`: drops leading whitespace. */
  function StripStart(s: string): string
    decreases |s|
  {
    if s == [] || !IsSpace(s[0]) then s else StripStart(s[1..])
  }

  /** `s.rstrip()`: drops trailing whitespace. */
  function StripEnd(s: string): string
    decreases |s|
  {
    if s == [] || !IsSpace(s[|s| - 1]) then s else StripEnd(s[..|s| - 1])
  }

  /** `s.strip()`: a piece of s that neither starts nor ends with whitespace. */
  function Strip(s: string): (r: string)
    ensures |r| <= |s|
    ensures r != [] ==> !IsSpace(r[0]) && !IsSpace(r[|r| - 1])
  {
    StripStartSpec(s);
    StripEndSpec(StripStart(s));
    StripEnd(StripStart(s))
  }

  /** lstrip leaves a suffix that starts with non-whitespace, having dropped only whitespace. */
  lemma {:induction false} StripStartSpec(s: string)
    ensures |StripStart(s)| <= |s| && StripStart(s) == s[|s| - |StripStart(s)|..]
    ensures IsBlank(s[..|s| - |StripStart(s)|])
    ensures StripStart(s) == [] || !IsSpace(StripStart(s)[0])
    decreases |s|
  {
    if s != [] && IsSpace(s[0]) {
      StripStartSpec(s[1..]);
      var r := StripStart(s[1..]);
      assert s[|s| - |r|..] == s[1..][|s| - 1 - |r|..];
      assert s[..|s| - |r|] == [s[0]] + s[1..][..|s| - 1 - |r|];
    } else {
      assert s[..0] == [];
    }
  }

  /** rstrip leaves a prefix that ends with non-whitespace, having dropped only whitespace. */
  lemma {:induction false} StripEndSpec(s: string)
    ensures |StripEnd(s)| <= |s| && StripEnd(s) == s[..|StripEnd(s)|]
    ensures IsBlank(s[|StripEnd(s)|..])
    ensures StripEnd(s) == [] || !IsSpace(StripEnd(s)[|StripEnd(s)| - 1])
    decreases |s|
  {
    if s != [] && IsSpace(s[|s| - 1]) {
      var t := s[..|s| - 1];
      StripEndSpec(t);
      var r := StripEnd(t);
      assert s[..|r|] == t[..|r|];
      assert s[|r|..] == t[|r|..] + [s[|s| - 1]];
    } else {
      assert s[|s|..] == [];
    }
  }

  lemma {:induction false} StripStartOfBlank(s: string)
    requires IsBlank(s)
    ensures StripStart(s) == []
    decreases |s|
  {
    if s != [] {
      assert IsSpace(s[0]);
      StripStartOfBlank(s[1..]);
    }
  }

  /** strip gives the empty string exactly for blank text, and otherwise is bounded by non-whitespace. */
  lemma StripSpec(s: string)
    ensures Strip(s) == [] <==> IsBlank(s)
    ensures Strip(s) != [] ==> !IsSpace(Strip(s)[0]) && !IsSpace(Strip(s)[|Strip(s)| - 1])
  {
    var t := StripStart(s);
    var r := StripEnd(t);
    StripStartSpec(s);
    StripEndSpec(t);
    assert IsBlank(s) ==> t == [] by {
      if IsBlank(s) { StripStartOfBlank(s); }
    }
    assert r == [] ==> IsBlank(s) by {
      if r == [] {
        assert t[0..] == t;
        assert s[..|s| - |t|] == s;
      }
    }
    assert r != [] ==> r[0] == t[0];
  }

  /** Strip removes exactly the whitespace padding around a trimmed core. */
  lemma {:induction false} StripPadded(lead: string, core: string, trail: string)
    requires IsBlank(lead) && IsBlank(trail)
    requires core == [] || (!IsSpace(core[0]) && !IsSpace(core[|core| - 1]))
    ensures Strip(lead + core + trail) == core
  {
    var s := lead + core + trail;
    if core == [] {
      assert IsBlank(s) by {
        forall i | 0 <= i < |s| ensures IsSpace(s[i]) {
          if i < |lead| { assert s[i] == lead[i]; } else { assert s[i] == trail[i - |lead|]; }
        }
      }
      StripSpec(s);
    } else {
      StripStartPadded(lead, core + trail);
      assert s == lead + (core + trail);
      StripEndPadded(core, trail);
    }
  }

  lemma {:induction false} StripStartPadded(lead: string, rest: string)
    requires IsBlank(lead) && (rest == [] || !IsSpace(rest[0]))
    ensures StripStart(lead + rest) == rest
    decreases |lead|
  {
    if lead != [] {
      assert (lead + rest)[1..] == lead[1..] + rest;
      StripStartPadded(lead[1..], rest);
    } else {
      assert lead + rest == rest;
    }
  }

  lemma {:induction false} StripEndPadded(rest: string, trail: string)
    requires IsBlank(trail) && (rest == [] || !IsSpace(rest[|rest| - 1]))
    ensures StripEnd(rest + trail) == rest
    decreases |trail|
  {
    if trail != [] {
      var t := trail[..|trail| - 1];
      assert (rest + trail)[..|rest + trail| - 1] == rest + t;
      StripEndPadded(rest, t);
    } else {
      assert rest + trail == rest;
    }
  }

  // ---------------------------------------------------------------------
  // a, b = s.split('  ', 1)
  // ---------------------------------------------------------------------

  /** Two consecutive spaces start at position i of s. */
  predicate DoubleSpaceAt(s: string, i: int)
  {
    0 <= i && i + 1 < |s| && s[i] == ' ' && s[i + 1] == ' '
  }

  /** The first position at or after `from` where two spaces start. */
  function FindDoubleSpace(s: string, from: nat): (k: Option<nat>)
    requires from <= |s|
    ensures k.Some? ==> from <= k.value && DoubleSpaceAt(s, k.value)
    ensures forall i :: from <= i && (k.None? || i < k.value) ==> !DoubleSpaceAt(s, i)
    decreases |s| - from
  {
    if from + 1 >= |s| then None
    else if s[from] == ' ' && s[from + 1] == ' ' then Some(from)
    else FindDoubleSpace(s, from + 1)
  }

  /**
   * `a, b = s.split('  ', 1)`: the text before the first two-space run and
   * everything after it verbatim; None where Python's unpack raises
   * ValueError because the separator does not occur.
   */
  function SplitOnce(s: string): (r: Option<(string, string)>)
    ensures r.None? <==> forall i :: !DoubleSpaceAt(s, i)
    ensures r.Some? ==> s == r.value.0 + "  " + r.value.1
    ensures r.Some? ==> forall i :: 0 <= i < |r.value.0| ==> !DoubleSpaceAt(s, i)
  {
    match FindDoubleSpace(s, 0)
    case None => None
    case Some(k) =>
      assert s == s[..k] + "  " + s[k + 2..];
      Some((s[..k], s[k + 2..]))
  }

  /** The head of a split has no double space and does not end in a space. */
  predicate SplitHead(a: string)
  {
    (forall i :: 0 <= i < |a| ==> !DoubleSpaceAt(a, i)) && (a == [] || a[|a| - 1] != ' ')
  }

  /** SplitOnce undoes the join of a valid head and any tail at a two-space run. */
  lemma {:induction false} SplitOnceOfJoin(a: string, b: string)
    requires SplitHead(a)
    ensures SplitOnce(a + "  " + b) == Some((a, b))
  {
    var s := a + "  " + b;
    assert DoubleSpaceAt(s, |a|);
    forall i | 0 <= i < |a| ensures !DoubleSpaceAt(s, i) {
      if i + 1 < |a| {
        assert !DoubleSpaceAt(a, i);
      } else {
        assert s[i] == a[|a| - 1];
      }
    }
    var k := FindDoubleSpace(s, 0);
    assert k == Some(|a|) by {
      if k.None? || k.value < |a| { assert false; }
    }
    assert s[..|a|] == a;
    assert s[|a| + 2..] == b;
  }
}
