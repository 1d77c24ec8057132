/**
 * The few JavaScript string operations the link generator relies on:
 * `String.prototype.trim`, `replace(/\s+/g, "-")`, `Array.prototype.join`
 * and `String.prototype.split`, each with a single-character separator.
 */
module Text {

  /** The whitespace class `\s` and the characters `trim` removes, restricted to ASCII. */
  predicate IsSpace(c: char) {
    c == ' ' || c == '\t' || c == '\n' || c == '\r' || c == '\U{000B}' || c == '\U{000C}'
  }

  /** A string made only of whitespace (the empty string included). */
  predicate IsBlank(s: string) {
    forall i :: 0 <= i < |s| ==> IsSpace(s[i])
  }

  /** A string with no whitespace character anywhere. */
  predicate NoSpace(s: string) {
    forall i :: 0 <= i < |s| ==> !IsSpace(s[i])
  }

  /** How many whitespace characters the string starts with. */
  function LeadingSpaces(s: string): (n: nat)
    ensures n <= |s|
    ensures forall i :: 0 <= i < n ==> IsSpace(s[i])
    ensures n < |s| ==> !IsSpace(s[n])
  {
    if s != [] && IsSpace(s[0]) then
      var n := LeadingSpaces(s[1..]);
      assert forall i :: 1 <= i <= n ==> s[i] == s[1..][i - 1];
      assert n + 1 < |s| ==> s[n + 1] == s[1..][n];
      n + 1
    else 0
  }

  /** Drops the leading whitespace: what is left is a suffix that starts with a non-space. */
  function TrimStart(s: string): (r: string)
    ensures |r| <= |s| && r == s[|s| - |r|..]
    ensures forall i :: 0 <= i < |s| - |r| ==> IsSpace(s[i])
    ensures r != [] ==> !IsSpace(r[0])
    ensures s != [] && IsSpace(s[0]) ==> |r| < |s|
  {
    s[LeadingSpaces(s)..]
  }

  /** Drops the trailing whitespace: what is left is a prefix that ends with a non-space. */
  function TrimEnd(s: string): (r: string)
    ensures |r| <= |s| && r == s[..|r|]
    ensures forall i :: |r| <= i < |s| ==> IsSpace(s[i])
    ensures r != [] ==> !IsSpace(r[|r| - 1])
  {
    if s != [] && IsSpace(s[|s| - 1]) then
      var t := s[..|s| - 1];
      assert forall i :: 0 <= i < |t| ==> t[i] == s[i];
      TrimEnd(t)
    else s
  }

  /** `s.trim()`: whitespace removed from both ends. */
  function Trim(s: string): (r: string)
    ensures |r| <= |s|
    ensures r != [] ==> !IsSpace(r[0]) && !IsSpace(r[|r| - 1])
  {
    TrimEnd(TrimStart(s))
  }

  /** `!s.trim()` in JavaScript: the trimmed string is empty exactly when `s` is all whitespace. */
  lemma TrimEmptyIffBlank(s: string)
    ensures Trim(s) == "" <==> IsBlank(s)
  {
    var t := TrimStart(s);
    var r := TrimEnd(t);
    if r == "" {
      assert t == [];
    } else {
      assert r[0] == t[0] == s[|s| - |t|];
    }
  }

  /**
   * `s.replace(/\s+/g, [dash])`: every maximal run of whitespace becomes one `dash`,
   * and every other character is kept in place.
   */
  function ReplaceSpaceRuns(s: string, dash: char): (r: string)
    requires !IsSpace(dash)
    ensures NoSpace(r)
    ensures |r| <= |s|
    decreases |s|
  {
    if s == [] then []
    else
      var head := if IsSpace(s[0]) then dash else s[0];
      var rest := if IsSpace(s[0]) then ReplaceSpaceRuns(TrimStart(s), dash) else ReplaceSpaceRuns(s[1..], dash);
      assert forall i :: 1 <= i < |[head] + rest| ==> ([head] + rest)[i] == rest[i - 1];
      [head] + rest
  }

  /** A string with no whitespace comes back from the rewrite unchanged. */
  lemma {:induction false} ReplaceSpaceRunsIdentity(s: string, dash: char)
    requires !IsSpace(dash)
    requires NoSpace(s)
    ensures ReplaceSpaceRuns(s, dash) == s
    decreases |s|
  {
    if s != [] {
      assert !IsSpace(s[0]);
      ReplaceSpaceRunsIdentity(s[1..], dash);
    }
  }

  /** Applying the rewrite a second time changes nothing. */
  lemma ReplaceSpaceRunsIdempotent(s: string, dash: char)
    requires !IsSpace(dash)
    ensures ReplaceSpaceRuns(ReplaceSpaceRuns(s, dash), dash) == ReplaceSpaceRuns(s, dash)
  {
    ReplaceSpaceRunsIdentity(ReplaceSpaceRuns(s, dash), dash);
  }

  /** Trimming a blank prefix off a string that starts with a non-space leaves exactly that string. */
  lemma TrimStartBlankPrefix(w: string, b: string)
    requires IsBlank(w)
    requires b != [] ==> !IsSpace(b[0])
    ensures TrimStart(w + b) == b
  {
    var s := w + b;
    assert forall i :: 0 <= i < |w| ==> s[i] == w[i];
    assert b != [] ==> s[|w|] == b[0];
    assert LeadingSpaces(s) == |w|;
    assert s[|w|..] == b;
  }

  /** Concatenation regroups freely; stated once so that longer proofs need not rediscover it. */
  lemma AppendAssoc(x: string, y: string, z: string)
    ensures x + (y + z) == x + y + z
  {
  }

  /** A non-space character at the front is kept. */
  lemma ReplaceSpaceRunsWordStep(c: char, t: string, dash: char)
    requires !IsSpace(dash) && !IsSpace(c)
    ensures ReplaceSpaceRuns([c] + t, dash) == [c] + ReplaceSpaceRuns(t, dash)
  {
    assert ([c] + t)[1..] == t;
  }

  /** A space-free stretch at the front is kept as it is, and the rewrite goes on after it. */
  lemma {:induction false} ReplaceSpaceRunsKeepsWord(a: string, t: string, dash: char)
    requires !IsSpace(dash)
    requires NoSpace(a)
    ensures ReplaceSpaceRuns(a + t, dash) == a + ReplaceSpaceRuns(t, dash)
    decreases |a|
  {
    if a == [] {
      assert a + t == t;
      assert a + ReplaceSpaceRuns(t, dash) == ReplaceSpaceRuns(t, dash);
    } else {
      var c, a' := a[0], a[1..];
      assert a == [c] + a';
      AppendAssoc([c], a', t);
      AppendAssoc([c], a', ReplaceSpaceRuns(t, dash));
      assert NoSpace(a') by {
        forall i | 0 <= i < |a'| ensures !IsSpace(a'[i]) {
          assert a'[i] == a[i + 1];
        }
      }
      ReplaceSpaceRunsKeepsWord(a', t, dash);
      ReplaceSpaceRunsWordStep(c, a' + t, dash);
    }
  }

  /** A run of whitespace at the front becomes one `dash`, and the rewrite goes on after it. */
  lemma ReplaceSpaceRunsLeadingRun(w: string, b: string, dash: char)
    requires !IsSpace(dash)
    requires w != [] && IsBlank(w)
    requires b != [] ==> !IsSpace(b[0])
    ensures ReplaceSpaceRuns(w + b, dash) == [dash] + ReplaceSpaceRuns(b, dash)
  {
    assert (w + b)[0] == w[0];
    TrimStartBlankPrefix(w, b);
  }

  /**
   * The rewrite step by step: a space-free stretch `a` is kept, and the run of whitespace
   * `w` after it becomes one `dash`, after which the rewrite goes on with the rest `b`.
   * With `ReplaceSpaceRunsIdentity` for the last stretch this fixes the result of every
   * input, leading and trailing runs included.
   */
  lemma ReplaceSpaceRunsBetweenWords(a: string, w: string, b: string, dash: char)
    requires !IsSpace(dash)
    requires NoSpace(a)
    requires w != [] && IsBlank(w)
    requires b != [] ==> !IsSpace(b[0])
    ensures ReplaceSpaceRuns(a + w + b, dash) == a + [dash] + ReplaceSpaceRuns(b, dash)
  {
    AppendAssoc(a, w, b);
    AppendAssoc(a, [dash], ReplaceSpaceRuns(b, dash));
    ReplaceSpaceRunsKeepsWord(a, w + b, dash);
    ReplaceSpaceRunsLeadingRun(w, b, dash);
  }

  /** `parts.join([sep])`. */
  function Join(parts: seq<string>, sep: char): string
  {
    if |parts| == 0 then ""
    else if |parts| == 1 then parts[0]
    else parts[0] + [sep] + Join(parts[1..], sep)
  }

  /** `s.split([sep])`: the pieces between separators, so that `"".split(sep)` is `[""]`. */
  function Split(s: string, sep: char): (r: seq<string>)
    ensures |r| >= 1
    ensures forall i :: 0 <= i < |r| ==> sep !in r[i]
  {
    if s == [] then [""]
    else if s[0] == sep then [""] + Split(s[1..], sep)
    else
      var rest := Split(s[1..], sep);
      [[s[0]] + rest[0]] + rest[1..]
  }

  /** A piece without the separator splits to itself. */
  lemma {:induction false} SplitPiece(p: string, sep: char)
    requires sep !in p
    ensures Split(p, sep) == [p]
  {
    if p != [] {
      assert p[0] != sep;
      SplitPiece(p[1..], sep);
      assert [p[0]] + p[1..] == p;
    }
  }

  /** Splitting `p + [sep] + t`, where `p` has no separator, yields `p` and then the pieces of `t`. */
  lemma {:induction false} SplitAfterPiece(p: string, sep: char, t: string)
    requires sep !in p
    ensures Split(p + [sep] + t, sep) == [p] + Split(t, sep)
  {
    if p == [] {
      assert p + [sep] + t == [sep] + t;
      assert ([sep] + t)[1..] == t;
    } else {
      var s := p + [sep] + t;
      assert s[0] == p[0] && p[0] != sep;
      assert s[1..] == p[1..] + [sep] + t;
      SplitAfterPiece(p[1..], sep, t);
      assert [p[0]] + p[1..] == p;
    }
  }

  /** Join and split are inverse when no piece contains the separator. */
  lemma {:induction false} SplitJoin(parts: seq<string>, sep: char)
    requires |parts| >= 1
    requires forall i :: 0 <= i < |parts| ==> sep !in parts[i]
    ensures Split(Join(parts, sep), sep) == parts
  {
    if |parts| == 1 {
      SplitPiece(parts[0], sep);
    } else {
      SplitJoin(parts[1..], sep);
      SplitAfterPiece(parts[0], sep, Join(parts[1..], sep));
      assert [parts[0]] + parts[1..] == parts;
    }
  }

  /** The first two parts of a join, with the separator between them, form its prefix. */
  lemma JoinFirstTwo(a: string, b: string, rest: seq<string>, sep: char)
    ensures Join([a, b] + rest, sep) == a + [sep] + b + (if rest == [] then "" else [sep] + Join(rest, sep))
  {
    var parts := [a, b] + rest;
    assert parts[1..] == [b] + rest;
    if rest == [] {
      assert Join(parts[1..], sep) == b;
    } else {
      assert ([b] + rest)[1..] == rest;
      assert Join(parts[1..], sep) == b + [sep] + Join(rest, sep);
    }
  }
}
