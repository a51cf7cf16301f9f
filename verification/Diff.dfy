// The line diff shown for each history result: an LCS table filled in place,
// then a backtrack that prefers additions on ties.
module Diff {
  import opened Common

  datatype Kind = Equal | Added | Removed

  datatype DiffLine = DiffLine(text: string, kind: Kind)

  datatype Stats = Stats(added: nat, removed: nat, hasChanges: bool)

  // ---------- lines ----------

  function SplitLines(s: string): (lines: seq<string>)
    ensures |lines| >= 1
  {
    if s == "" then [""]
    else
      var rest := SplitLines(s[1..]);
      if s[0] == '\n' then [""] + rest else [[s[0]] + rest[0]] + rest[1..]
  }

  function JoinLines(lines: seq<string>): string
    requires |lines| >= 1
  {
    if |lines| == 1 then lines[0] else lines[0] + "\n" + JoinLines(lines[1..])
  }

  lemma {:induction false} JoinPrepend(c: char, lines: seq<string>)
    requires |lines| >= 1
    ensures JoinLines([[c] + lines[0]] + lines[1..]) == [c] + JoinLines(lines)
  {
    var first, others := lines[0], lines[1..];
    var longer := [[c] + first] + others;
    assert longer[1..] == others;
    if |lines| > 1 {
      var tail := JoinLines(others);
      assert JoinLines(lines) == first + "\n" + tail;
      assert JoinLines(longer) == [c] + first + "\n" + tail;
      assert [c] + first + "\n" + tail == [c] + (first + "\n" + tail);
    }
  }

  /** Splitting loses nothing, so different texts have different lines. */
  lemma {:induction false} JoinSplit(s: string)
    ensures JoinLines(SplitLines(s)) == s
  {
    if s != "" {
      var rest := SplitLines(s[1..]);
      JoinSplit(s[1..]);
      if s[0] == '\n' {
        assert ([""] + rest)[1..] == rest;
        assert JoinLines([""] + rest) == "" + "\n" + s[1..] == s;
      } else {
        JoinPrepend(s[0], rest);
      }
    }
  }

  /** No text between two line breaks contains one. */
  ghost predicate Unbroken(lines: seq<string>) {
    forall k :: 0 <= k < |lines| ==> '\n' !in lines[k]
  }

  lemma {:induction false} SplitIsUnbroken(s: string)
    ensures Unbroken(SplitLines(s))
  {
    if s != "" {
      SplitIsUnbroken(s[1..]);
    }
  }

  lemma SplitPrepend(c: char, s: string)
    ensures SplitLines([c] + s) ==
      if c == '\n' then [""] + SplitLines(s) else [[c] + SplitLines(s)[0]] + SplitLines(s)[1..]
  {
    assert ([c] + s)[1..] == s;
  }

  lemma {:induction false} SplitFirst(line: string, rest: string)
    requires '\n' !in line
    ensures SplitLines(line + "\n" + rest) == [line] + SplitLines(rest)
    ensures SplitLines(line) == [line]
  {
    if line == "" {
      SplitPrepend('\n', rest);
      assert line + "\n" + rest == ['\n'] + rest;
    } else {
      SplitFirst(line[1..], rest);
      SplitPrepend(line[0], line[1..] + "\n" + rest);
      SplitPrepend(line[0], line[1..]);
      assert line + "\n" + rest == [line[0]] + (line[1..] + "\n" + rest);
      assert line == [line[0]] + line[1..];
    }
  }

  lemma {:induction false} SplitJoin(lines: seq<string>)
    requires |lines| >= 1 && Unbroken(lines)
    ensures SplitLines(JoinLines(lines)) == lines
  {
    if |lines| == 1 {
      SplitFirst(lines[0], "");
    } else {
      SplitJoin(lines[1..]);
      SplitFirst(lines[0], JoinLines(lines[1..]));
    }
  }

  /** The lines of a text are the only unbroken pieces that line breaks join to it. */
  lemma SplitExactly(s: string, lines: seq<string>)
    ensures lines == SplitLines(s) <==> |lines| >= 1 && Unbroken(lines) && JoinLines(lines) == s
  {
    JoinSplit(s);
    SplitIsUnbroken(s);
    if |lines| >= 1 && Unbroken(lines) {
      SplitJoin(lines);
    }
  }

  // ---------- edit scripts, independently of how one is computed ----------

  /** The lines a script was made from: equal and removed ones, in order. */
  function Before(script: seq<DiffLine>): seq<string> {
    if script == [] then []
    else
      var last := script[|script| - 1];
      Before(script[..|script| - 1]) + if last.kind == Added then [] else [last.text]
  }

  /** The lines a script leads to: equal and added ones, in order. */
  function After(script: seq<DiffLine>): seq<string> {
    if script == [] then []
    else
      var last := script[|script| - 1];
      After(script[..|script| - 1]) + if last.kind == Removed then [] else [last.text]
  }

  /** The lines of one kind, in order (the viewer's filters). */
  function Select(script: seq<DiffLine>, kind: Kind): seq<string> {
    if script == [] then []
    else
      var last := script[|script| - 1];
      Select(script[..|script| - 1], kind) + if last.kind == kind then [last.text] else []
  }

  ghost predicate Transforms(script: seq<DiffLine>, a: seq<string>, b: seq<string>) {
    Before(script) == a && After(script) == b
  }

  function Cost(script: seq<DiffLine>): nat {
    |Select(script, Added)| + |Select(script, Removed)|
  }

  /** Within a changed hunk, removals come first: an added line and a later removed one have an
      equal line between them. */
  ghost predicate RemovalsFirst(script: seq<DiffLine>) {
    forall p, q :: 0 <= p < q < |script| && script[p].kind == Added && script[q].kind == Removed ==>
      exists r :: p < r < q && script[r].kind == Equal
  }

  ghost predicate IsSubsequence(c: seq<string>, a: seq<string>) {
    if c == [] then true
    else if a == [] then false
    else
      || (c[|c| - 1] == a[|a| - 1] && IsSubsequence(c[..|c| - 1], a[..|a| - 1]))
      || IsSubsequence(c, a[..|a| - 1])
  }

  // ---------- the table ----------

  function Max(x: nat, y: nat): nat { if x > y then x else y }

  /** Length of a longest common subsequence of the first i lines of a and the first j of b. */
  function Lcs(a: seq<string>, b: seq<string>, i: nat, j: nat): nat
    requires i <= |a| && j <= |b|
    decreases i + j
  {
    if i == 0 || j == 0 then 0
    else if a[i - 1] == b[j - 1] then Lcs(a, b, i - 1, j - 1) + 1
    else Max(Lcs(a, b, i - 1, j), Lcs(a, b, i, j - 1))
  }

  /** Neighbouring cells differ by at most one, and never decrease. */
  lemma {:induction false} LcsStep(a: seq<string>, b: seq<string>, i: nat, j: nat)
    requires i <= |a| && j <= |b|
    ensures i < |a| ==> Lcs(a, b, i, j) <= Lcs(a, b, i + 1, j) <= Lcs(a, b, i, j) + 1
    ensures j < |b| ==> Lcs(a, b, i, j) <= Lcs(a, b, i, j + 1) <= Lcs(a, b, i, j) + 1
    decreases i + j
  {
    if i > 0 { LcsStep(a, b, i - 1, j); }
    if j > 0 { LcsStep(a, b, i, j - 1); }
  }

  lemma {:induction false} LcsSymmetric(a: seq<string>, b: seq<string>, i: nat, j: nat)
    requires i <= |a| && j <= |b|
    ensures Lcs(a, b, i, j) == Lcs(b, a, j, i)
    decreases i + j
  {
    if i > 0 && j > 0 {
      LcsSymmetric(a, b, i - 1, j - 1);
      LcsSymmetric(a, b, i - 1, j);
      LcsSymmetric(a, b, i, j - 1);
    }
  }

  lemma {:induction false} DropLast(c: seq<string>, a: seq<string>)
    requires c != [] && a != [] && IsSubsequence(c, a)
    ensures IsSubsequence(c[..|c| - 1], a[..|a| - 1])
  {
    if !(c[|c| - 1] == a[|a| - 1] && IsSubsequence(c[..|c| - 1], a[..|a| - 1])) {
      var a' := a[..|a| - 1];
      DropLast(c, a');
      if |c| > 1 {
        assert IsSubsequence(c[..|c| - 1], a'[..|a'| - 1]);
      }
    }
  }

  /** No common subsequence is longer than the table's entry. */
  lemma {:induction false} LcsIsUpperBound(c: seq<string>, a: seq<string>, b: seq<string>, i: nat, j: nat)
    requires i <= |a| && j <= |b|
    requires IsSubsequence(c, a[..i]) && IsSubsequence(c, b[..j])
    ensures |c| <= Lcs(a, b, i, j)
    decreases i + j
  {
    if c != [] {
      assert i > 0 && j > 0;
      var ai, bj := a[..i], b[..j];
      assert ai[..i - 1] == a[..i - 1] && bj[..j - 1] == b[..j - 1];
      if a[i - 1] == b[j - 1] {
        DropLast(c, ai);
        DropLast(c, bj);
        LcsIsUpperBound(c[..|c| - 1], a, b, i - 1, j - 1);
      } else if c[|c| - 1] != a[i - 1] {
        LcsIsUpperBound(c, a, b, i - 1, j);
      } else {
        LcsIsUpperBound(c, a, b, i, j - 1);
      }
    }
  }

  // ---------- the backtrack ----------

  /** The script for the first i and j lines; its last line is the one the backtrack emits at (i, j). */
  function Script(a: seq<string>, b: seq<string>, i: nat, j: nat): (script: seq<DiffLine>)
    requires i <= |a| && j <= |b|
    decreases i + j
  {
    if i == 0 && j == 0 then []
    else if i > 0 && j > 0 && a[i - 1] == b[j - 1] then
      Script(a, b, i - 1, j - 1) + [DiffLine(a[i - 1], Equal)]
    else if j > 0 && (i == 0 || Lcs(a, b, i, j - 1) >= Lcs(a, b, i - 1, j)) then
      Script(a, b, i, j - 1) + [DiffLine(b[j - 1], Added)]
    else
      Script(a, b, i - 1, j) + [DiffLine(a[i - 1], Removed)]
  }

  lemma SelectSizes(script: seq<DiffLine>)
    ensures |Select(script, Equal)| + |Select(script, Removed)| == |Before(script)|
    ensures |Select(script, Equal)| + |Select(script, Added)| == |After(script)|
  {
  }

  lemma {:induction false} AppendLine(front: seq<DiffLine>, line: DiffLine, a: seq<string>, b: seq<string>)
    requires Transforms(front, a, b)
    ensures match line.kind
      case Equal => Transforms(front + [line], a + [line.text], b + [line.text])
      case Added => Transforms(front + [line], a, b + [line.text])
      case Removed => Transforms(front + [line], a + [line.text], b)
  {
    assert (front + [line])[..|front|] == front;
  }

  lemma KeptCount(script: seq<DiffLine>)
    requires script != []
    ensures |Select(script, Equal)| ==
      |Select(script[..|script| - 1], Equal)| + if script[|script| - 1].kind == Equal then 1 else 0
  {
  }

  /** Round trip: the script rebuilds both sides. */
  lemma {:induction false} ScriptTransforms(a: seq<string>, b: seq<string>, i: nat, j: nat)
    requires i <= |a| && j <= |b|
    ensures Transforms(Script(a, b, i, j), a[..i], b[..j])
    decreases i + j
  {
    assert i > 0 ==> a[..i] == a[..i - 1] + [a[i - 1]];
    assert j > 0 ==> b[..j] == b[..j - 1] + [b[j - 1]];
    var goal := Script(a, b, i, j);
    if i == 0 && j == 0 {
    } else if i > 0 && j > 0 && a[i - 1] == b[j - 1] {
      ScriptTransforms(a, b, i - 1, j - 1);
      AppendLine(goal[..|goal| - 1], DiffLine(a[i - 1], Equal), a[..i - 1], b[..j - 1]);
    } else if j > 0 && (i == 0 || Lcs(a, b, i, j - 1) >= Lcs(a, b, i - 1, j)) {
      ScriptTransforms(a, b, i, j - 1);
      AppendLine(goal[..|goal| - 1], DiffLine(b[j - 1], Added), a[..i], b[..j - 1]);
    } else {
      ScriptTransforms(a, b, i - 1, j);
      AppendLine(goal[..|goal| - 1], DiffLine(a[i - 1], Removed), a[..i - 1], b[..j]);
    }
  }

  /** The last step of the backtrack: an equal line takes one off the table's entry, another line nothing. */
  lemma LastStep(a: seq<string>, b: seq<string>, i: nat, j: nat) returns (i': nat, j': nat, line: DiffLine)
    requires i <= |a| && j <= |b| && i + j > 0
    ensures i' <= i && j' <= j && i' + j' < i + j
    ensures Script(a, b, i, j) == Script(a, b, i', j') + [line]
    ensures Lcs(a, b, i, j) == Lcs(a, b, i', j') + if line.kind == Equal then 1 else 0
  {
    if i > 0 && j > 0 && a[i - 1] == b[j - 1] {
      i', j', line := i - 1, j - 1, DiffLine(a[i - 1], Equal);
    } else if j > 0 && (i == 0 || Lcs(a, b, i, j - 1) >= Lcs(a, b, i - 1, j)) {
      i', j', line := i, j - 1, DiffLine(b[j - 1], Added);
    } else {
      i', j', line := i - 1, j, DiffLine(a[i - 1], Removed);
    }
  }

  /** The backtrack keeps exactly as many lines as the table says. */
  lemma {:induction false} ScriptKeeps(a: seq<string>, b: seq<string>, i: nat, j: nat, script: seq<DiffLine>)
    requires i <= |a| && j <= |b| && script == Script(a, b, i, j)
    ensures |Select(script, Equal)| == Lcs(a, b, i, j)
    decreases i + j
  {
    if i + j > 0 {
      var i', j', line := LastStep(a, b, i, j);
      KeptCount(script);
      ScriptKeeps(a, b, i', j', script[..|script| - 1]);
    }
  }

  /** The kept lines of any script are a common subsequence of both sides. */
  lemma {:induction false} KeptIsCommon(script: seq<DiffLine>)
    ensures IsSubsequence(Select(script, Equal), Before(script))
    ensures IsSubsequence(Select(script, Equal), After(script))
  {
    if script != [] {
      var n := |script| - 1;
      var front, last := script[..n], script[n];
      KeptIsCommon(front);
      var kept, from, to := Select(script, Equal), Before(script), After(script);
      if last.kind == Equal {
        assert kept[..|kept| - 1] == Select(front, Equal);
        assert from[..|from| - 1] == Before(front) && to[..|to| - 1] == After(front);
      } else {
        assert kept == Select(front, Equal);
        if last.kind == Added {
          assert from == Before(front) && to[..|to| - 1] == After(front);
        } else {
          assert to == After(front) && from[..|from| - 1] == Before(front);
        }
      }
    }
  }

  /** No script from a to b keeps more lines, so none adds and removes fewer. */
  lemma ScriptIsMinimal(a: seq<string>, b: seq<string>, other: seq<DiffLine>)
    requires Transforms(other, a, b)
    ensures Cost(Script(a, b, |a|, |b|)) == |a| + |b| - 2 * Lcs(a, b, |a|, |b|) <= Cost(other)
  {
    ScriptTransforms(a, b, |a|, |b|);
    ScriptKeeps(a, b, |a|, |b|, Script(a, b, |a|, |b|));
    assert a[..|a|] == a && b[..|b|] == b;
    SelectSizes(Script(a, b, |a|, |b|));
    SelectSizes(other);
    KeptIsCommon(other);
    LcsIsUpperBound(Select(other, Equal), a, b, |a|, |b|);
  }

  /** When the backtrack emits a removal, the line before it is not an addition. */
  lemma NoAdditionBeforeRemoval(a: seq<string>, b: seq<string>, i: nat, j: nat)
    requires i <= |a| && j <= |b|
    ensures var s := Script(a, b, i, j);
      |s| >= 2 && s[|s| - 1].kind == Removed ==> s[|s| - 2].kind != Added
  {
    var s := Script(a, b, i, j);
    if |s| >= 2 && s[|s| - 1].kind == Removed && j > 0 {
      assert s == Script(a, b, i - 1, j) + [DiffLine(a[i - 1], Removed)];
      LcsStep(a, b, i - 1, j - 1);
      if i >= 2 {
        assert Lcs(a, b, i, j - 1) < Lcs(a, b, i - 1, j);
      }
    } else if |s| >= 2 && s[|s| - 1].kind == Removed {
      assert s == Script(a, b, i - 1, 0) + [DiffLine(a[i - 1], Removed)];
    }
  }

  lemma {:induction false} ScriptRemovalsFirst(a: seq<string>, b: seq<string>, i: nat, j: nat)
    requires i <= |a| && j <= |b|
    ensures RemovalsFirst(Script(a, b, i, j))
    decreases i + j
  {
    var s := Script(a, b, i, j);
    if i == 0 && j == 0 {
    } else if i > 0 && j > 0 && a[i - 1] == b[j - 1] {
      ScriptRemovalsFirst(a, b, i - 1, j - 1);
      ExtendRemovalsFirst(Script(a, b, i - 1, j - 1), s[|s| - 1]);
    } else if j > 0 && (i == 0 || Lcs(a, b, i, j - 1) >= Lcs(a, b, i - 1, j)) {
      ScriptRemovalsFirst(a, b, i, j - 1);
      ExtendRemovalsFirst(Script(a, b, i, j - 1), s[|s| - 1]);
    } else {
      ScriptRemovalsFirst(a, b, i - 1, j);
      NoAdditionBeforeRemoval(a, b, i, j);
      ExtendRemovalsFirst(Script(a, b, i - 1, j), s[|s| - 1]);
    }
  }

  lemma EqualBetween(s: seq<DiffLine>, p: nat, q: nat) returns (r: nat)
    requires RemovalsFirst(s) && p < q < |s| && s[p].kind == Added && s[q].kind == Removed
    ensures p < r < q && s[r].kind == Equal
  {
    r :| p < r < q && s[r].kind == Equal;
  }

  lemma EqualBeforeLast(s: seq<DiffLine>, p: nat) returns (r: nat)
    requires RemovalsFirst(s) && p < |s| && s[p].kind == Added && s[|s| - 1].kind != Added
    ensures p < r < |s| && s[r].kind == Equal
  {
    if s[|s| - 1].kind == Removed {
      r := EqualBetween(s, p, |s| - 1);
    } else {
      r := |s| - 1;
    }
  }

  lemma ExtendRemovalsFirst(s: seq<DiffLine>, line: DiffLine)
    requires RemovalsFirst(s)
    requires line.kind == Removed && s != [] ==> s[|s| - 1].kind != Added
    ensures RemovalsFirst(s + [line])
  {
    var t := s + [line];
    forall p, q | 0 <= p < q < |t| && t[p].kind == Added && t[q].kind == Removed
      ensures exists r :: p < r < q && t[r].kind == Equal
    {
      var r;
      if q < |s| {
        r := EqualBetween(s, p, q);
      } else {
        r := EqualBeforeLast(s, p);
      }
      assert t[r] == s[r];
    }
  }

  // ---------- the program ----------

  /** The table: row by row, each cell from its three neighbours. */
  method FillTable(a: seq<string>, b: seq<string>) returns (dp: array2<nat>)
    ensures dp.Length0 == |a| + 1 && dp.Length1 == |b| + 1
    ensures forall x, y {:trigger dp[x, y]} :: 0 <= x <= |a| && 0 <= y <= |b| ==> dp[x, y] == Lcs(a, b, x, y)
  {
    var m, n := |a|, |b|;
    dp := new nat[m + 1, n + 1]((_, _) => 0);
    for i := 1 to m + 1
      invariant forall x :: i <= x <= m ==> dp[x, 0] == 0
      invariant forall x, y {:trigger dp[x, y]} :: 0 <= x < i && 0 <= y <= n ==> dp[x, y] == Lcs(a, b, x, y)
    {
      for j := 1 to n + 1
        invariant forall x :: i < x <= m ==> dp[x, 0] == 0
        invariant forall x, y {:trigger dp[x, y]} :: 0 <= x < i && 0 <= y <= n ==> dp[x, y] == Lcs(a, b, x, y)
        invariant forall y {:trigger dp[i, y]} :: 0 <= y < j ==> dp[i, y] == Lcs(a, b, i, y)
      {
        var cell := if a[i - 1] == b[j - 1] then dp[i - 1, j - 1] + 1 else Max(dp[i - 1, j], dp[i, j - 1]);
        assert cell == Lcs(a, b, i, j);
        dp[i, j] := cell;
      }
    }
  }

  /** One step back: the line emitted at cell (i, j) and the cell it leads to. */
  method StepBack(a: seq<string>, b: seq<string>, dp: array2<nat>, i: nat, j: nat)
    returns (line: DiffLine, i': nat, j': nat)
    requires i <= |a| && j <= |b| && (i > 0 || j > 0)
    requires dp.Length0 == |a| + 1 && dp.Length1 == |b| + 1
    requires i > 0 && j > 0 ==> dp[i, j - 1] == Lcs(a, b, i, j - 1) && dp[i - 1, j] == Lcs(a, b, i - 1, j)
    ensures i' <= i && j' <= j && i' + j' < i + j
    ensures Script(a, b, i, j) == Script(a, b, i', j') + [line]
  {
    if i > 0 && j > 0 && a[i - 1] == b[j - 1] {
      return DiffLine(a[i - 1], Equal), i - 1, j - 1;
    } else if j > 0 && (i == 0 || dp[i, j - 1] >= dp[i - 1, j]) {
      return DiffLine(b[j - 1], Added), i, j - 1;
    } else {
      return DiffLine(a[i - 1], Removed), i - 1, j;
    }
  }

  /** Walks back from the last cell, putting each line in front. */
  method Backtrack(a: seq<string>, b: seq<string>, dp: array2<nat>) returns (result: seq<DiffLine>)
    requires dp.Length0 == |a| + 1 && dp.Length1 == |b| + 1
    requires forall x, y {:trigger dp[x, y]} :: 0 <= x <= |a| && 0 <= y <= |b| ==> dp[x, y] == Lcs(a, b, x, y)
    ensures result == Script(a, b, |a|, |b|)
  {
    result := [];
    var i, j := |a|, |b|;
    ghost var whole := Script(a, b, i, j);
    while i > 0 || j > 0
      invariant 0 <= i <= |a| && 0 <= j <= |b|
      invariant whole == Script(a, b, i, j) + result
      decreases i + j
    {
      var line;
      line, i, j := StepBack(a, b, dp, i, j);
      assert whole == (Script(a, b, i, j) + [line]) + result == Script(a, b, i, j) + ([line] + result);
      result := [line] + result;
    }
  }

  /** Fills the table, then backtracks. */
  method ComputeDiff(before: string, after: string) returns (result: seq<DiffLine>)
    ensures result == DiffOf(before, after)
    ensures Transforms(result, SplitLines(before), SplitLines(after))
    ensures forall other :: Transforms(other, SplitLines(before), SplitLines(after)) ==> Cost(result) <= Cost(other)
    ensures RemovalsFirst(result)
    ensures JoinLines(Before(result)) == before && JoinLines(After(result)) == after
    ensures forall k :: 0 <= k < |result| ==> '\n' !in result[k].text
  {
    var a, b := SplitLines(before), SplitLines(after);
    var dp := FillTable(a, b);
    result := Backtrack(a, b, dp);
    DiffIsCanonical(before, after);
    SplitExactly(before, a);
    SplitExactly(after, b);
    ScriptTextsAreLines(result);
  }

  lemma {:induction false} ScriptTextsAreLines(script: seq<DiffLine>)
    requires Unbroken(Before(script)) && Unbroken(After(script))
    ensures forall k :: 0 <= k < |script| ==> '\n' !in script[k].text
  {
    if script != [] {
      var n := |script| - 1;
      var before, after := Before(script[..n]), After(script[..n]);
      assert forall k :: 0 <= k < |before| ==> before[k] == Before(script)[k];
      assert forall k :: 0 <= k < |after| ==> after[k] == After(script)[k];
      assert script[n].kind != Added ==> Before(script)[|before|] == script[n].text;
      assert script[n].kind == Added ==> After(script)[|after|] == script[n].text;
      ScriptTextsAreLines(script[..n]);
    }
  }

  /** The diff is a script from the old lines to the new ones, of least cost, removals first. */
  lemma DiffIsCanonical(before: string, after: string)
    ensures var a, b, script := SplitLines(before), SplitLines(after), DiffOf(before, after);
      && Transforms(script, a, b)
      && (forall other :: Transforms(other, a, b) ==> Cost(script) <= Cost(other))
      && RemovalsFirst(script)
  {
    var a, b, script := SplitLines(before), SplitLines(after), DiffOf(before, after);
    ScriptTransforms(a, b, |a|, |b|);
    ScriptKeeps(a, b, |a|, |b|, Script(a, b, |a|, |b|));
    assert a[..|a|] == a && b[..|b|] == b;
    forall other | Transforms(other, a, b)
      ensures Cost(script) <= Cost(other)
    {
      ScriptIsMinimal(a, b, other);
    }
    ScriptRemovalsFirst(a, b, |a|, |b|);
  }

  function DiffOf(before: string, after: string): seq<DiffLine> {
    var a, b := SplitLines(before), SplitLines(after);
    Script(a, b, |a|, |b|)
  }

  /** The badge: numbers of added and removed lines; a missing diff counts nothing. */
  function DiffStats(lines: Option<seq<DiffLine>>): Stats {
    match lines
    case None => Stats(0, 0, false)
    case Some(script) =>
      var added, removed := |Select(script, Added)|, |Select(script, Removed)|;
      Stats(added, removed, added > 0 || removed > 0)
  }

  /** An unchanged text has the script that keeps every line. */
  lemma {:induction false} KeepAll(a: seq<string>, i: nat)
    requires i <= |a|
    ensures Transforms(seq(i, k requires 0 <= k < i => DiffLine(a[k], Equal)), a[..i], a[..i])
    ensures Cost(seq(i, k requires 0 <= k < i => DiffLine(a[k], Equal))) == 0
  {
    if i > 0 {
      KeepAll(a, i - 1);
      var front := seq(i - 1, k requires 0 <= k < i - 1 => DiffLine(a[k], Equal));
      assert seq(i, k requires 0 <= k < i => DiffLine(a[k], Equal)) == front + [DiffLine(a[i - 1], Equal)];
      AppendLine(front, DiffLine(a[i - 1], Equal), a[..i - 1], a[..i - 1]);
      assert a[..i] == a[..i - 1] + [a[i - 1]];
    }
  }

  lemma {:induction false} NoCostNoChange(script: seq<DiffLine>)
    requires Cost(script) == 0
    ensures Before(script) == After(script)
  {
    if script != [] {
      NoCostNoChange(script[..|script| - 1]);
    }
  }

  lemma EqualTextsCostNothing(text: string)
    ensures Cost(DiffOf(text, text)) == 0
  {
    var a := SplitLines(text);
    var keep := seq(|a|, k requires 0 <= k < |a| => DiffLine(a[k], Equal));
    assert a[..|a|] == a;
    KeepAll(a, |a|);
    ScriptIsMinimal(a, a, keep);
  }

  lemma CostlessTextsAreEqual(before: string, after: string)
    requires Cost(DiffOf(before, after)) == 0
    ensures before == after
  {
    DiffIsCanonical(before, after);
    NoCostNoChange(DiffOf(before, after));
    JoinSplit(before);
    JoinSplit(after);
  }

  /** The viewer reports changes exactly when the two texts differ. */
  lemma HasChangesIffDifferent(before: string, after: string)
    ensures DiffStats(Some(DiffOf(before, after))).hasChanges <==> before != after
  {
    EqualTextsCostNothing(before);
    if Cost(DiffOf(before, after)) == 0 {
      CostlessTextsAreEqual(before, after);
    }
  }

  lemma StatsAreLcs(before: string, after: string)
    ensures
      var a, b := SplitLines(before), SplitLines(after);
      var stats := DiffStats(Some(DiffOf(before, after)));
      stats.added == |b| - Lcs(a, b, |a|, |b|) && stats.removed == |a| - Lcs(a, b, |a|, |b|)
  {
    var a, b := SplitLines(before), SplitLines(after);
    ScriptTransforms(a, b, |a|, |b|);
    ScriptKeeps(a, b, |a|, |b|, Script(a, b, |a|, |b|));
    assert a[..|a|] == a && b[..|b|] == b;
    SelectSizes(DiffOf(before, after));
  }

  /** Exchanging the texts exchanges the badge's two numbers. */
  lemma SwapExchangesStats(before: string, after: string)
    ensures var there, back := DiffStats(Some(DiffOf(before, after))), DiffStats(Some(DiffOf(after, before)));
      there.added == back.removed && there.removed == back.added
  {
    StatsAreLcs(before, after);
    StatsAreLcs(after, before);
    LcsSymmetric(SplitLines(before), SplitLines(after), |SplitLines(before)|, |SplitLines(after)|);
  }
}
