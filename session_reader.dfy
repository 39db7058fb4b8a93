/**
 * The session file reader: the lines of a sessions file are split at separator lines, each
 * run of other lines is joined (every line followed by a newline) and trimmed, and the
 * non-empty results are the sessions, in file order. Reading the file is left to the caller:
 * the model starts from its lines.
 */
module SessionReader {
  import opened Text

  /** A separator line starts with 44 '=' characters. */
  const Separator: string := "============================================"

  predicate IsSeparator(line: string) {
    StartsWith(line, Separator)
  }

  /** The text a run of lines accumulates: each line followed by "\n". */
  function Block(lines: seq<string>): string {
    if lines == [] then "" else Block(lines[..|lines| - 1]) + lines[|lines| - 1] + "\n"
  }

  /** The lines split at separator lines: one run before the first separator, one after each. */
  function Runs(lines: seq<string>): (runs: seq<seq<string>>)
    ensures |runs| >= 1
  {
    if lines == [] then [[]]
    else
      var runs := Runs(lines[..|lines| - 1]);
      var line := lines[|lines| - 1];
      if IsSeparator(line) then runs + [[]]
      else runs[..|runs| - 1] + [runs[|runs| - 1] + [line]]
  }

  /** A session is non-empty, with no whitespace to trim at either end. */
  predicate IsSession(s: string) {
    s != [] && !IsTrimmed(s[0]) && !IsTrimmed(s[|s| - 1])
  }

  /** The session a run gives: its trimmed text, unless that is empty. */
  function SessionOf(run: seq<string>): (r: seq<string>)
    ensures |r| <= 1
  {
    var s := Trim(Block(run));
    if s != [] then [s] else []
  }

  /** The trimmed text of each run, dropping those that trim to nothing. */
  function Keep(runs: seq<seq<string>>): (sessions: seq<string>)
    ensures |sessions| <= |runs|
  {
    if runs == [] then [] else Keep(runs[..|runs| - 1]) + SessionOf(runs[|runs| - 1])
  }

  /** Every kept text is non-empty and trimmed at both ends. */
  lemma {:induction false} KeptAreSessions(runs: seq<seq<string>>)
    ensures forall i :: 0 <= i < |Keep(runs)| ==> IsSession(Keep(runs)[i])
  {
    if runs != [] {
      var init := runs[..|runs| - 1];
      KeptAreSessions(init);
      var s := Trim(Block(runs[|runs| - 1]));
      forall i | 0 <= i < |Keep(runs)| ensures IsSession(Keep(runs)[i]) {
        if i < |Keep(init)| {
          assert Keep(runs)[i] == Keep(init)[i];
        } else {
          assert Keep(runs)[i] == s;
        }
      }
    }
  }

  /** The sessions of a file. */
  function Sessions(lines: seq<string>): seq<string> {
    Keep(Runs(lines))
  }

  function SeparatorCount(lines: seq<string>): nat {
    if lines == [] then 0
    else SeparatorCount(lines[..|lines| - 1]) + (if IsSeparator(lines[|lines| - 1]) then 1 else 0)
  }

  /** The lines that are not separators, in file order. */
  function Content(lines: seq<string>): seq<string> {
    if lines == [] then []
    else Content(lines[..|lines| - 1]) + (if IsSeparator(lines[|lines| - 1]) then [] else [lines[|lines| - 1]])
  }

  function Flatten(runs: seq<seq<string>>): seq<string> {
    if runs == [] then [] else Flatten(runs[..|runs| - 1]) + runs[|runs| - 1]
  }

  lemma {:induction false} FlattenAppend(runs: seq<seq<string>>, more: seq<seq<string>>)
    ensures Flatten(runs + more) == Flatten(runs) + Flatten(more)
    decreases |more|
  {
    if more == [] {
      assert runs + more == runs;
    } else {
      assert (runs + more)[..|runs + more| - 1] == runs + more[..|more| - 1];
      FlattenAppend(runs, more[..|more| - 1]);
    }
  }

  /** The runs are one more than the separators. */
  lemma {:induction false} RunCount(lines: seq<string>)
    ensures |Runs(lines)| == SeparatorCount(lines) + 1
  {
    if lines != [] {
      RunCount(lines[..|lines| - 1]);
    }
  }

  /** No run holds a separator line. */
  lemma {:induction false} RunsHaveNoSeparator(lines: seq<string>)
    ensures forall i, j :: 0 <= i < |Runs(lines)| && 0 <= j < |Runs(lines)[i]| ==> !IsSeparator(Runs(lines)[i][j])
  {
    if lines != [] {
      var init := lines[..|lines| - 1];
      RunsHaveNoSeparator(init);
    }
  }

  /** Together the runs are exactly the lines that are not separators, in file order. */
  lemma {:induction false} RunsCoverContent(lines: seq<string>)
    ensures Flatten(Runs(lines)) == Content(lines)
  {
    if lines != [] {
      var init := lines[..|lines| - 1];
      var line := lines[|lines| - 1];
      RunsCoverContent(init);
      var runs := Runs(init);
      if IsSeparator(line) {
        FlattenAppend(runs, [[]]);
      } else {
        var last := |runs| - 1;
        var head := runs[..last];
        assert runs == head + [runs[last]];
        FlattenAppend(head, [runs[last]]);
        FlattenAppend(head, [runs[last] + [line]]);
        assert Flatten([runs[last]]) == runs[last];
        assert Flatten([runs[last] + [line]]) == runs[last] + [line];
      }
    }
  }

  /** A further run adds its session after the earlier ones. */
  lemma KeepSnoc(runs: seq<seq<string>>, run: seq<string>)
    ensures Keep(runs + [run]) == Keep(runs) + Keep([run])
  {
    assert (runs + [run])[..|runs|] == runs;
    assert [run][..0] == [];
  }

  /** Each run contributes its trimmed text, unless that is empty. */
  lemma KeepOne(run: seq<string>)
    ensures Keep([run]) == (if Trim(Block(run)) != [] then [Trim(Block(run))] else [])
  {
    assert [run][..0] == [];
  }

  /** Sessions never outnumber the separators plus one. */
  lemma SessionCount(lines: seq<string>)
    ensures |Sessions(lines)| <= SeparatorCount(lines) + 1
  {
    RunCount(lines);
  }

  /** The text of a run of blank lines trims to nothing, so such a run gives no session. */
  lemma {:induction false} BlankRunDropped(run: seq<string>)
    requires forall k, c :: 0 <= k < |run| && 0 <= c < |run[k]| ==> IsTrimmed(run[k][c])
    ensures Keep([run]) == []
  {
    BlockBlank(run);
    TrimEmptyIffBlank(Block(run));
    assert [run][..0] == [];
  }

  lemma {:induction false} BlockBlank(run: seq<string>)
    requires forall k, c :: 0 <= k < |run| && 0 <= c < |run[k]| ==> IsTrimmed(run[k][c])
    ensures forall i :: 0 <= i < |Block(run)| ==> IsTrimmed(Block(run)[i])
  {
    if run != [] {
      var init := run[..|run| - 1];
      BlockBlank(init);
      var b := Block(init);
      var line := run[|run| - 1];
      assert Block(run) == b + line + "\n";
      forall i | 0 <= i < |Block(run)| ensures IsTrimmed(Block(run)[i]) {
        if i < |b| {
          assert Block(run)[i] == b[i];
        } else if i < |b| + |line| {
          assert Block(run)[i] == line[i - |b|];
        }
      }
    }
  }

  /** Without a separator the whole file is one run. */
  lemma {:induction false} SingleRun(lines: seq<string>)
    requires SeparatorCount(lines) == 0
    ensures Runs(lines) == [lines]
  {
    if lines != [] {
      var init := lines[..|lines| - 1];
      SingleRun(init);
      assert init + [lines[|lines| - 1]] == lines;
    }
  }

  /** Without a separator there is at most one session: the trimmed text of the whole file. */
  lemma NoSeparator(lines: seq<string>)
    requires SeparatorCount(lines) == 0
    ensures Sessions(lines) == (if Trim(Block(lines)) == [] then [] else [Trim(Block(lines))])
  {
    SingleRun(lines);
    KeepOne(lines);
  }

  /** A separator closes the current run: the runs gain an empty one, and the closed run's
      session, if any, follows those of the earlier runs. */
  lemma SeparatorStep(lines: seq<string>, i: nat, done: seq<seq<string>>, current: seq<string>)
    requires i < |lines| && IsSeparator(lines[i])
    requires Runs(lines[..i]) == done + [current]
    ensures Runs(lines[..i + 1]) == (done + [current]) + [[]]
    ensures Keep(done + [current]) == Keep(done) + SessionOf(current)
  {
    assert lines[..i + 1][..i] == lines[..i];
    assert (done + [current])[..|done|] == done;
  }

  /** Any other line joins the current run. */
  lemma LineStep(lines: seq<string>, i: nat, done: seq<seq<string>>, current: seq<string>)
    requires i < |lines| && !IsSeparator(lines[i])
    requires Runs(lines[..i]) == done + [current]
    ensures Runs(lines[..i + 1]) == done + [current + [lines[i]]]
    ensures Block(current + [lines[i]]) == Block(current) + lines[i] + "\n"
  {
    assert lines[..i + 1][..i] == lines[..i];
    assert (done + [current])[..|done|] == done;
    assert (current + [lines[i]])[..|current|] == current;
  }

  /** The reading loop: lines go into the current session until a separator closes it. */
  method ReadSessions(lines: seq<string>) returns (sessions: seq<string>)
    ensures sessions == Sessions(lines)
  {
    sessions := [];
    var currentSession := "";
    ghost var done: seq<seq<string>> := [];
    ghost var currentLines: seq<string> := [];
    var i := 0;
    while i < |lines|
      invariant i <= |lines|
      invariant Runs(lines[..i]) == done + [currentLines]
      invariant sessions == Keep(done)
      invariant currentSession == Block(currentLines)
    {
      var line := lines[i];
      if IsSeparator(line) {
        SeparatorStep(lines, i, done, currentLines);
        if |currentSession| > 0 {
          var session := Trim(currentSession);
          if session != [] {
            sessions := sessions + [session];
          }
          currentSession := "";
        }
        done := done + [currentLines];
        currentLines := [];
      } else {
        LineStep(lines, i, done, currentLines);
        currentSession := currentSession + line + "\n";
        currentLines := currentLines + [line];
      }
      i := i + 1;
    }
    assert lines[..i] == lines;
    assert (done + [currentLines])[..|done|] == done;
    if |currentSession| > 0 {
      var session := Trim(currentSession);
      if session != [] {
        sessions := sessions + [session];
      }
    }
  }
}
