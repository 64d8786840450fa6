/**
 One test file: run it through the engine and, when it does not pass, let
 the operator skip it, quit, update its expectations or edit it, the last
 two followed by a fresh run of the same file.
 */
module CaseRunner {
  import opened Harness
  import Expectations

  /**
   The command line that opens `file` in the editor: the configured editor
   command, one space, and the file's path, which can be cut back out of it
   after the editor's length and the space.
   */
  function EditorCommand(cfg: Config, file: Path): (command: string)
    ensures |command| == |cfg.editor| + 1 + |Render(file)|
    ensures command[..|cfg.editor|] == cfg.editor
    ensures command[|cfg.editor|] == ' '
    ensures command[|cfg.editor| + 1..] == Render(file)
  {
    cfg.editor + " " + Render(file)
  }

  /** The file text the update command writes for a test. */
  function UpdateText(test: TestCase): string {
    Expectations.UpdatedText(test.source, test.errors)
  }

  /**
   One run of the test at `file`: the engine's next answer decides between
   "cannot read test" (go on), a pass (count it, go on) and a failure, which
   is handed to the operator. The run counter and the list of visited files
   belong to the traversal and are never touched here, however often the
   file is re-run; a whole chain of re-runs adds at most one success, and
   only when it ends in a pass.
   */
  function Process(cfg: Config, file: Path, st: State): (r: Step)
    ensures r.st.run == st.run && r.st.visited == st.visited
    ensures r.st.success == st.success || (r.st.success == st.success + 1 && r.signal == Continue)
    ensures |r.st.env.keys| <= |st.env.keys|
    ensures r.signal != OutOfInput ==> |r.st.env.engine| < |st.env.engine|
    ensures OnlyAbout(st.effects, r.st.effects, file)
    decreases |st.env.keys|, |st.env.engine|
  {
    if |st.env.engine| == 0 then Step(OutOfInput, st)
    else
      var st' := AfterAnswer(st);
      match st.env.engine[0]
      case Unreadable => Step(Continue, st')
      case Loaded(test, verdict) =>
        if verdict == Passed then Step(Continue, st'.(success := st'.success + 1))
        else HandleResponse(cfg, file, test, verdict == Threw, st')
  }

  /**
   The operator's answer to a failed test, read one key at a time: `s`
   skips, `q` quits, `u` (not offered after a parser error) rewrites the
   expectations and `e` runs the editor, both followed by a re-run whose
   result is the answer; any other key is read past. A failing editor only
   adds a warning.
   */
  function HandleResponse(cfg: Config, file: Path, test: TestCase, parserError: bool, st: State): (r: Step)
    ensures r.st.run == st.run && r.st.visited == st.visited
    ensures r.st.success == st.success || (r.st.success == st.success + 1 && r.signal == Continue)
    ensures |r.st.env.keys| <= |st.env.keys| && |r.st.env.engine| <= |st.env.engine|
    ensures r.signal != OutOfInput ==> |r.st.env.keys| < |st.env.keys|
    ensures OnlyAbout(st.effects, r.st.effects, file)
    decreases |st.env.keys|, |st.env.engine|
  {
    if |st.env.keys| == 0 then Step(OutOfInput, st)
    else
      var st' := AfterKey(st);
      match st.env.keys[0]
      case 's' => Step(Continue, st')
      case 'u' =>
        if parserError then HandleResponse(cfg, file, test, parserError, st')
        else Process(cfg, file, st'.(effects := st'.effects + [Wrote(file, UpdateText(test))]))
      case 'e' =>
        var launched := st'.effects + [RanEditor(file, EditorCommand(cfg, file))];
        if |st'.env.editorExits| == 0 then Step(OutOfInput, st'.(effects := launched))
        else
          var status := st'.env.editorExits[0];
          var st'' := st'.(env := st'.env.(editorExits := st'.env.editorExits[1..]));
          Process(cfg, file, st''.(effects := if status != 0 then launched + [EditorFailed(file)] else launched))
      case 'q' => Step(Abort, st')
      case _ => HandleResponse(cfg, file, test, parserError, st')
  }

  /** The state after the runner has read the engine's next answer. */
  function AfterAnswer(st: State): State
    requires |st.env.engine| != 0
  {
    st.(env := st.env.(engine := st.env.engine[1..]))
  }

  /** The state after the loop has read the operator's next key. */
  function AfterKey(st: State): State
    requires |st.env.keys| != 0
  {
    st.(env := st.env.(keys := st.env.keys[1..]))
  }

  /** A test that cannot be read is reported and passed over: nothing is counted, no key is read. */
  lemma UnreadableContinues(cfg: Config, file: Path, st: State)
    requires |st.env.engine| != 0 && st.env.engine[0] == Unreadable
    ensures Process(cfg, file, st) == Step(Continue, AfterAnswer(st))
  {
  }

  /** A passing test counts one success and reads no key. */
  lemma PassCounts(cfg: Config, file: Path, st: State)
    requires |st.env.engine| != 0 && Passes(st.env.engine[0])
    ensures Process(cfg, file, st) == Step(Continue, AfterAnswer(st).(success := st.success + 1))
  {
  }

  /** A failing test, parser errors included, goes to the operator with nothing counted. */
  lemma FailureAsksOperator(cfg: Config, file: Path, st: State)
    requires |st.env.engine| != 0 && Fails(st.env.engine[0])
    ensures var answer := st.env.engine[0];
      Process(cfg, file, st)
      == HandleResponse(cfg, file, answer.test, answer.verdict == Threw, AfterAnswer(st))
  {
  }

  /** `s` goes on to the next test and changes nothing but the key read. */
  lemma SkipContinues(cfg: Config, file: Path, test: TestCase, parserError: bool, st: State)
    requires |st.env.keys| != 0 && st.env.keys[0] == 's'
    ensures HandleResponse(cfg, file, test, parserError, st) == Step(Continue, AfterKey(st))
  {
  }

  /** `q` stops everything at once, with no further effect. */
  lemma QuitAborts(cfg: Config, file: Path, test: TestCase, parserError: bool, st: State)
    requires |st.env.keys| != 0 && st.env.keys[0] == 'q'
    ensures HandleResponse(cfg, file, test, parserError, st) == Step(Abort, AfterKey(st))
  {
  }

  /** A key the loop does not act on: `u` after a parser error, or any key other than `s`, `u`, `e`, `q`. */
  predicate Ignored(key: char, parserError: bool) {
    key != 's' && key != 'e' && key != 'q' && (key != 'u' || parserError)
  }

  /** Keys the loop does not act on are read and dropped, however many come in a row. */
  lemma {:induction false} IgnoredKeysSkipped(cfg: Config, file: Path, test: TestCase, parserError: bool, st: State, n: nat)
    requires n <= |st.env.keys|
    requires forall i | 0 <= i < n :: Ignored(st.env.keys[i], parserError)
    ensures HandleResponse(cfg, file, test, parserError, st)
         == HandleResponse(cfg, file, test, parserError, st.(env := st.env.(keys := st.env.keys[n..])))
    decreases n
  {
    if n != 0 {
      var st' := AfterKey(st);
      assert Ignored(st.env.keys[0], parserError);
      assert HandleResponse(cfg, file, test, parserError, st) == HandleResponse(cfg, file, test, parserError, st');
      assert forall i | 0 <= i < n - 1 :: st'.env.keys[i] == st.env.keys[i + 1];
      IgnoredKeysSkipped(cfg, file, test, parserError, st', n - 1);
      assert st'.env.keys[n - 1..] == st.env.keys[n..];
    }
  }

  /**
   `u` after a structured failure rewrites the file (source, separator,
   observed errors) and answers with exactly the result of a fresh run of
   the same file.
   */
  lemma UpdateRewritesAndReruns(cfg: Config, file: Path, test: TestCase, st: State)
    requires |st.env.keys| != 0 && st.env.keys[0] == 'u'
    ensures var st' := AfterKey(st);
      HandleResponse(cfg, file, test, false, st)
      == Process(cfg, file, st'.(effects := st.effects + [Wrote(file, Expectations.UpdatedText(test.source, test.errors))]))
  {
  }

  /**
   `e` launches the editor on the file and answers with exactly the result
   of a fresh run of the same file, whatever the editor's exit status.
   */
  lemma EditReruns(cfg: Config, file: Path, test: TestCase, parserError: bool, st: State)
    requires |st.env.keys| != 0 && st.env.keys[0] == 'e'
    requires |st.env.editorExits| != 0
    ensures var st' := AfterKey(st);
      var status := st.env.editorExits[0];
      var launched := st.effects + [RanEditor(file, EditorCommand(cfg, file))];
      HandleResponse(cfg, file, test, parserError, st)
      == Process(cfg, file, st'.(env := st'.env.(editorExits := st.env.editorExits[1..]),
                                  effects := if status == 0 then launched else launched + [EditorFailed(file)]))
  {
  }

  /**
   The editor's exit status never changes the course of a run: only the
   warning it causes differs.
   */
  lemma {:induction false} ProcessIgnoresEditorStatus(cfg: Config, file: Path, a: State, b: State)
    requires SameButEditorStatus(a, b)
    ensures var ra := Process(cfg, file, a); var rb := Process(cfg, file, b);
      ra.signal == rb.signal && SameButEditorStatus(ra.st, rb.st)
    decreases |a.env.keys|, |a.env.engine|, 1
  {
    if |a.env.engine| != 0 {
      var a', b' := AfterAnswer(a), AfterAnswer(b);
      match a.env.engine[0]
      case Unreadable =>
      case Loaded(test, verdict) =>
        if verdict != Passed {
          HandleIgnoresEditorStatus(cfg, file, test, verdict == Threw, a', b');
        }
    }
  }

  lemma {:induction false} HandleIgnoresEditorStatus(cfg: Config, file: Path, test: TestCase, parserError: bool, a: State, b: State)
    requires SameButEditorStatus(a, b)
    ensures var ra := HandleResponse(cfg, file, test, parserError, a);
      var rb := HandleResponse(cfg, file, test, parserError, b);
      ra.signal == rb.signal && SameButEditorStatus(ra.st, rb.st)
    decreases |a.env.keys|, |a.env.engine|, 0
  {
    if |a.env.keys| != 0 {
      var a', b' := AfterKey(a), AfterKey(b);
      match a.env.keys[0]
      case 's' =>
      case 'q' =>
      case 'u' =>
        if parserError {
          HandleIgnoresEditorStatus(cfg, file, test, parserError, a', b');
        } else {
          var w := Wrote(file, UpdateText(test));
          QuietAppend(a.effects, w);
          QuietAppend(b.effects, w);
          ProcessIgnoresEditorStatus(cfg, file, a'.(effects := a'.effects + [w]), b'.(effects := b'.effects + [w]));
        }
      case 'e' =>
        var ran := RanEditor(file, EditorCommand(cfg, file));
        QuietAppend(a.effects, ran);
        QuietAppend(b.effects, ran);
        QuietAppend(a.effects + [ran], EditorFailed(file));
        QuietAppend(b.effects + [ran], EditorFailed(file));
        if |a.env.editorExits| != 0 {
          var a'' := a'.(env := a'.env.(editorExits := a'.env.editorExits[1..]));
          var b'' := b'.(env := b'.env.(editorExits := b'.env.editorExits[1..]));
          var ea := if a.env.editorExits[0] != 0 then a.effects + [ran] + [EditorFailed(file)] else a.effects + [ran];
          var eb := if b.env.editorExits[0] != 0 then b.effects + [ran] + [EditorFailed(file)] else b.effects + [ran];
          ProcessIgnoresEditorStatus(cfg, file, a''.(effects := ea), b''.(effects := eb));
        }
      case _ =>
        HandleIgnoresEditorStatus(cfg, file, test, parserError, a', b');
    }
  }

  /**
   With an operator who skips whenever asked, one run adds a success exactly
   when the engine passes the test, and reads a key exactly when it fails.
   */
  lemma ProcessWhenSkipping(cfg: Config, file: Path, st: State)
    requires |st.env.engine| != 0
    requires FailedAmong(st.env.engine[..1]) <= |st.env.keys|
    requires forall i | 0 <= i < FailedAmong(st.env.engine[..1]) :: st.env.keys[i] == 's'
    ensures var used := FailedAmong(st.env.engine[..1]);
      Process(cfg, file, st)
      == Step(Continue, st.(success := st.success + PassedAmong(st.env.engine[..1]),
                            env := st.env.(engine := st.env.engine[1..], keys := st.env.keys[used..])))
  {
    var answer := st.env.engine[0];
    assert st.env.engine[..1] == [answer];
    assert PassedAmong([answer]) == (if Passes(answer) then 1 else 0);
    assert FailedAmong([answer]) == (if Fails(answer) then 1 else 0);
    if Fails(answer) {
      assert st.env.keys[0] == 's';
    } else {
      assert st.env.keys[0..] == st.env.keys;
    }
  }
}
