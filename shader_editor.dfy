/**
 * shderEditor.ts: `editLines(code, editor)` splits shader source on '\n', lets the
 * editor rewrite the line array, and joins it back with '\n'. The editor mutates the
 * array in place; here it is the function from the array's contents before the
 * callback to its contents after it.
 */
module ShaderEditor {

  const Newline: char := '\n'

  /** The number of '\n' characters in `s`. */
  function NewlineCount(s: string): nat
  {
    if |s| == 0 then 0 else (if s[0] == Newline then 1 else 0) + NewlineCount(s[1..])
  }

  /** `s.split('\n')`: one line more than there are separators, none holding a separator. */
  function Split(s: string): (lines: seq<string>)
    ensures |lines| == NewlineCount(s) + 1
    ensures forall i :: 0 <= i < |lines| ==> Newline !in lines[i]
  {
    if |s| == 0 then [""]
    else if s[0] == Newline then [""] + Split(s[1..])
    else
      var rest := Split(s[1..]);
      [[s[0]] + rest[0]] + rest[1..]
  }

  /**
   * `lines.join('\n')`; the empty array joins to "". The text starts with the first
   * line and ends with the last, and two or more lines put a separator between them.
   */
  function Join(lines: seq<string>): (r: string)
    ensures |lines| == 0 ==> r == ""
    ensures |lines| > 0 ==> |lines[0]| <= |r| && r[..|lines[0]|] == lines[0]
    ensures |lines| > 1 ==> Newline in r
  {
    if |lines| == 0 then ""
    else if |lines| == 1 then lines[0]
    else
      var rest := Join(lines[1..]);
      assert (lines[0] + [Newline] + rest)[|lines[0]|] == Newline;
      lines[0] + [Newline] + rest
  }

  /**
   * `editLines`: an editor that keeps the lines keeps the code, and whatever
   * non-empty, separator-free lines the editor returns are exactly the lines of the
   * result.
   */
  function EditLines(code: string, editor: seq<string> -> seq<string>): (r: string)
    ensures editor(Split(code)) == Split(code) ==> r == code
    ensures var edited := editor(Split(code));
            |edited| > 0 && (forall i :: 0 <= i < |edited| ==> Newline !in edited[i]) ==> Split(r) == edited
  {
    var edited := editor(Split(code));
    JoinSplit(code);
    if |edited| > 0 && (forall i :: 0 <= i < |edited| ==> Newline !in edited[i]) then
      SplitJoin(edited);
      Join(edited)
    else
      Join(edited)
  }

  /** `lines.splice(position, 0, ...inserted)`. */
  function InsertAt(lines: seq<string>, position: nat, inserted: seq<string>): (r: seq<string>)
    requires position <= |lines|
    ensures |r| == |lines| + |inserted|
    ensures r[..position] == lines[..position]
    ensures r[position..position + |inserted|] == inserted
    ensures r[position + |inserted|..] == lines[position..]
  {
    lines[..position] + inserted + lines[position..]
  }

  /** Splitting then joining gives back the original text. */
  lemma {:induction false} JoinSplit(s: string)
    ensures Join(Split(s)) == s
  {
    if |s| == 0 {
    } else if s[0] == Newline {
      JoinSplit(s[1..]);
      assert Split(s) == [""] + Split(s[1..]);
      assert Join(Split(s)) == "" + [Newline] + Join(Split(s[1..]));
      assert s == [s[0]] + s[1..];
    } else {
      var rest := Split(s[1..]);
      JoinSplit(s[1..]);
      assert Split(s) == [[s[0]] + rest[0]] + rest[1..];
      if |rest| == 1 {
        assert Join(Split(s)) == [s[0]] + rest[0];
      } else {
        assert Join(rest) == rest[0] + [Newline] + Join(rest[1..]);
        assert Join(Split(s)) == [s[0]] + rest[0] + [Newline] + Join(rest[1..]);
      }
      assert s == [s[0]] + s[1..];
    }
  }

  /** A text without separators is a single line. */
  lemma {:induction false} SplitSingleLine(s: string)
    requires Newline !in s
    ensures Split(s) == [s]
  {
    if |s| > 0 {
      assert Newline !in s[1..] by {
        forall k | 0 <= k < |s| - 1 ensures s[1..][k] != Newline {
          assert s[1..][k] == s[k + 1];
        }
      }
      SplitSingleLine(s[1..]);
      assert s == [s[0]] + s[1..];
    }
  }

  /** A separator between two texts separates their lines. */
  lemma {:induction false} SplitAround(a: string, b: string)
    ensures Split(a + [Newline] + b) == Split(a) + Split(b)
  {
    if |a| == 0 {
      assert a + [Newline] + b == [Newline] + b;
      assert ([Newline] + b)[1..] == b;
    } else {
      var s := a + [Newline] + b;
      assert s[0] == a[0];
      assert s[1..] == a[1..] + [Newline] + b;
      SplitAround(a[1..], b);
    }
  }

  /** Joining lines without separators, then splitting, gives back the lines. */
  lemma {:induction false} SplitJoin(lines: seq<string>)
    requires |lines| > 0
    requires forall i :: 0 <= i < |lines| ==> Newline !in lines[i]
    ensures Split(Join(lines)) == lines
  {
    if |lines| == 1 {
      SplitSingleLine(lines[0]);
    } else {
      SplitSingleLine(lines[0]);
      SplitJoin(lines[1..]);
      SplitAround(lines[0], Join(lines[1..]));
      assert lines == [lines[0]] + lines[1..];
    }
  }

  /** An editor that changes nothing leaves the code as it was. */
  lemma EditLinesUnchanged(code: string)
    ensures EditLines(code, lines => lines) == code
  {
    JoinSplit(code);
  }

  /** The editor receives one line per separator plus one, none containing '\n'. */
  lemma EditorInput(code: string)
    ensures |Split(code)| == NewlineCount(code) + 1
    ensures forall i :: 0 <= i < |Split(code)| ==> Newline !in Split(code)[i]
    ensures Join(Split(code)) == code
  {
    JoinSplit(code);
  }

  /** Putting lines in front of the first line prefixes the code with them. */
  lemma {:induction false} EditLinesInsertFirst(code: string, line: string)
    ensures EditLines(code, lines => InsertAt(lines, 0, [line])) == line + [Newline] + code
  {
    var lines := Split(code);
    assert InsertAt(lines, 0, [line]) == [line] + lines;
    assert ([line] + lines)[1..] == lines;
    JoinSplit(code);
  }

  /** Inserting lines before the last line keeps the original last line last. */
  lemma {:induction false} EditLinesInsertBeforeLast(code: string, body: seq<string>)
    ensures var lines := Split(code);
            var result := Split(EditLines(code, ls => if |ls| == 0 then ls else InsertAt(ls, |ls| - 1, body)));
            |result| > 0 && result[|result| - 1] == lines[|lines| - 1]
  {
    var lines := Split(code);
    var n := |lines|;
    var edited := InsertAt(lines, n - 1, body);
    var head := edited[..n - 1 + |body|];
    assert edited == head + [lines[n - 1]];
    JoinLast(head, lines[n - 1]);
    if |head| == 0 {
      SplitSingleLine(lines[n - 1]);
    } else {
      SplitAround(Join(head), lines[n - 1]);
      SplitSingleLine(lines[n - 1]);
    }
  }

  /** Joining with one more line appends a separator and that line. */
  lemma {:induction false} JoinLast(head: seq<string>, last: string)
    ensures |head| == 0 ==> Join(head + [last]) == last
    ensures |head| > 0 ==> Join(head + [last]) == Join(head) + [Newline] + last
  {
    if |head| > 1 {
      JoinLast(head[1..], last);
      assert (head + [last])[1..] == head[1..] + [last];
    } else if |head| == 1 {
      assert (head + [last])[1..] == [last];
    }
  }
}
