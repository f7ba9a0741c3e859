/** The message-file filter (main.py `read_text_from_file`).

    The file's lines (each with its line terminator, as Python's line
    iteration yields them) are given as a sequence. Lines starting with '#'
    are comments and dropped; a line starting with the placeholder
    `<--insert-->` is replaced by the text to insert, or dropped when that
    text is empty; every other line is kept as it is. The kept pieces are
    joined with nothing between them. */
module Messages {

  const CommentMark: string := "#"
  const Placeholder: string := "<--insert-->"

  /** `line.startswith(prefix)` */
  predicate StartsWith(line: string, prefix: string) {
    prefix <= line
  }

  /** A line kept verbatim. */
  predicate Plain(line: string) {
    !StartsWith(line, CommentMark) && !StartsWith(line, Placeholder)
  }

  /** What one line contributes to `msg`. */
  function Contribution(line: string, insert: string): seq<string> {
    if StartsWith(line, CommentMark) then []
    else if StartsWith(line, Placeholder) then (if insert != "" then [insert] else [])
    else [line]
  }

  /** The list `msg` after the whole file has been read. */
  function Kept(lines: seq<string>, insert: string): seq<string> {
    if lines == [] then []
    else Kept(lines[..|lines| - 1], insert) + Contribution(lines[|lines| - 1], insert)
  }

  /** `''.join(parts)` */
  function Join(parts: seq<string>): string {
    if parts == [] then "" else Join(parts[..|parts| - 1]) + parts[|parts| - 1]
  }

  /** The filter works line by line: filtering two pieces of a file and
      putting the results together is filtering the whole file. */
  lemma {:induction false} KeptAppend(a: seq<string>, b: seq<string>, insert: string)
    ensures Kept(a + b, insert) == Kept(a, insert) + Kept(b, insert)
    decreases |b|
  {
    if b == [] {
      assert a + b == a;
    } else {
      var n := |b|;
      var front, last := b[..n - 1], b[n - 1];
      assert (a + b)[..|a + b| - 1] == a + front;
      assert (a + b)[|a + b| - 1] == last;
      KeptAppend(a, front, insert);
      calc {
        Kept(a + b, insert);
        Kept(a + front, insert) + Contribution(last, insert);
        Kept(a, insert) + Kept(front, insert) + Contribution(last, insert);
        Kept(a, insert) + (Kept(front, insert) + Contribution(last, insert));
        Kept(a, insert) + Kept(b, insert);
      }
    }
  }

  lemma {:induction false} JoinAppend(a: seq<string>, b: seq<string>)
    ensures Join(a + b) == Join(a) + Join(b)
    decreases |b|
  {
    if b == [] {
      assert a + b == a;
    } else {
      var n := |b|;
      var front, last := b[..n - 1], b[n - 1];
      assert (a + b)[..|a + b| - 1] == a + front;
      assert (a + b)[|a + b| - 1] == last;
      JoinAppend(a, front);
      calc {
        Join(a + b);
        Join(a + front) + last;
        Join(a) + Join(front) + last;
        Join(a) + (Join(front) + last);
        Join(a) + Join(b);
      }
    }
  }

  /** The message of a file is the message of its first part followed by
      the message of the rest, so order is kept. */
  lemma TextOfParts(a: seq<string>, b: seq<string>, insert: string)
    ensures Join(Kept(a + b, insert)) == Join(Kept(a, insert)) + Join(Kept(b, insert))
  {
    KeptAppend(a, b, insert);
    JoinAppend(Kept(a, insert), Kept(b, insert));
  }

  /** Everything the filter keeps is either a plain line of the file or the
      inserted text, and the inserted text only when it is non-empty and the
      file has a placeholder line. */
  lemma {:induction false} KeptSound(lines: seq<string>, insert: string)
    ensures forall p :: p in Kept(lines, insert) ==>
              (p in lines && Plain(p))
              || (p == insert && insert != "" && exists l :: l in lines && !StartsWith(l, CommentMark) && StartsWith(l, Placeholder))
  {
    if lines != [] {
      var n := |lines|;
      KeptSound(lines[..n - 1], insert);
      assert lines == lines[..n - 1] + [lines[n - 1]];
    }
  }

  /** Nothing plain is lost: every plain line of the file is kept, and the
      inserted text appears when it is non-empty and a placeholder line is
      present. */
  lemma {:induction false} KeptComplete(lines: seq<string>, insert: string)
    ensures forall l :: l in lines && Plain(l) ==> l in Kept(lines, insert)
    ensures (insert != "" && exists l :: l in lines && !StartsWith(l, CommentMark) && StartsWith(l, Placeholder))
              ==> insert in Kept(lines, insert)
  {
    if lines != [] {
      var n := |lines|;
      KeptComplete(lines[..n - 1], insert);
      assert lines == lines[..n - 1] + [lines[n - 1]];
    }
  }

  /** A file with neither comments nor placeholders is returned unchanged. */
  lemma {:induction false} PlainFileUnchanged(lines: seq<string>, insert: string)
    requires forall i :: 0 <= i < |lines| ==> Plain(lines[i])
    ensures Kept(lines, insert) == lines
  {
    if lines != [] {
      var front, last := lines[..|lines| - 1], lines[|lines| - 1];
      PlainFileUnchanged(front, insert);
      assert Contribution(last, insert) == [last];
      assert lines == front + [last];
    }
  }

  /** `read_text_from_file` on the file's lines. */
  method ReadText(lines: seq<string>, insert: string) returns (text: string)
    ensures text == Join(Kept(lines, insert))
  {
    var msg: seq<string> := [];
    for i := 0 to |lines|
      invariant msg == Kept(lines[..i], insert)
    {
      var line := lines[i];
      assert lines[..i + 1] == lines[..i] + [line];
      KeptAppend(lines[..i], [line], insert);
      assert Kept([line], insert) == Contribution(line, insert) by {
        assert [line][..0] == [];
      }
      if !StartsWith(line, CommentMark) {
        if StartsWith(line, Placeholder) {
          if insert != "" {
            msg := msg + [insert];
          }
        } else {
          msg := msg + [line];
        }
      }
    }
    assert lines[..|lines|] == lines;
    text := Join(msg);
  }
}
