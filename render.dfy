/** The text that `list_items` builds: each item on its own line behind
    "- ", the lines joined by "\n" as Python's `"\n".join` does. `SplitLines`
    (Python's `str.split("\n")`) is the partner that reads the lines back. */
module Render {

  const Newline: char := '\n'

  /** One rendered item, the f-string `f"- {item}"`. */
  function Bullet(item: string): string
  {
    "- " + item
  }

  /** The list comprehension `[f"- {item}" for item in items]`. */
  function Bullets(items: seq<string>): seq<string>
  {
    seq(|items|, i requires 0 <= i < |items| => Bullet(items[i]))
  }

  /** `"\n".join(lines)`: no separator before the first line or after the last. */
  function JoinLines(lines: seq<string>): string
  {
    if |lines| == 0 then ""
    else if |lines| == 1 then lines[0]
    else lines[0] + [Newline] + JoinLines(lines[1..])
  }

  /** `s.split("\n")`: the pieces between separators, always at least one. */
  function SplitLines(s: string): (r: seq<string>)
    ensures |r| >= 1
  {
    if s == [] then [""]
    else if s[0] == Newline then [""] + SplitLines(s[1..])
    else
      var rest := SplitLines(s[1..]);
      [[s[0]] + rest[0]] + rest[1..]
  }

  /** The items section of the `list_items` message. */
  function ItemsText(items: seq<string>): string
  {
    JoinLines(Bullets(items))
  }

  /** No line contains the separator. */
  predicate NoNewlines(lines: seq<string>)
  {
    forall i :: 0 <= i < |lines| ==> Newline !in lines[i]
  }

  /** Joining a longer list adds one separator and the new last line. */
  lemma {:induction false} JoinLinesSnoc(lines: seq<string>, last: string)
    requires lines != []
    ensures JoinLines(lines + [last]) == JoinLines(lines) + [Newline] + last
  {
    if |lines| == 1 {
      assert lines + [last] == [lines[0], last];
    } else {
      assert (lines + [last])[1..] == lines[1..] + [last];
      JoinLinesSnoc(lines[1..], last);
    }
  }

  /** Splitting leaves a line without separators whole. */
  lemma {:induction false} SplitLinesOfLine(line: string)
    requires Newline !in line
    ensures SplitLines(line) == [line]
  {
    if line != [] {
      SplitLinesOfLine(line[1..]);
      assert [line[0]] + line[1..] == line;
    }
  }

  /** Splitting a line, a separator and more text yields the line first. */
  lemma {:induction false} SplitLinesCons(line: string, tail: string)
    requires Newline !in line
    ensures SplitLines(line + [Newline] + tail) == [line] + SplitLines(tail)
  {
    var s := line + [Newline] + tail;
    if line == [] {
      assert s[1..] == tail;
    } else {
      assert s[1..] == line[1..] + [Newline] + tail;
      SplitLinesCons(line[1..], tail);
      assert [line[0]] + line[1..] == line;
    }
  }

  /** Splitting text, a separator and a last line without separators yields
      the pieces of the text followed by that line. */
  lemma {:induction false} SplitLinesSnoc(text: string, line: string)
    requires Newline !in line
    ensures SplitLines(text + [Newline] + line) == SplitLines(text) + [line]
  {
    var s := text + [Newline] + line;
    if text == [] {
      assert s[1..] == line;
      SplitLinesOfLine(line);
    } else {
      assert s[1..] == text[1..] + [Newline] + line;
      SplitLinesSnoc(text[1..], line);
      if text[0] != Newline {
        var rest := SplitLines(text[1..]);
        assert (rest + [line])[0] == rest[0];
        assert (rest + [line])[1..] == rest[1..] + [line];
      }
    }
  }

  /** Splitting undoes joining when there is at least one line and no line
      holds a separator. */
  lemma {:induction false} SplitJoin(lines: seq<string>)
    requires lines != []
    requires NoNewlines(lines)
    ensures SplitLines(JoinLines(lines)) == lines
  {
    assert Newline !in lines[0];
    if |lines| == 1 {
      SplitLinesOfLine(lines[0]);
    } else {
      assert NoNewlines(lines[1..]) by {
        forall i | 0 <= i < |lines[1..]| ensures Newline !in lines[1..][i] {
          assert lines[1..][i] == lines[i + 1];
        }
      }
      SplitJoin(lines[1..]);
      SplitLinesCons(lines[0], JoinLines(lines[1..]));
    }
  }

  /** Joining a first line that starts with a character `c`. */
  lemma JoinLinesPrepend(c: char, lines: seq<string>)
    requires lines != []
    ensures JoinLines([[c] + lines[0]] + lines[1..]) == [c] + JoinLines(lines)
  {
    var m := [[c] + lines[0]] + lines[1..];
    assert m[1..] == lines[1..];
  }

  /** Joining undoes splitting, for every string. */
  lemma {:induction false} JoinSplit(s: string)
    ensures JoinLines(SplitLines(s)) == s
  {
    if s == [] {
    } else if s[0] == Newline {
      var rest := SplitLines(s[1..]);
      JoinSplit(s[1..]);
      assert ([""] + rest)[1..] == rest;
      assert [s[0]] + s[1..] == s;
    } else {
      var rest := SplitLines(s[1..]);
      JoinSplit(s[1..]);
      JoinLinesPrepend(s[0], rest);
      assert [s[0]] + s[1..] == s;
    }
  }

  /** A rendered item never holds a separator its item did not hold. */
  lemma BulletsNoNewlines(items: seq<string>)
    requires NoNewlines(items)
    ensures NoNewlines(Bullets(items))
  {
    forall i | 0 <= i < |items| ensures Newline !in Bullets(items)[i] {
      assert Bullets(items)[i] == "- " + items[i];
    }
  }

  /** Rendering one more item adds the new bullet as the last line. */
  lemma ItemsTextSnoc(items: seq<string>, item: string)
    ensures ItemsText(items + [item]) ==
            if items == [] then Bullet(item) else ItemsText(items) + [Newline] + Bullet(item)
  {
    assert Bullets(items + [item]) == Bullets(items) + [Bullet(item)];
    if items != [] {
      JoinLinesSnoc(Bullets(items), Bullet(item));
    }
  }

  /** The lines of the items section, read back with `SplitLines`, are
      exactly the bullets of the items, each item once per copy in the list;
      an empty list gives one empty line. Needs items without separators. */
  lemma ItemsTextLines(items: seq<string>)
    requires NoNewlines(items)
    ensures SplitLines(ItemsText(items)) == if items == [] then [""] else Bullets(items)
  {
    if items != [] {
      BulletsNoNewlines(items);
      SplitJoin(Bullets(items));
    }
  }
}
