/** The output side of the backend: the project file as the sequence of
    writes made to it, and the indentation level `write_line` uses. */
module Writer {
  import opened Strings

  /** One level of indentation: seven spaces. */
  const Indent: string := "       "

  /** `indent * indent_level`: nothing at level zero or below. */
  function Indentation(level: int): (s: string)
    ensures |s| == if level <= 0 then 0 else 7 * level
  {
    if level <= 0 then "" else Indent + Indentation(level - 1)
  }

  /** The indentation is made of spaces only. */
  lemma {:induction false} IndentationBlank(level: int)
    ensures forall i :: 0 <= i < |Indentation(level)| ==> Indentation(level)[i] == ' '
  {
    if level > 0 {
      IndentationBlank(level - 1);
      var s := Indentation(level);
      forall i | 0 <= i < |s|
        ensures s[i] == ' '
      {
        if i >= 7 {
          assert s[i] == Indentation(level - 1)[i - 7];
        }
      }
    }
  }

  /** What `write_line(text)` puts into the file at `level`: the indentation,
      the text, and a newline unless the text already ends with one. */
  function RenderLine(level: int, text: string): string
  {
    if EndsWith(text, "\n") then Indentation(level) + text else Indentation(level) + text + "\n"
  }

  /** A rendered line is the indentation followed by the text, and ends with
      exactly the newline the text brought or the one added to it. */
  lemma RenderLineShape(level: int, text: string)
    ensures var r := RenderLine(level, text); var n := |Indentation(level)|;
      && StartsWith(r, Indentation(level))
      && EndsWith(r, "\n")
      && (EndsWith(text, "\n") ==> r[n..] == text)
      && (!EndsWith(text, "\n") ==> r[n..] == text + "\n" && r[n..|r| - 1] == text)
  {
    var r := RenderLine(level, text);
    var n := |Indentation(level)|;
    if EndsWith(text, "\n") {
      assert r == Indentation(level) + text;
      assert r[n..] == text;
      assert r[|r| - 1..] == text[|text| - 1..];
    } else {
      assert r == Indentation(level) + (text + "\n");
      assert r[n..] == text + "\n";
    }
  }

  /** The file contents: every write, in order. */
  function Contents(writes: seq<string>): string
  {
    if writes == [] then "" else Contents(writes[..|writes| - 1]) + writes[|writes| - 1]
  }

  /** Appending writes appends their contents. */
  lemma {:induction false} ContentsAppend(a: seq<string>, b: seq<string>)
    ensures Contents(a + b) == Contents(a) + Contents(b)
  {
    if b != [] {
      ContentsAppend(a, b[..|b| - 1]);
      assert (a + b)[..|a + b| - 1] == a + b[..|b| - 1];
    } else {
      assert a + b == a;
    }
  }

  /** Two blocks of writes in a row are one block of writes. */
  lemma AppendAssoc(o: seq<string>, a: seq<string>, b: seq<string>)
    ensures o + a + b == o + (a + b)
  {
  }

  /** Three blocks of writes in a row are one block of writes. */
  lemma AppendThree(o: seq<string>, a: seq<string>, b: seq<string>, c: seq<string>)
    ensures o + a + b + c == o + (a + b + c)
  {
  }

  /** A banner, two blocks and a banner in a row are one block of writes. */
  lemma AppendFour(o: seq<string>, a: seq<string>, b: seq<string>, c: seq<string>, d: seq<string>)
    ensures o + a + b + c + d == o + (a + (b + c) + d)
  {
  }

  /** Six blocks of writes in a row are one block of writes. */
  lemma AppendSix(o: seq<string>, a: seq<string>, b: seq<string>, c: seq<string>,
                  d: seq<string>, e: seq<string>, f: seq<string>)
    ensures o + a + b + c + d + e + f == o + (a + b + c + d + e + f)
  {
  }

  /** The open project file: what has been written to it, one element per
      `ofile.write` or `write_line` call (the source's `write_line` makes a
      second `write` for the newline; here the newline ends the same
      element), and the current indentation level of `write_line`. */
  class OutputWriter {
    var ofile: seq<string>
    var indentLevel: int

    constructor ()
      ensures ofile == [] && indentLevel == 0
    {
      ofile := [];
      indentLevel := 0;
    }

    /** `ofile.write(s)` */
    method Write(s: string)
      modifies this
      ensures ofile == old(ofile) + [s] && indentLevel == old(indentLevel)
    {
      ofile := ofile + [s];
    }

    /** `write_line(text)`: one line at the current level. */
    method WriteLine(text: string)
      modifies this
      ensures ofile == old(ofile) + [RenderLine(indentLevel, text)]
      ensures indentLevel == old(indentLevel)
    {
      var line := Indentation(indentLevel) + text;
      if !EndsWith(text, "\n") {
        line := line + "\n";
      }
      ofile := ofile + [line];
    }
  }
}
