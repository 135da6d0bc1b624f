/** The Xcode file type written for a file, chosen from its extension. */
module FileTypes {
  import opened Strings

  /** The fixed extension table; the lookup is case-sensitive. */
  const TypeTable: map<string, string> := map[
    "c" := "sourcecode.c.c",
    "a" := "archive.ar",
    "cc" := "sourcecode.cpp.cpp",
    "cxx" := "sourcecode.cpp.cpp",
    "cpp" := "sourcecode.cpp.cpp",
    "c++" := "sourcecode.cpp.cpp",
    "m" := "sourcecode.c.objc",
    "mm" := "sourcecode.cpp.objcpp",
    "h" := "sourcecode.c.h",
    "hpp" := "sourcecode.cpp.h",
    "hxx" := "sourcecode.cpp.h",
    "hh" := "sourcecode.cpp.hh",
    "inc" := "sourcecode.c.h",
    "dylib" := "compiled.mach-o.dylib",
    "o" := "compiled.mach-o.objfile",
    "S" := "sourcecode.asm",
    "js" := "sourcecode.javascript"
  ]

  /** Type written for an extension the table does not know. */
  const Fallback: string := "compiled"

  /** A suffix of `s[1..]` is a suffix of `s`, and the character before it is the same. */
  lemma SuffixOfTail(s: string, x: string)
    requires s != [] && EndsWith(s[1..], x)
    ensures EndsWith(s, x)
    ensures |x| < |s| - 1 ==> s[|s| - |x| - 1] == s[1..][|s[1..]| - |x| - 1]
    ensures |x| == |s| - 1 ==> s[|s| - |x| - 1] == s[0]
  {
    assert s[|s| - |x|..] == s[1..][|s| - 1 - |x|..];
  }

  /** The last part of a split on `c` is a suffix of the string: the whole
      string when there is no separator, otherwise preceded by one. */
  lemma {:induction false} SplitLastIsSuffix(s: string, c: char)
    ensures var parts := Split(s, c); var last := parts[|parts| - 1];
      && EndsWith(s, last)
      && (if |parts| == 1 then last == s else |last| < |s| && s[|s| - |last| - 1] == c)
    decreases |s|, 1
  {
    if s == [] {
      assert Split(s, c) == [""];
    } else {
      var t := s[1..];
      SplitLastIsSuffix(t, c);
      var rest := Split(t, c);
      var last := rest[|rest| - 1];
      SplitLastStep(s, c);
      if s[0] == c || |rest| > 1 {
        SuffixOfTail(s, last);
      } else {
        assert EndsWith(s, s);
      }
    }
  }

  /** How splitting one character more changes the last part: a leading
      non-separator that is the only part so far makes the whole string the
      one part; otherwise the last part stays and there are at least two. */
  lemma SplitLastStep(s: string, c: char)
    requires s != []
    ensures var parts, rest := Split(s, c), Split(s[1..], c);
      if s[0] != c && |rest| == 1 then parts == [s]
      else |parts| > 1 && parts[|parts| - 1] == rest[|rest| - 1]
    decreases |s|, 0
  {
    var t := s[1..];
    var rest := Split(t, c);
    if s[0] != c && |rest| == 1 {
      SplitLastIsSuffix(t, c);
      assert rest == [t];
      assert s == [s[0]] + t;
    }
  }

  /** `filename.split('.')[-1]`: the text after the last dot, or the whole name. */
  function Extension(filename: string): (ext: string)
    ensures '.' !in ext
    ensures EndsWith(filename, ext)
    ensures ext == filename || (|ext| < |filename| && filename[|filename| - |ext| - 1] == '.')
  {
    SplitLastIsSuffix(filename, '.');
    SplitShape(filename, '.');
    var parts := Split(filename, '.');
    parts[|parts| - 1]
  }

  /** The type tag for a file name and whether a warning about an unknown
      extension is issued. The lookup never fails. */
  function TypeForFilename(filename: string): (r: (string, bool))
    ensures r.1 <==> Extension(filename) !in TypeTable
    ensures !r.1 ==> r.0 == TypeTable[Extension(filename)]
    ensures r.1 ==> r.0 == Fallback
  {
    var ext := Extension(filename);
    if ext !in TypeTable then (Fallback, true) else (TypeTable[ext], false)
  }

  /** The extension is the longest dot-free suffix: nothing after the dot that
      precedes it is a dot. */
  lemma ExtensionIsLastDot(filename: string, i: nat)
    requires |filename| - |Extension(filename)| <= i < |filename|
    ensures filename[i] != '.'
  {
    var ext := Extension(filename);
    assert filename[i] == ext[i - (|filename| - |ext|)];
  }

  /** A name with no dot is its own extension. */
  lemma {:induction false} NoDotExtension(filename: string)
    requires '.' !in filename
    ensures Extension(filename) == filename
  {
    SplitPlain(filename, '.');
  }

  /** The extension of `stem + "." + ext`, for a dot-free `ext`, is `ext`. */
  lemma {:induction false} ExtensionAfterDot(stem: string, ext: string)
    requires '.' !in ext
    ensures Extension(stem + "." + ext) == ext
  {
    var s := stem + "." + ext;
    var parts := Split(s, '.');
    SplitLastIsSuffix(s, '.');
    SplitShape(s, '.');
    var last := parts[|parts| - 1];
    assert '.' !in last;
    if |last| > |ext| {
      ExtensionIsLastDot(s, |s| - |ext| - 1);
      assert false;
    } else if |last| < |ext| {
      assert false;
    }
    assert last == s[|s| - |ext|..] == ext;
  }

  /** For a file `stem.ext` the table entry of `ext` decides the type, and an
      extension outside the table gives the fallback with a warning. */
  lemma ExtensionDecides(stem: string, ext: string)
    requires '.' !in ext
    ensures TypeForFilename(stem + "." + ext)
      == if ext in TypeTable then (TypeTable[ext], false) else (Fallback, true)
  {
    ExtensionAfterDot(stem, ext);
  }

  /** The table's lookups are case-sensitive: `S` is assembly, `s` is unknown. */
  lemma CaseSensitiveTable()
    ensures "S" in TypeTable && TypeTable["S"] == "sourcecode.asm"
    ensures "s" !in TypeTable && "C" !in TypeTable && "xyz" !in TypeTable
  {
  }
}
