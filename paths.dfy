/** Path arithmetic on POSIX-style paths: joining two paths and climbing from
    a target's sub-directory back to the build root. */
module Paths {
  import opened Strings

  const Sep: char := '/'

  /** `os.path.join(a, b)`: an absolute `b` replaces `a`; otherwise one
      separator is put between them unless `a` is empty or already ends in one. */
  function JoinPath(a: string, b: string): string
  {
    if StartsWith(b, "/") then b
    else if a == "" || EndsWith(a, "/") then a + b
    else a + "/" + b
  }

  /** The joined path ends with `b`; a relative `b` is put under `a`, with a
      separator between them when `a` does not already end in one. */
  lemma JoinPathShape(a: string, b: string)
    ensures EndsWith(JoinPath(a, b), b)
    ensures !StartsWith(b, "/") ==> StartsWith(JoinPath(a, b), a)
    ensures !StartsWith(b, "/") && a != "" && !EndsWith(a, "/") ==>
      |JoinPath(a, b)| == |a| + 1 + |b| && JoinPath(a, b)[|a|] == Sep
  {
    if !StartsWith(b, "/") {
      if a == "" || EndsWith(a, "/") {
        assert (a + b)[|a|..] == b && (a + b)[..|a|] == a;
      } else {
        assert (a + "/" + b)[|a| + 1..] == b && (a + "/" + b)[..|a|] == a;
      }
    }
  }

  /** `target_to_build_root`: one `..` per component of the (already
      normalised) sub-directory, joined by the separator; `""` at the top. */
  function TargetToBuildRoot(subdir: string): (r: string)
    ensures r == "" <==> subdir == ""
    ensures subdir != "" ==> Split(r, Sep) == Repeat("..", |Split(subdir, Sep)|)
  {
    if subdir == "" then ""
    else
      var ups := Repeat("..", |Split(subdir, Sep)|);
      SplitJoin(ups, Sep);
      Join(ups, Sep)
  }
}
