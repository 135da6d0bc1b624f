/** `_get_cl_compiler`: the C or C++ compiler whose argument syntax is used
    to translate the compile arguments of external dependencies. */
module Compilers {
  import opened Wrappers
  import opened Dicts
  import opened Build

  predicate IsClLanguage(lang: string)
  {
    lang == "c" || lang == "cpp"
  }

  predicate HasCl(d: Dict<string, Compiler>)
  {
    exists i :: 0 <= i < |d.keys| && IsClLanguage(d.keys[i])
  }

  /** Position of the first C or C++ language in iteration order. */
  function FirstClIndex(keys: seq<string>): (i: nat)
    requires exists j :: 0 <= j < |keys| && IsClLanguage(keys[j])
    ensures i < |keys| && IsClLanguage(keys[i])
    ensures forall j :: 0 <= j < i ==> !IsClLanguage(keys[j])
  {
    if IsClLanguage(keys[0]) then 0
    else
      assert exists j :: 0 <= j < |keys[1..]| && IsClLanguage(keys[1..][j]) by {
        var j :| 0 <= j < |keys| && IsClLanguage(keys[j]);
        assert keys[1..][j - 1] == keys[j];
      }
      1 + FirstClIndex(keys[1..])
  }

  const NoClCompiler: Error := MesonException("Could not find a C or C++ compiler.")

  /** Searches the target's compilers in order for C or C++; a target with
      object files falls back to the configuration's compilers; otherwise the
      search raises. Nothing is changed. */
  method GetClCompiler(t: Target, env: Environment) returns (r: Result<Compiler>)
    requires t.compilers.Valid() && env.compilers.Valid()
    ensures r.Err? <==> !HasCl(t.compilers) && (|t.objects| == 0 || !HasCl(env.compilers))
    ensures r.Err? ==> r.error == NoClCompiler
    ensures r.Ok? && HasCl(t.compilers) ==>
      r.value == t.compilers.items[t.compilers.keys[FirstClIndex(t.compilers.keys)]]
    ensures r.Ok? && !HasCl(t.compilers) ==>
      r.value == env.compilers.items[env.compilers.keys[FirstClIndex(env.compilers.keys)]]
  {
    var i := 0;
    while i < |t.compilers.keys|
      invariant 0 <= i <= |t.compilers.keys|
      invariant forall j :: 0 <= j < i ==> !IsClLanguage(t.compilers.keys[j])
    {
      var lang := t.compilers.keys[i];
      if IsClLanguage(lang) {
        return Ok(t.compilers.items[lang]);
      }
      i := i + 1;
    }
    if |t.objects| > 0 {
      var k := 0;
      while k < |env.compilers.keys|
        invariant 0 <= k <= |env.compilers.keys|
        invariant forall j :: 0 <= j < k ==> !IsClLanguage(env.compilers.keys[j])
      {
        var lang := env.compilers.keys[k];
        if IsClLanguage(lang) {
          return Ok(env.compilers.items[lang]);
        }
        k := k + 1;
      }
    }
    return Err(NoClCompiler);
  }
}
