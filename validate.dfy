/**
 * `validate_paths`: split a list of user-supplied folder paths into those
 * that name an existing directory once `~` is expanded, and the rest.
 *
 * Home-directory expansion and the directory test ask the operating
 * system; both are parameters here.
 */
module Validate {

  /** The paths kept as valid, in their expanded form. */
  function ValidOf(paths: seq<string>, expand: string -> string, isDir: string -> bool): seq<string> {
    if paths == [] then []
    else
      var p := paths[|paths| - 1];
      ValidOf(paths[..|paths| - 1], expand, isDir) + (if isDir(expand(p)) then [expand(p)] else [])
  }

  /** The paths rejected, exactly as the caller wrote them. */
  function InvalidOf(paths: seq<string>, expand: string -> string, isDir: string -> bool): seq<string> {
    if paths == [] then []
    else
      var p := paths[|paths| - 1];
      InvalidOf(paths[..|paths| - 1], expand, isDir) + (if isDir(expand(p)) then [] else [p])
  }

  method ValidatePaths(paths: seq<string>, expand: string -> string, isDir: string -> bool)
    returns (valid: seq<string>, invalid: seq<string>)
    ensures valid == ValidOf(paths, expand, isDir)
    ensures invalid == InvalidOf(paths, expand, isDir)
  {
    valid, invalid := [], [];
    var i := 0;
    while i < |paths|
      invariant i <= |paths|
      invariant valid == ValidOf(paths[..i], expand, isDir)
      invariant invalid == InvalidOf(paths[..i], expand, isDir)
    {
      var p := paths[i];
      var expanded := expand(p);
      assert paths[..i + 1][..i] == paths[..i];
      if isDir(expanded) {
        valid := valid + [expanded];
      } else {
        invalid := invalid + [p];
      }
      i := i + 1;
    }
    assert paths[..i] == paths;
  }

  /** Every input path lands in exactly one of the two lists. */
  lemma {:induction false} SplitSizes(paths: seq<string>, expand: string -> string, isDir: string -> bool)
    ensures |ValidOf(paths, expand, isDir)| + |InvalidOf(paths, expand, isDir)| == |paths|
  {
    if paths != [] { SplitSizes(paths[..|paths| - 1], expand, isDir); }
  }

  /** A path is reported invalid exactly when its expansion is not a directory. */
  lemma {:induction false} InvalidMembers(paths: seq<string>, expand: string -> string, isDir: string -> bool, x: string)
    ensures x in InvalidOf(paths, expand, isDir) <==> x in paths && !isDir(expand(x))
  {
    if paths != [] {
      var init := paths[..|paths| - 1];
      InvalidMembers(init, expand, isDir, x);
      assert paths == init + [paths[|paths| - 1]];
    }
  }

  /** The valid list holds the expansions of the directory paths, and nothing else. */
  lemma {:induction false} ValidMembers(paths: seq<string>, expand: string -> string, isDir: string -> bool, x: string)
    ensures x in ValidOf(paths, expand, isDir)
            <==> exists k :: 0 <= k < |paths| && isDir(expand(paths[k])) && x == expand(paths[k])
  {
    if paths != [] {
      var init := paths[..|paths| - 1];
      ValidMembers(init, expand, isDir, x);
      if x in ValidOf(paths, expand, isDir) && x !in ValidOf(init, expand, isDir) {
        assert isDir(expand(paths[|paths| - 1])) && x == expand(paths[|paths| - 1]);
      }
      if exists k :: 0 <= k < |paths| && isDir(expand(paths[k])) && x == expand(paths[k]) {
        var k :| 0 <= k < |paths| && isDir(expand(paths[k])) && x == expand(paths[k]);
        if k < |init| { assert init[k] == paths[k]; }
      }
    }
  }

  /** Validation works path by path: validating a concatenation concatenates
    * the results, so input order is kept and repeats are not merged. */
  lemma {:induction false} SplitConcat(a: seq<string>, b: seq<string>, expand: string -> string, isDir: string -> bool)
    ensures ValidOf(a + b, expand, isDir) == ValidOf(a, expand, isDir) + ValidOf(b, expand, isDir)
    ensures InvalidOf(a + b, expand, isDir) == InvalidOf(a, expand, isDir) + InvalidOf(b, expand, isDir)
  {
    if b == [] {
      assert a + b == a;
    } else {
      assert (a + b)[..|a + b| - 1] == a + b[..|b| - 1];
      SplitConcat(a, b[..|b| - 1], expand, isDir);
    }
  }

  /** When every path is a directory, the result is the expanded input and
    * nothing is invalid. */
  lemma {:induction false} AllValid(paths: seq<string>, expand: string -> string, isDir: string -> bool)
    requires forall k :: 0 <= k < |paths| ==> isDir(expand(paths[k]))
    ensures |ValidOf(paths, expand, isDir)| == |paths|
    ensures forall k :: 0 <= k < |paths| ==> ValidOf(paths, expand, isDir)[k] == expand(paths[k])
    ensures InvalidOf(paths, expand, isDir) == []
  {
    if paths != [] { AllValid(paths[..|paths| - 1], expand, isDir); }
  }
}
