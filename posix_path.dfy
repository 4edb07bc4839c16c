/**
  `os.path.join` with POSIX semantics, as the URL of a scaffold is built:
  a component that starts with `/` discards everything before it; any other
  component is appended, after a `/` unless the path so far is empty or
  already ends in one. No other normalisation takes place.
 */
module PosixPath {

  predicate IsRooted(s: string) { |s| > 0 && s[0] == '/' }

  predicate EndsInSlash(s: string) { |s| > 0 && s[|s| - 1] == '/' }

  /** One step of the join loop: `path` so far, next component `b`. */
  function JoinStep(path: string, b: string): (r: string)
    ensures IsRooted(b) ==> r == b
    ensures !IsRooted(b) ==> |path| <= |r| && r[..|path|] == path
  {
    if IsRooted(b) then b
    else if path == [] || EndsInSlash(path) then path + b
    else path + "/" + b
  }

  /**
    `os.path.join(a, *ps)`: the result always ends with the last component,
    and a join that starts at a rooted path stays rooted.
   */
  function Join(a: string, ps: seq<string>): (r: string)
    ensures |ps| > 0 ==> |ps[|ps| - 1]| <= |r| && r[|r| - |ps[|ps| - 1]|..] == ps[|ps| - 1]
    ensures IsRooted(a) ==> IsRooted(r)
    decreases |ps|
  {
    if ps == [] then a
    else
      var path := Join(a, ps[..|ps| - 1]);
      var b := ps[|ps| - 1];
      assert !IsRooted(b) && !(path == [] || EndsInSlash(path)) ==> path + "/" + b == (path + "/") + b;
      JoinStep(path, b)
  }

  /** A rooted component resets the path: what came before it has no effect. */
  lemma {:induction false} JoinResets(a: string, ps: seq<string>, k: nat)
    requires k < |ps| && IsRooted(ps[k])
    ensures Join(a, ps) == Join(ps[k], ps[k + 1..])
    decreases |ps|
  {
    if k == |ps| - 1 {
      assert ps[k + 1..] == [];
    } else {
      JoinResets(a, ps[..|ps| - 1], k);
      assert ps[..|ps| - 1][k] == ps[k];
      assert ps[..|ps| - 1][k + 1..] == ps[k + 1..][..|ps[k + 1..]| - 1];
    }
  }
}
