/** File names of an environment's state document and lock marker. */
module Paths {

  predicate IsAbsolute(p: string)
  {
    |p| > 0 && p[0] == '/'
  }

  predicate EndsWith(s: string, suffix: string)
  {
    |suffix| <= |s| && s[|s| - |suffix|..] == suffix
  }

  /** `os.path.join(a, b)` on POSIX: an absolute `b` replaces `a`; otherwise
      `b` is appended to `a`, with one `/` between them unless `a` is empty or
      already ends in `/`. */
  function Join(a: string, b: string): (r: string)
    ensures EndsWith(r, b)
    ensures IsAbsolute(b) ==> r == b
    ensures !IsAbsolute(b) ==> |a| <= |r| && r[..|a|] == a
    ensures !IsAbsolute(b) ==> |r| - |a| - |b| in {0, 1}
    ensures !IsAbsolute(b) ==> (|r| == |a| + |b| <==> a == "" || a[|a| - 1] == '/')
    ensures !IsAbsolute(b) && |r| == |a| + |b| + 1 ==> r[|a|] == '/'
  {
    if IsAbsolute(b) then b
    else if a == "" || a[|a| - 1] == '/' then a + b
    else a + "/" + b
  }

  const StateSuffix := "-tfstate.json"
  const LockSuffix := "-tfstate.lock"

  /** `_getstatefilename`: the state path joined with `'%s-tfstate.json' % env`. */
  function StateFileName(statePath: string, env: string): (r: string)
    ensures EndsWith(r, env + StateSuffix)
    ensures !IsAbsolute(env) ==> |statePath| <= |r| && r[..|statePath|] == statePath
    ensures !IsAbsolute(env) && statePath != "" && statePath[|statePath| - 1] != '/' ==>
      |statePath| < |r| && r[|statePath|] == '/'
  {
    Join(statePath, env + StateSuffix)
  }

  /** `_getlockfilename`: the state path joined with `'%s-tfstate.lock' % env`. */
  function LockFileName(statePath: string, env: string): (r: string)
    ensures EndsWith(r, env + LockSuffix)
    ensures !IsAbsolute(env) ==> |statePath| <= |r| && r[..|statePath|] == statePath
    ensures !IsAbsolute(env) && statePath != "" && statePath[|statePath| - 1] != '/' ==>
      |statePath| < |r| && r[|statePath|] == '/'
  {
    Join(statePath, env + LockSuffix)
  }

  /** No state file name is ever a lock file name, whatever the state paths and
      environments: the two end in different suffixes. */
  lemma StateAndLockNamesDiffer(p: string, e: string, q: string, f: string)
    ensures StateFileName(p, e) != LockFileName(q, f)
  {
    var s, l := StateFileName(p, e), LockFileName(q, f);
    assert s[|s| - 1] == (e + StateSuffix)[|e + StateSuffix| - 1] == 'n';
    assert l[|l| - 1] == (f + LockSuffix)[|f + LockSuffix| - 1] == 'k';
  }

  /** Joining onto one directory is injective on relative names. */
  lemma JoinInjective(a: string, b: string, c: string)
    requires !IsAbsolute(b) && !IsAbsolute(c)
    requires Join(a, b) == Join(a, c)
    ensures b == c
  {
  }

  /** Two different environments whose names do not start with `/` never
      share a state file. */
  lemma StateFileNameInjective(p: string, e: string, f: string)
    requires !IsAbsolute(e) && !IsAbsolute(f)
    requires StateFileName(p, e) == StateFileName(p, f)
    ensures e == f
  {
    JoinInjective(p, e + StateSuffix, f + StateSuffix);
    assert e == (e + StateSuffix)[..|e|];
    assert f == (f + StateSuffix)[..|f|];
  }

  /** Two different environments whose names do not start with `/` never
      share a lock file. */
  lemma LockFileNameInjective(p: string, e: string, f: string)
    requires !IsAbsolute(e) && !IsAbsolute(f)
    requires LockFileName(p, e) == LockFileName(p, f)
    ensures e == f
  {
    JoinInjective(p, e + LockSuffix, f + LockSuffix);
    assert e == (e + LockSuffix)[..|e|];
    assert f == (f + LockSuffix)[..|f|];
  }

  /** The file-name helpers do not validate the environment name: for one that
      starts with `/`, the state path is ignored. */
  lemma AbsoluteEnvironmentIgnoresStatePath(p: string, e: string)
    requires IsAbsolute(e)
    ensures StateFileName(p, e) == e + StateSuffix
    ensures LockFileName(p, e) == e + LockSuffix
  {
  }
}
