/**
 * How the query runner extends the child process's module search path
 * (`PYTHONPATH`) with the repository root before launching `scripts.ask`.
 */
module SearchPath {
  import opened Wrappers
  import opened PyText

  /** The environment variable that is extended. */
  const SearchPathVar: string := "PYTHONPATH"

  /** `env.get(key)`. */
  function Lookup(env: map<string, string>, key: string): Option<string> {
    if key in env then Some(env[key]) else None
  }

  /** The new search-path value: the repository root in front of a present,
    * non-empty old value, or the root alone. */
  function ExtendSearchPath(root: string, sep: string, prior: Option<string>): string {
    if Truthy(prior) then root + sep + prior.value else root
  }

  /** Reads the old value back out of an extended search path: what follows
    * the root and one separator (the partner of `ExtendSearchPath`). */
  function PriorOf(root: string, sep: string, extended: string): Option<string> {
    if |extended| > |root| && |extended| >= |root| + |sep|
       && extended[..|root|] == root && extended[|root|..|root| + |sep|] == sep
    then Some(extended[|root| + |sep|..])
    else None
  }

  /** The root always comes first, followed by the separator and the old value
    * whenever that was present and non-empty; the old value is never dropped
    * and can be recovered exactly. */
  lemma ExtendSearchPathKeepsPrior(root: string, sep: string, prior: Option<string>)
    ensures var p := ExtendSearchPath(root, sep, prior);
      |p| >= |root| && p[..|root|] == root
      && (Truthy(prior) ==> |p| == |root| + |sep| + |prior.value| && p[|root|..|root| + |sep|] == sep)
      && PriorOf(root, sep, p) == (if Truthy(prior) then prior else None)
      && (!Truthy(prior) ==> p == root)
  {
    var p := ExtendSearchPath(root, sep, prior);
    if Truthy(prior) {
      assert p[..|root|] == root;
      assert p[|root|..|root| + |sep|] == sep;
      assert p[|root| + |sep|..] == prior.value;
    }
  }

  /** `env` with its search-path entry replaced by the extended value;
    * every other variable is passed on unchanged. */
  function WithSearchPath(env: map<string, string>, root: string, sep: string): (e: map<string, string>)
    ensures e.Keys == env.Keys + {SearchPathVar}
    ensures forall k :: k in env && k != SearchPathVar ==> e[k] == env[k]
    ensures Lookup(e, SearchPathVar) == Some(ExtendSearchPath(root, sep, Lookup(env, SearchPathVar)))
  {
    env[SearchPathVar := ExtendSearchPath(root, sep, Lookup(env, SearchPathVar))]
  }
}
