/**
  Option keys are namespaced as "<scope>/<subkey>". `SplitKey` cuts a key at its
  first '/', so the subkey may itself contain further separators.
*/
module Keys {
  import opened Wrappers

  const Separator: char := '/'

  /** The position of the first separator in `s`, if there is one. */
  function IndexOfSeparator(s: string): (r: Option<nat>)
    ensures r.None? <==> Separator !in s
    ensures r.Some? ==> r.value < |s| && s[r.value] == Separator && Separator !in s[..r.value]
  {
    if |s| == 0 then None
    else if s[0] == Separator then Some(0)
    else
      match IndexOfSeparator(s[1..])
      case None => None
      case Some(i) =>
        assert s[..i + 1] == [s[0]] + s[1..][..i];
        Some(i + 1)
  }

  /**
    Splits a key at its first separator into a scope and the rest. A key without a
    separator is all scope, with an empty rest.
  */
  function SplitKey(key: string): (r: (string, string))
    ensures Separator in key ==> Separator !in r.0 && r.0 + [Separator] + r.1 == key
    ensures Separator !in key ==> r == (key, "")
  {
    match IndexOfSeparator(key)
    case None => (key, "")
    case Some(i) =>
      assert key == key[..i] + [Separator] + key[i + 1..];
      (key[..i], key[i + 1..])
  }

  /** Two ways of writing a key as "<scope>/<rest>" with a separator-free scope coincide. */
  lemma ScopeDecompositionUnique(p: string, s: string, q: string, t: string)
    requires Separator !in p && Separator !in q
    requires p + [Separator] + s == q + [Separator] + t
    ensures p == q && s == t
  {
    var key := p + [Separator] + s;
    // The first separator of the key sits at |p| and at |q|.
    assert key[|p|] == Separator && key[|q|] == Separator;
    assert forall i :: 0 <= i < |p| ==> key[i] == p[i];
    assert forall i :: 0 <= i < |q| ==> key[i] == q[i];
    assert p == key[..|p|] == q;
    assert s == key[|p| + 1..] == t;
  }

  /** Joining a separator-free scope and any rest, then splitting, gives both back. */
  lemma {:induction false} SplitKeyJoin(scope: string, rest: string)
    requires Separator !in scope
    ensures SplitKey(scope + [Separator] + rest) == (scope, rest)
  {
    var key := scope + [Separator] + rest;
    assert key[|scope|] == Separator;
    var r := SplitKey(key);
    ScopeDecompositionUnique(r.0, r.1, scope, rest);
  }
}
