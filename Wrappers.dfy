/** Python's `None`-or-value results and `dict.get` with a default. */
module Wrappers {

  datatype Option<T> = None | Some(value: T)

  /** `d.get(k, default)` */
  function GetOr<K, V>(d: map<K, V>, k: K, default: V): (r: V)
    ensures k in d ==> r == d[k]
    ensures k !in d ==> r == default
  {
    if k in d then d[k] else default
  }

  /** The values of the `Some` entries, in order */
  function Somes<T>(s: seq<Option<T>>): seq<T>
    decreases |s|
  {
    if |s| == 0 then []
    else
      var n := |s| - 1;
      Somes(s[..n]) + (if s[n].Some? then [s[n].value] else [])
  }

  lemma {:induction false} SomesLength<T>(s: seq<Option<T>>)
    decreases |s|
    ensures |Somes(s)| <= |s|
  {
    if |s| > 0 {
      SomesLength(s[..|s| - 1]);
    }
  }

  lemma {:induction false} SomesMember<T>(s: seq<Option<T>>, x: T)
    decreases |s|
    ensures x in Somes(s) <==> Some(x) in s
  {
    if |s| > 0 {
      var n := |s| - 1;
      SomesMember(s[..n], x);
      assert s == s[..n] + [s[n]];
    }
  }

  /** One more entry adds its value, if any. */
  lemma SomesStep<T>(s: seq<Option<T>>, i: nat)
    requires i < |s|
    ensures Somes(s[..i + 1]) == Somes(s[..i]) + (if s[i].Some? then [s[i].value] else [])
  {
    assert s[..i + 1][..i] == s[..i];
  }
}
