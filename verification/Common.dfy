/** What several modules share. */
module Common {
  datatype Option<+T> = None | Some(value: T)

  /** Nothing occurs twice. */
  predicate Once<T(==)>(s: seq<T>) {
    s == [] || (s[|s| - 1] !in s[..|s| - 1] && Once(s[..|s| - 1]))
  }

  lemma OnceMore<T>(s: seq<T>, x: T)
    requires Once(s) && x !in s
    ensures Once(s + [x])
  {
    assert (s + [x])[..|s|] == s;
  }

  /** What leaves a queue at its head does not occur behind it. */
  lemma {:induction false} OnceBehind<T>(s: seq<T>)
    requires Once(s) && s != []
    ensures Once(s[1..]) && s[0] !in s[1..]
  {
    if |s| == 1 {
    } else {
      OnceBehind(s[..|s| - 1]);
      assert s[1..][..|s| - 2] == s[..|s| - 1][1..];
      assert s[1..] == s[1..][..|s| - 2] + [s[|s| - 1]];
    }
  }
}
