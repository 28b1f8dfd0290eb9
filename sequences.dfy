/** Facts about duplicate-free sequences, used for the choices list and the schedule store. */
module Sequences {

  /** No element occurs twice. */
  ghost predicate NoDuplicates<T>(s: seq<T>)
  {
    forall i, j :: 0 <= i < j < |s| ==> s[i] != s[j]
  }

  /** In a duplicate-free sequence every element occurs exactly once, and the rest not at all. */
  lemma {:induction false} NoDuplicatesCount<T>(s: seq<T>, x: T)
    requires NoDuplicates(s)
    ensures multiset(s)[x] == if x in s then 1 else 0
  {
    if s != [] {
      assert s == [s[0]] + s[1..];
      assert NoDuplicates(s[1..]) by {
        forall i, j | 0 <= i < j < |s[1..]| ensures s[1..][i] != s[1..][j] {
          assert s[1..][i] == s[i + 1] && s[1..][j] == s[j + 1];
        }
      }
      NoDuplicatesCount(s[1..], x);
      assert s[0] !in s[1..] by {
        forall k | 0 <= k < |s[1..]| ensures s[1..][k] != s[0] {
          assert s[1..][k] == s[k + 1];
        }
      }
      assert multiset(s) == multiset{s[0]} + multiset(s[1..]);
    }
  }

  /** Appending an element that is not yet present keeps a sequence duplicate-free. */
  lemma AppendFreshKeepsNoDuplicates<T>(s: seq<T>, x: T)
    requires NoDuplicates(s) && x !in s
    ensures NoDuplicates(s + [x])
  {
  }

  /**
   * Adding an element only when it is absent keeps a sequence duplicate-free
   * and leaves exactly one copy of that element.
   */
  lemma AddIfAbsent<T>(s: seq<T>, x: T)
    requires NoDuplicates(s)
    ensures NoDuplicates(if x in s then s else s + [x])
    ensures multiset(if x in s then s else s + [x])[x] == 1
  {
    var s' := if x in s then s else s + [x];
    if x !in s {
      AppendFreshKeepsNoDuplicates(s, x);
    }
    NoDuplicatesCount(s', x);
  }
}
