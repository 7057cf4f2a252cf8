/**
 * In-memory tables of records keyed by an integer id, as the course and user
 * management pages keep them: updating the records that carry an id,
 * uniqueness of ids, and the choice of an id for a new record.
 */
module Records {
  import opened Common

  /** No two records of `s` share an id. */
  predicate UniqueIds<T>(s: seq<T>, id: T -> int)
  {
    forall i, j :: 0 <= i < j < |s| ==> id(s[i]) != id(s[j])
  }

  /** Whether some record of `s` carries id `x`. */
  predicate HasId<T>(s: seq<T>, id: T -> int, x: int)
  {
    exists i :: 0 <= i < |s| && id(s[i]) == x
  }

  /** The largest id in `s`, or 0 for an empty table. */
  function MaxId<T>(s: seq<T>, id: T -> int): (m: int)
    ensures m >= 0
    ensures forall i :: 0 <= i < |s| ==> id(s[i]) <= m
  {
    if s == [] then 0
    else
      var m := MaxId(s[..|s| - 1], id);
      assert forall i :: 0 <= i < |s| - 1 ==> s[..|s| - 1][i] == s[i];
      if id(s[|s| - 1]) > m then id(s[|s| - 1]) else m
  }

  /** An id that no record of `s` carries: one past the largest. */
  function FreshId<T>(s: seq<T>, id: T -> int): (r: int)
    ensures r >= 1
    ensures !HasId(s, id, r)
  {
    MaxId(s, id) + 1
  }

  /** Appending a record with a fresh id keeps the ids unique. */
  lemma AppendFreshKeepsUnique<T>(s: seq<T>, id: T -> int, x: T)
    requires UniqueIds(s, id)
    requires !HasId(s, id, id(x))
    ensures UniqueIds(s + [x], id)
  {
    var t := s + [x];
    forall i, j | 0 <= i < j < |t| ensures id(t[i]) != id(t[j]) {
      if j == |s| {
        assert t[i] == s[i];
      } else {
        assert t[i] == s[i] && t[j] == s[j];
      }
    }
  }

  /** Removing the records with one id keeps the remaining ids unique. */
  lemma {:induction false} WithoutKeepsUnique<T>(s: seq<T>, id: T -> int, x: int)
    requires UniqueIds(s, id)
    ensures UniqueIds(Without(s, id, x), id)
  {
    if s != [] {
      WithoutKeepsUnique(s[1..], id, x);
      var rest := Without(s[1..], id, x);
      if id(s[0]) != x {
        forall i | 0 <= i < |rest| ensures id(rest[i]) != id(s[0]) {
          var k :| 0 <= k < |s[1..]| && s[1..][k] == rest[i];
          assert s[k + 1] == rest[i];
        }
        var t := [s[0]] + rest;
        forall i, j | 0 <= i < j < |t| ensures id(t[i]) != id(t[j]) {
          if i == 0 {
            assert t[j] == rest[j - 1];
          } else {
            assert t[i] == rest[i - 1] && t[j] == rest[j - 1];
          }
        }
      }
    }
  }

  /**
   * `s.map(r => id(r) === x ? f(r) : r)`: the records carrying `x` are
   * replaced by `f` of themselves, in place; the others are kept.
   */
  function UpdateWhere<T>(s: seq<T>, id: T -> int, x: int, f: T -> T): (r: seq<T>)
    ensures |r| == |s|
    ensures forall i :: 0 <= i < |s| && id(s[i]) != x ==> r[i] == s[i]
    ensures forall i :: 0 <= i < |s| && id(s[i]) == x ==> r[i] == f(s[i])
  {
    if s == [] then []
    else [if id(s[0]) == x then f(s[0]) else s[0]] + UpdateWhere(s[1..], id, x, f)
  }

  /** An update that keeps each record's id keeps the table's ids, hence their uniqueness. */
  lemma UpdateKeepsUnique<T>(s: seq<T>, id: T -> int, x: int, f: T -> T)
    requires UniqueIds(s, id)
    requires forall r :: id(f(r)) == id(r)
    ensures UniqueIds(UpdateWhere(s, id, x, f), id)
  {
    var t := UpdateWhere(s, id, x, f);
    forall i | 0 <= i < |s| ensures id(t[i]) == id(s[i]) {
      if id(s[i]) == x {
        assert id(f(s[i])) == id(s[i]);
      }
    }
  }
}
