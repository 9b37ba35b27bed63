/** The two operations the server applies to its `List<ChatClient>`:
    `Remove` (first occurrence, by reference) and `Where(c => c != x)`. */
module Lists {

  predicate Distinct<T(==)>(s: seq<T>)
  {
    forall i, j :: 0 <= i < j < |s| ==> s[i] != s[j]
  }

  /** `List<T>.IndexOf(x)`: the position of the first occurrence of `x`. */
  function IndexOf<T(==)>(s: seq<T>, x: T): (k: nat)
    requires x in s
    ensures k < |s| && s[k] == x && x !in s[..k]
  {
    if s[0] == x then 0
    else
      var k := IndexOf(s[1..], x);
      assert s[..k + 1] == [s[0]] + s[1..][..k];
      k + 1
  }

  /** `List<T>.Remove(x)`: drops the first occurrence of `x` and keeps the
      order of the rest; a list without `x` is returned unchanged. */
  function RemoveFirst<T(==)>(s: seq<T>, x: T): seq<T>
  {
    if x in s then s[..IndexOf(s, x)] + s[IndexOf(s, x) + 1..] else s
  }

  /** `Where(c => c != x)`: every element except `x`, in order. */
  function Without<T(==)>(s: seq<T>, x: T): (r: seq<T>)
    ensures |r| <= |s|
  {
    if s == [] then [] else (if s[0] == x then [] else [s[0]]) + Without(s[1..], x)
  }

  /** In a list without repetitions, `Remove` and `Where` agree, and what is
      left has no repetitions and lacks `x`. */
  lemma {:induction false} RemoveFirstIsWithout<T>(s: seq<T>, x: T)
    requires Distinct(s)
    ensures RemoveFirst(s, x) == Without(s, x)
    ensures Distinct(Without(s, x))
    ensures x !in Without(s, x)
    ensures |Without(s, x)| == if x in s then |s| - 1 else |s|
  {
    WithoutKeepsDistinct(s, x);
    WithoutMembers(s, x, x);
    if x in s {
      RemovePresent(s, x);
    } else {
      WithoutAbsent(s, x);
    }
  }

  /** Removing the only occurrence of `x` is cutting it out of the list. */
  lemma {:induction false} RemovePresent<T>(s: seq<T>, x: T)
    requires Distinct(s) && x in s
    ensures RemoveFirst(s, x) == Without(s, x)
    ensures |Without(s, x)| == |s| - 1
  {
    var k := IndexOf(s, x);
    var pre, post := s[..k], s[k + 1..];
    var rest := [x] + post;
    assert s == pre + rest;
    assert rest[0] == x && rest[1..] == post;
    assert x !in post by {
      forall j | 0 <= j < |post| ensures post[j] != x { assert post[j] == s[k + 1 + j]; }
    }
    WithoutAbsent(pre, x);
    WithoutAbsent(post, x);
    assert Without(rest, x) == post;
    WithoutSplit(pre, rest, x);
    assert RemoveFirst(s, x) == pre + post;
  }

  /** `Where` keeps exactly the elements other than `x`. */
  lemma {:induction false} WithoutMembers<T>(s: seq<T>, x: T, y: T)
    ensures y in Without(s, x) <==> y in s && y != x
  {
    if s != [] {
      WithoutMembers(s[1..], x, y);
      assert s == [s[0]] + s[1..];
    }
  }

  /** `Where` distributes over concatenation. */
  lemma {:induction false} WithoutSplit<T>(a: seq<T>, b: seq<T>, x: T)
    ensures Without(a + b, x) == Without(a, x) + Without(b, x)
  {
    if a != [] {
      assert (a + b)[1..] == a[1..] + b;
      WithoutSplit(a[1..], b, x);
    } else {
      assert a + b == b;
    }
  }

  /** Filtering keeps a list free of repetitions. */
  lemma {:induction false} WithoutKeepsDistinct<T>(s: seq<T>, x: T)
    requires Distinct(s)
    ensures Distinct(Without(s, x))
  {
    if s != [] {
      assert Distinct(s[1..]) by {
        forall i, j | 0 <= i < j < |s[1..]| ensures s[1..][i] != s[1..][j] {
          assert s[1..][i] == s[i + 1] && s[1..][j] == s[j + 1];
        }
      }
      WithoutKeepsDistinct(s[1..], x);
      var tail := Without(s[1..], x);
      if s[0] != x {
        var r := Without(s, x);
        assert r == [s[0]] + tail;
        forall i, j | 0 <= i < j < |r| ensures r[i] != r[j] {
          assert r[j] == tail[j - 1];
          if i == 0 {
            WithoutMembers(s[1..], x, tail[j - 1]);
            assert tail[j - 1] in s[1..];
            var m :| 0 <= m < |s[1..]| && s[1..][m] == tail[j - 1];
            assert s[m + 1] == tail[j - 1];
          } else {
            assert r[i] == tail[i - 1];
          }
        }
      }
    }
  }

  /** Filtering out an element that is not there changes nothing. */
  lemma {:induction false} WithoutAbsent<T>(s: seq<T>, x: T)
    requires x !in s
    ensures Without(s, x) == s
  {
    if s != [] {
      assert x !in s[1..];
      WithoutAbsent(s[1..], x);
      assert s == [s[0]] + s[1..];
    }
  }
}
