/** Small vocabulary shared by every module: options and duplicate-free sequences. */
module Prelude {

  datatype Option<+T> = None | Some(value: T)

  ghost predicate Differ<T>(s: seq<T>, i: nat, j: nat)
    requires i < j < |s|
  {
    s[i] != s[j]
  }

  ghost predicate NoDup<T>(s: seq<T>) {
    forall i: nat, j: nat {:trigger Differ(s, i, j)} :: i < j < |s| ==> Differ(s, i, j)
  }

  lemma NoDupTail<T>(s: seq<T>)
    requires s != []
    ensures NoDup(s) <==> s[0] !in s[1..] && NoDup(s[1..])
  {
    if NoDup(s) {
      forall i: nat | i < |s[1..]| ensures s[1..][i] != s[0] { assert Differ(s, 0, i + 1); }
      forall i: nat, j: nat | i < j < |s[1..]| ensures Differ(s[1..], i, j) { assert Differ(s, i + 1, j + 1); }
    }
    if s[0] !in s[1..] && NoDup(s[1..]) {
      forall i: nat, j: nat | i < j < |s| ensures Differ(s, i, j) {
        assert s[j] == s[1..][j - 1];
        if i > 0 { assert Differ(s[1..], i - 1, j - 1); }
      }
    }
  }

  /** The sequence without the first occurrence of `x`, as `deque.remove` leaves it. */
  function Without<T(==)>(s: seq<T>, x: T): (r: seq<T>)
    ensures x !in s ==> r == s
    ensures |r| <= |s|
  {
    if s == [] then []
    else if s[0] == x then s[1..]
    else [s[0]] + Without(s[1..], x)
  }

  lemma {:induction false} WithoutMembers<T>(s: seq<T>, x: T)
    requires NoDup(s)
    ensures NoDup(Without(s, x))
    ensures forall y :: y in Without(s, x) <==> y in s && y != x
  {
    if s != [] {
      assert s == [s[0]] + s[1..];
      NoDupTail(s);
      if s[0] != x {
        WithoutMembers(s[1..], x);
        var r := Without(s, x);
        assert r[1..] == Without(s[1..], x);
        NoDupTail(r);
        assert s[0] !in s[1..];
        forall y ensures y in Without(s, x) <==> y in s && y != x {
          assert y in s <==> y == s[0] || y in s[1..];
          assert y in Without(s, x) <==> y == s[0] || y in Without(s[1..], x);
        }
      } else {
        forall y ensures y in Without(s, x) <==> y in s && y != x {
          assert y in s <==> y == s[0] || y in s[1..];
          assert s[0] !in s[1..];
        }
      }
    }
  }

  lemma {:induction false} WithoutAt<T>(s: seq<T>, x: T, i: nat)
    requires i < |s| && s[i] == x && x !in s[..i]
    ensures Without(s, x) == s[..i] + s[i + 1..]
  {
    if i > 0 {
      assert s[..i][0] == s[0];
      assert s[1..][..i - 1] == s[..i][1..];
      WithoutAt(s[1..], x, i - 1);
      assert s[1..][i..] == s[i + 1..];
    }
  }

  lemma AppendMembers<T>(s: seq<T>, x: T)
    requires NoDup(s) && x !in s
    ensures NoDup(s + [x])
    ensures forall y :: y in s + [x] <==> y in s || y == x
  {
    assert (s + [x])[|s|] == x;
    forall i: nat, j: nat | i < j < |s + [x]| ensures Differ(s + [x], i, j) {
      if j < |s| { assert Differ(s, i, j); }
    }
  }
}
