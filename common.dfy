/** Small sequence helpers shared by the components: the "includes ? filter :
    append" toggle used for option and FAQ selection, the filter that drops one
    value, and the `slice(-n)` suffix. */
module Common {

  datatype Option<T> = None | Some(value: T)

  /** No value occurs twice. */
  predicate Distinct<T(==)>(s: seq<T>) {
    forall i, j :: 0 <= i < j < |s| ==> s[i] != s[j]
  }

  /** `s.filter(v => v !== x)`. */
  function Without<T(==)>(s: seq<T>, x: T): (r: seq<T>)
    ensures x !in r
    ensures forall i :: 0 <= i < |r| ==> r[i] in s
    ensures forall i :: 0 <= i < |s| && s[i] != x ==> s[i] in r
    ensures |r| <= |s|
  {
    if s == [] then []
    else if s[0] == x then Without(s[1..], x)
    else [s[0]] + Without(s[1..], x)
  }

  lemma {:induction false} WithoutAbsent<T>(s: seq<T>, x: T)
    requires x !in s
    ensures Without(s, x) == s
  {
    if s != [] {
      WithoutAbsent(s[1..], x);
    }
  }

  lemma {:induction false} WithoutKeepsDistinct<T>(s: seq<T>, x: T)
    requires Distinct(s)
    ensures Distinct(Without(s, x))
  {
    if s != [] {
      WithoutKeepsDistinct(s[1..], x);
      var t := Without(s[1..], x);
      assert s[0] !in s[1..];
      assert s[0] !in t;
    }
  }

  /** In a list without duplicates, dropping a present value shortens it by one. */
  lemma {:induction false} WithoutOnce<T>(s: seq<T>, x: T)
    requires Distinct(s) && x in s
    ensures |Without(s, x)| == |s| - 1
  {
    if s[0] == x {
      assert x !in s[1..];
      WithoutAbsent(s[1..], x);
    } else {
      assert Distinct(s[1..]);
      WithoutOnce(s[1..], x);
    }
  }

  /** `prev.includes(x) ? prev.filter(y => y !== x) : [...prev, x]`. */
  function Toggle<T(==)>(s: seq<T>, x: T): (r: seq<T>)
    ensures x in r <==> x !in s
    ensures forall i :: 0 <= i < |r| && r[i] != x ==> r[i] in s
    ensures forall i :: 0 <= i < |s| && s[i] != x ==> s[i] in r
    ensures Distinct(s) ==> Distinct(r)
  {
    if x in s then
      assert Distinct(s) ==> Distinct(Without(s, x)) by {
        if Distinct(s) { WithoutKeepsDistinct(s, x); }
      }
      Without(s, x)
    else
      assert Distinct(s) ==> Distinct(s + [x]) by {
        if Distinct(s) {
          forall i, j | 0 <= i < j < |s + [x]| ensures (s + [x])[i] != (s + [x])[j] {
            if j == |s| { assert (s + [x])[i] == s[i]; }
          }
        }
      }
      s + [x]
  }

  /** Toggling a value that is absent, then toggling it again, gives back the
      very same list. */
  lemma ToggleTwiceAbsent<T>(s: seq<T>, x: T)
    requires x !in s
    ensures Toggle(Toggle(s, x), x) == s
  {
    assert x in s + [x];
    WithoutAppend(s, x);
  }

  lemma {:induction false} WithoutAppend<T>(s: seq<T>, x: T)
    requires x !in s
    ensures Without(s + [x], x) == s
  {
    if s == [] {
      assert [x][1..] == [];
    } else {
      assert (s + [x])[0] == s[0] != x;
      assert (s + [x])[1..] == s[1..] + [x];
      WithoutAppend(s[1..], x);
      assert s == [s[0]] + s[1..];
    }
  }

  /** Toggling a present value twice moves it to the end: the list keeps its
      length and every value, and it is restored exactly when the value was
      already last. */
  lemma TogglePresentTwice<T>(s: seq<T>, x: T)
    requires x in s && Distinct(s)
    ensures Toggle(Toggle(s, x), x) == Without(s, x) + [x]
    ensures |Toggle(Toggle(s, x), x)| == |s|
    ensures forall i :: 0 <= i < |s| ==> s[i] in Toggle(Toggle(s, x), x)
    ensures s[|s| - 1] == x ==> Toggle(Toggle(s, x), x) == s
  {
    WithoutOnce(s, x);
    if s[|s| - 1] == x {
      var init := s[..|s| - 1];
      assert s == init + [x];
      assert x !in init;
      WithoutAppend(init, x);
    }
  }

  /** `s.slice(-n)`: the last n elements, or all of them when there are fewer. */
  function Last<T>(s: seq<T>, n: nat): (r: seq<T>)
    ensures |r| == if |s| <= n then |s| else n
    ensures forall i :: 0 <= i < |r| ==> r[i] == s[|s| - |r| + i]
  {
    if |s| <= n then s else s[|s| - n..]
  }

  lemma {:induction false} MulAtLeast(m: nat, d: nat)
    requires d >= 1
    ensures m * d >= m
  {
    if d > 1 {
      MulAtLeast(m, d - 1);
      assert m * d == m * (d - 1) + m;
    }
  }

  /** Euclidean division is unique. */
  lemma ModUnique(n: int, m: int, a: int, b: int)
    requires m > 0 && n == m * a + b && 0 <= b < m
    ensures n % m == b
  {
    var a', b' := n / m, n % m;
    assert n == m * a' + b';
    var d := a - a';
    assert m * d == m * a - m * a';
    assert m * d == b' - b;
    if d > 0 {
      MulAtLeast(m, d);
    } else if d < 0 {
      MulAtLeast(m, -d);
    }
  }

  /** Remainders of numbers below 2n. */
  lemma ModSmall(x: int, n: int)
    requires n > 0 && 0 <= x < 2 * n
    ensures x % n == if x < n then x else x - n
  {
    if x < n {
      ModUnique(x, n, 0, x);
    } else {
      ModUnique(x, n, 1, x - n);
    }
  }
}
