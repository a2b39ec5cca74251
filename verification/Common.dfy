/** Small vocabulary shared by every component of the relay model. */
module Common {

  datatype Option<+T> = None | Some(value: T)

  datatype Result<+T, +E> = Ok(value: T) | Err(error: E)

  /** The `saturating_sub` of unsigned amounts. */
  function Monus(a: nat, b: nat): nat {
    if a <= b then 0 else a - b
  }

  function Min(a: nat, b: nat): nat {
    if a <= b then a else b
  }

  function Max(a: nat, b: nat): nat {
    if a <= b then b else a
  }

  function Pow10(n: nat): (p: nat)
    ensures p > 0
  {
    if n == 0 then 1 else 10 * Pow10(n - 1)
  }

  lemma {:induction false} Pow10Adds(m: nat, n: nat)
    ensures Pow10(m + n) == Pow10(m) * Pow10(n)
  {
    if m != 0 {
      Pow10Adds(m - 1, n);
      assert Pow10(m + n) == 10 * Pow10(m - 1 + n);
    }
  }

  lemma MulMono(a: nat, b: nat, c: nat)
    requires a <= b
    ensures a * c <= b * c
  {
  }

  /** Products and floored quotients, named to keep arithmetic out of larger proofs. */
  function Up(amount: nat, factor: nat): nat {
    amount * factor
  }

  function Down(amount: nat, factor: nat): nat
    requires factor > 0
  {
    amount / factor
  }

  lemma DownBounds(amount: nat, factor: nat)
    requires factor > 0
    ensures Up(Down(amount, factor), factor) <= amount < Up(Down(amount, factor) + 1, factor)
  {
  }

  lemma Cancel(a: nat, b: nat, c: nat)
    requires c > 0 && Up(a, c) <= Up(b, c)
    ensures a <= b
  {
    if b < a {
      MulMono(b + 1, a, c);
    }
  }

  lemma DownAtLeast(amount: nat, least: nat, factor: nat)
    requires factor > 0 && Up(least, factor) <= amount
    ensures least <= Down(amount, factor)
  {
    DownBounds(amount, factor);
    if Down(amount, factor) < least {
      MulMono(Down(amount, factor) + 1, least, factor);
    }
  }

  /** Sum of `f` over a sequence. */
  ghost function Sum<T>(s: seq<T>, f: T -> nat): nat {
    if s == [] then 0 else Sum(s[..|s| - 1], f) + f(s[|s| - 1])
  }

  lemma SumOne<T>(x: T, f: T -> nat)
    ensures Sum([x], f) == f(x)
  {
    assert [x][..0] == [];
  }

  lemma {:induction false} SumAppend<T>(s: seq<T>, t: seq<T>, f: T -> nat)
    ensures Sum(s + t, f) == Sum(s, f) + Sum(t, f)
  {
    if t == [] {
      assert s + t == s;
    } else {
      assert (s + t)[..|s + t| - 1] == s + t[..|t| - 1];
      SumAppend(s, t[..|t| - 1], f);
    }
  }

  lemma {:induction false} SumUpdate<T>(s: seq<T>, i: nat, x: T, f: T -> nat)
    requires i < |s|
    ensures Sum(s[i := x], f) + f(s[i]) == Sum(s, f) + f(x)
  {
    var last := |s| - 1;
    if i == last {
      assert s[i := x][..last] == s[..last];
    } else {
      assert s[i := x][..last] == s[..last][i := x];
      SumUpdate(s[..last], i, x, f);
    }
  }

  /** Pointwise `f + g <= h` (or equality) carries over to sums. */
  lemma {:induction false} SumPointwise<T>(s: seq<T>, f: T -> nat, g: T -> nat, h: T -> nat)
    requires forall x <- s :: f(x) + g(x) <= h(x)
    ensures Sum(s, f) + Sum(s, g) <= Sum(s, h)
    ensures (forall x <- s :: f(x) + g(x) == h(x)) ==> Sum(s, f) + Sum(s, g) == Sum(s, h)
  {
    if s != [] {
      assert s[|s| - 1] in s;
      SumPointwise(s[..|s| - 1], f, g, h);
    }
  }

  lemma {:induction false} SumZero<T>(s: seq<T>, f: T -> nat)
    requires forall x <- s :: f(x) == 0
    ensures Sum(s, f) == 0
  {
    if s != [] {
      assert s[|s| - 1] in s;
      SumZero(s[..|s| - 1], f);
    }
  }

  /** With all other summands zero, the sum is the one left. */
  lemma {:induction false} SumSingle<T>(s: seq<T>, i: nat, f: T -> nat)
    requires i < |s| && forall j | 0 <= j < |s| && j != i :: f(s[j]) == 0
    ensures Sum(s, f) == f(s[i])
  {
    var init := s[..|s| - 1];
    if i == |s| - 1 {
      SumZero(init, f);
    } else {
      SumSingle(init, i, f);
    }
  }

  ghost function AnyKey<V>(m: map<nat, V>): (k: nat)
    requires m != map[]
    ensures k in m
  {
    var k :| k in m; k
  }

  /** Sum of `f` over the values of a map. */
  ghost function SumValues<V>(m: map<nat, V>, f: V -> nat): nat
    decreases m.Keys
  {
    if m == map[] then 0
    else var k := AnyKey(m); f(m[k]) + SumValues(m - {k}, f)
  }

  /** The order in which the keys are visited does not matter. */
  lemma {:induction false} SumValuesRemove<V>(m: map<nat, V>, k: nat, f: V -> nat)
    requires k in m
    ensures SumValues(m, f) == f(m[k]) + SumValues(m - {k}, f)
    decreases m.Keys
  {
    var j := AnyKey(m);
    if j != k {
      SumValuesRemove(m - {j}, k, f);
      SumValuesRemove(m - {k}, j, f);
      assert m - {j} - {k} == m - {k} - {j};
    }
  }
}
