/** The text key the live view remembers an interval by: cluster, shard,
    scenario, second and request, joined by bars. When do two different
    measurements share a key? */
module IntervalKeys {

  const BAR := '|'

  /** Decimal digits of a natural number. */
  function Digits(n: nat): (s: string)
    ensures s != [] && BAR !in s && '-' !in s
  {
    var last := ['0' + (n % 10) as char];
    if n < 10 then last else Digits(n / 10) + last
  }

  function Itoa(n: int): (s: string)
    ensures BAR !in s
  {
    if n < 0 then "-" + Digits(-n) else Digits(n)
  }

  /** The number a run of decimal digits reads as. */
  ghost function Value(s: string): int
  {
    if s == [] then 0 else 10 * Value(s[..|s| - 1]) + s[|s| - 1] as int - '0' as int
  }

  /** Digits are decimal, start with a zero only for zero itself, and read back as the number. */
  lemma {:induction false} DigitsReadBack(n: nat)
    ensures Value(Digits(n)) == n
    ensures forall i :: 0 <= i < |Digits(n)| ==> '0' <= Digits(n)[i] <= '9'
    ensures Digits(n)[0] == '0' ==> Digits(n) == "0"
  {
    var s := Digits(n);
    assert s[|s| - 1] == '0' + (n % 10) as char;
    if n >= 10 {
      assert s[..|s| - 1] == Digits(n / 10);
      DigitsReadBack(n / 10);
    } else {
      assert s[..|s| - 1] == [];
    }
  }

  lemma DigitsInjective(a: nat, b: nat)
    requires Digits(a) == Digits(b)
    ensures a == b
  {
    DigitsReadBack(a);
    DigitsReadBack(b);
  }

  lemma ItoaInjective(a: int, b: int)
    requires Itoa(a) == Itoa(b)
    ensures a == b
  {
    assert a < 0 ==> Itoa(a)[0] == '-' && '-' in Itoa(a);
    assert b < 0 ==> Itoa(b)[0] == '-' && '-' in Itoa(b);
    if a < 0 && b < 0 {
      assert Digits(-a) == Itoa(a)[1..] == Itoa(b)[1..] == Digits(-b);
      DigitsInjective(-a, -b);
    } else if a >= 0 && b >= 0 {
      DigitsInjective(a, b);
    }
  }

  /** The numbers, each followed by a bar, then the text. */
  function Fields(xs: seq<int>, text: string): string
  {
    if xs == [] then text else Itoa(xs[0]) + [BAR] + Fields(xs[1..], text)
  }

  function IntervalKey(cluster: string, shardIndex: int, scenarioId: int, timestamp: int, request: string): string
  {
    cluster + [BAR] + Fields([shardIndex, scenarioId, timestamp], request)
  }

  /** A bar-free head is determined by the whole. */
  lemma SplitAtBar(a: string, x: string, b: string, y: string)
    requires BAR !in a && BAR !in b && a + [BAR] + x == b + [BAR] + y
    ensures a == b && x == y
  {
    var s := a + [BAR] + x;
    assert s[|a|] == BAR;
    assert s[|b|] == BAR by { assert (b + [BAR] + y)[|b|] == BAR; }
    assert forall i :: 0 <= i < |a| ==> s[i] == a[i];
    assert forall i :: 0 <= i < |b| ==> s[i] == (b + [BAR] + y)[i] == b[i];
    assert |a| == |b|;
    assert a == s[..|a|] == b;
    assert x == s[|a| + 1..] && y == (b + [BAR] + y)[|b| + 1..];
  }

  lemma {:induction false} FieldsInjective(xs: seq<int>, t: string, ys: seq<int>, u: string)
    requires |xs| == |ys| && Fields(xs, t) == Fields(ys, u)
    ensures xs == ys && t == u
  {
    if xs != [] {
      SplitAtBar(Itoa(xs[0]), Fields(xs[1..], t), Itoa(ys[0]), Fields(ys[1..], u));
      ItoaInjective(xs[0], ys[0]);
      FieldsInjective(xs[1..], t, ys[1..], u);
      assert xs == [xs[0]] + xs[1..] && ys == [ys[0]] + ys[1..];
    }
  }

  /** Within one cluster the key is injective, whatever the cluster is called. */
  lemma InjectiveWithinCluster(c: string, s: int, n: int, t: int, r: string, s': int, n': int, t': int, r': string)
    requires IntervalKey(c, s, n, t, r) == IntervalKey(c, s', n', t', r')
    ensures s == s' && n == n' && t == t' && r == r'
  {
    var xs, ys := [s, n, t], [s', n', t'];
    assert Fields(xs, r) == IntervalKey(c, s, n, t, r)[|c| + 1..];
    assert Fields(ys, r') == IntervalKey(c, s', n', t', r')[|c| + 1..];
    FieldsInjective(xs, r, ys, r');
    assert xs[0] == ys[0] && xs[1] == ys[1] && xs[2] == ys[2];
  }

  /** `u` reads as the beginning of `k` numeric fields: numbers separated by bars, then anything. */
  ghost predicate ReadsAs(u: string, k: nat)
    decreases k
  {
    k == 0 || exists x: int :: ReadsFrom(u, x, k)
  }

  ghost predicate ReadsFrom(u: string, x: int, k: nat)
    requires k > 0
    decreases k, 0
  {
    || u == Itoa(x)
    || exists v: string :: u == Itoa(x) + [BAR] + v && ReadsAs(v, k - 1)
  }

  /** Numbered fields can begin with `u` and a bar only if `u` reads as numbers. */
  lemma {:induction false} BeginsOnlyIf(xs: seq<int>, t: string, u: string, rest: string)
    requires Fields(xs, t) == u + [BAR] + rest
    ensures ReadsAs(u, |xs|)
    decreases |xs|
  {
    if xs != [] {
      if BAR in u {
        var head, v := CutAtBar(u);
        JoinAssociates(head, v, rest);
        SplitAtBar(Itoa(xs[0]), Fields(xs[1..], t), head, v + [BAR] + rest);
        BeginsOnlyIf(xs[1..], t, v, rest);
        assert ReadsFrom(u, xs[0], |xs|);
      } else {
        SplitAtBar(Itoa(xs[0]), Fields(xs[1..], t), u, rest);
        assert ReadsFrom(u, xs[0], |xs|);
      }
    }
  }

  lemma JoinAssociates(a: string, b: string, c: string)
    ensures (a + [BAR] + b) + [BAR] + c == a + [BAR] + (b + [BAR] + c)
  {
  }

  lemma CutAtBar(u: string) returns (head: string, v: string)
    requires BAR in u
    ensures u == head + [BAR] + v && BAR !in head
  {
    FirstBar(u);
    var i :| 0 <= i < |u| && u[i] == BAR && BAR !in u[..i];
    head, v := u[..i], u[i + 1..];
  }

  lemma {:induction false} FirstBar(u: string)
    requires BAR in u
    ensures exists i :: 0 <= i < |u| && u[i] == BAR && BAR !in u[..i]
  {
    if u[0] == BAR {
      assert BAR !in u[..0];
    } else {
      FirstBar(u[1..]);
      var i :| 0 <= i < |u[1..]| && u[1..][i] == BAR && BAR !in u[1..][..i];
      assert u[..i + 1] == [u[0]] + u[1..][..i];
      assert u[i + 1] == BAR && BAR !in u[..i + 1];
    }
  }

  /** And if it does, some fields begin so, whatever fields are to follow. */
  lemma {:induction false} BeginsIf(u: string, k: nat, ys: seq<int>, t: string) returns (xs: seq<int>, text: string)
    requires ReadsAs(u, k) && k <= |ys|
    ensures |xs| == k && Fields(xs, text) == u + [BAR] + Fields(ys, t)
    decreases k
  {
    if k == 0 {
      return [], u + [BAR] + Fields(ys, t);
    }
    var x: int :| ReadsFrom(u, x, k);
    if u == Itoa(x) {
      xs, text := [x] + ys[..k - 1], Fields(ys[k - 1..], t);
      BeginsWithNumber(x, k, ys, t);
    } else {
      var v: string :| u == Itoa(x) + [BAR] + v && ReadsAs(v, k - 1);
      var rest;
      rest, text := BeginsIf(v, k - 1, ys, t);
      xs := [x] + rest;
      BeginsWithMore(x, rest, text, v, Fields(ys, t));
    }
  }

  lemma BeginsWithNumber(x: int, k: nat, ys: seq<int>, t: string)
    requires 0 < k <= |ys|
    ensures Fields([x] + ys[..k - 1], Fields(ys[k - 1..], t)) == Itoa(x) + [BAR] + Fields(ys, t)
  {
    FieldsCons(x, ys[..k - 1], Fields(ys[k - 1..], t));
    FieldsSplit(ys, k - 1, t);
  }

  lemma BeginsWithMore(x: int, rest: seq<int>, text: string, v: string, tail: string)
    requires Fields(rest, text) == v + [BAR] + tail
    ensures Fields([x] + rest, text) == (Itoa(x) + [BAR] + v) + [BAR] + tail
  {
    FieldsCons(x, rest, text);
    JoinAssociates(Itoa(x), v, tail);
  }

  lemma FieldsCons(x: int, xs: seq<int>, t: string)
    ensures Fields([x] + xs, t) == Itoa(x) + [BAR] + Fields(xs, t)
  {
    assert ([x] + xs)[1..] == xs;
  }

  lemma {:induction false} FieldsSplit(ys: seq<int>, k: nat, t: string)
    requires k <= |ys|
    ensures Fields(ys[..k], Fields(ys[k..], t)) == Fields(ys, t)
    decreases k
  {
    if k > 0 {
      FieldsSplit(ys[1..], k - 1, t);
      assert ys[..k][1..] == ys[1..][..k - 1];
      assert ys[1..][k - 1..] == ys[k..];
    } else {
      assert ys[k..] == ys;
    }
  }

  /** Two clusters can share a key. */
  ghost predicate Collide(c: string, d: string)
  {
    exists s, n, t, r, s', n', t', r' :: IntervalKey(c, s, n, t, r) == IntervalKey(d, s', n', t', r')
  }

  /** Exactly when: two differently named clusters can share a key if and only if
      the longer name is the shorter one, a bar, and text that reads as the
      beginning of the numeric fields. */
  lemma CollideIff(c: string, d: string)
    requires c != d && |c| <= |d|
    ensures Collide(c, d) <==> exists u :: d == c + [BAR] + u && ReadsAs(u, 3)
  {
    if Collide(c, d) {
      var s, n, t, r, s', n', t', r' :| IntervalKey(c, s, n, t, r) == IntervalKey(d, s', n', t', r');
      CollideOnlyIf(c, [s, n, t], r, d, [s', n', t'], r');
    }
    if u :| d == c + [BAR] + u && ReadsAs(u, 3) {
      CollideIfReads(c, u);
    }
  }

  lemma CollideIfReads(c: string, u: string)
    requires ReadsAs(u, 3)
    ensures Collide(c, c + [BAR] + u)
  {
    var ys := [0, 0, 0];
    var xs, text := BeginsIf(u, 3, ys, "");
    assert xs == [xs[0], xs[1], xs[2]];
    JoinAssociates(c, u, Fields(ys, ""));
    assert IntervalKey(c, xs[0], xs[1], xs[2], text) == IntervalKey(c + [BAR] + u, 0, 0, 0, "");
  }

  lemma CollideOnlyIf(c: string, xs: seq<int>, t: string, d: string, ys: seq<int>, u: string)
    requires c != d && |c| <= |d| && |xs| == 3 && c + [BAR] + Fields(xs, t) == d + [BAR] + Fields(ys, u)
    ensures exists v :: d == c + [BAR] + v && ReadsAs(v, 3)
  {
    var v := LongerHead(c, Fields(xs, t), d, Fields(ys, u));
    BeginsOnlyIf(xs, t, v, Fields(ys, u));
  }

  /** If two bar-joined texts are equal, the longer head extends the shorter one past its bar. */
  lemma LongerHead(c: string, x: string, d: string, y: string) returns (v: string)
    requires c != d && |c| <= |d| && c + [BAR] + x == d + [BAR] + y
    ensures d == c + [BAR] + v && x == v + [BAR] + y
  {
    var key := c + [BAR] + x;
    assert key == d + [BAR] + y;
    assert c == key[..|c|];
    assert d == key[..|d|];
    assert |c| < |d|;
    v := d[|c| + 1..];
    assert key[|c|] == BAR;
    assert d == c + [BAR] + v;
    JoinAssociates(c, v, y);
    assert x == key[|c| + 1..];
    assert v + [BAR] + y == (c + [BAR] + (v + [BAR] + y))[|c| + 1..];
  }

  /** So the key is injective over clusters whose names have no bar. */
  lemma InjectiveWithoutBars(c: string, s: int, n: int, t: int, r: string, d: string, s': int, n': int, t': int, r': string)
    requires BAR !in c && BAR !in d && IntervalKey(c, s, n, t, r) == IntervalKey(d, s', n', t', r')
    ensures c == d && s == s' && n == n' && t == t' && r == r'
  {
    SplitAtBar(c, Fields([s, n, t], r), d, Fields([s', n', t'], r'));
    InjectiveWithinCluster(c, s, n, t, r, s', n', t', r');
  }

  /** A registered cluster name may hold a bar; here two pods then share a key. */
  lemma BarredNamesCollide()
    ensures IntervalKey("eu", 1, 2, 3, "4|/login") == IntervalKey("eu|1", 2, 3, 4, "/login")
  {
    var tail := Fields([2, 3, 4], "/login");
    FieldsSplit([2, 3, 4], 2, "/login");
    assert [2, 3, 4][..2] == [2, 3] && [2, 3, 4][2..] == [4];
    assert Fields([4], "/login") == "4" + [BAR] + "/login" == "4|/login";
    assert [1, 2, 3][1..] == [2, 3];
    assert Fields([1, 2, 3], "4|/login") == "1" + [BAR] + tail;
    assert "eu" + [BAR] + "1" == "eu|1";
    JoinAssociates("eu", "1", tail);
  }
}
