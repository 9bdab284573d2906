/** Fetching a signed message from a list of hosts, round robin, with a retry limit. */
module Retry {
  import opened Options

  datatype Outcome = Fetched | Thrown

  /** The host asked at the `k`-th tick after `start` by a caller that has the counter to
      itself. */
  function HostAt(start: nat, k: nat, hosts: nat): nat
    requires hosts > 0
  {
    (start + k) % hosts
  }

  class HostRing {
    const hosts: nat
    /** The counter shared by all callers; -1 before the first call. */
    var current: int

    ghost predicate Valid()
      reads this
    {
      hosts > 0 && current >= -1
    }

    constructor (hosts: nat)
      requires hosts > 0
      ensures Valid() && this.hosts == hosts && current == -1
    {
      this.hosts := hosts;
      current := -1;
    }

    method NextHost() returns (h: nat)
      requires Valid()
      modifies this
      ensures Valid() && current == old(current) + 1 && h == current % hosts && h < hosts
    {
      current := current + 1;
      h := current % hosts;
    }

    /** Tries until an attempt succeeds or, with a limit, until the attempts exceed it.
        `succeeds(k)` says whether the k-th attempt of this call would. Without a limit the
        call ends only because some attempt succeeds. */
    method FetchWithRetry(succeeds: nat -> bool, retryAttempts: Option<nat>, ghost success: nat)
      returns (outcome: Outcome, asked: seq<nat>)
      requires Valid()
      requires retryAttempts.None? ==> succeeds(success)
      modifies this
      ensures Valid() && current == old(current) + |asked| && |asked| > 0
      ensures forall k :: 0 <= k < |asked| ==> asked[k] == HostAt(old(current) + 1, k, hosts)
      ensures forall k :: 0 <= k < |asked| - 1 ==> !succeeds(k)
      ensures outcome == Fetched <==> succeeds(|asked| - 1)
      ensures retryAttempts.Some? ==> |asked| <= retryAttempts.value + 1
      ensures outcome == Thrown ==> retryAttempts.Some? && |asked| == retryAttempts.value + 1
      ensures outcome == Thrown ==>
                ((forall h: nat :: h < hosts ==> h in asked) <==> retryAttempts.value + 1 >= hosts)
    {
      asked := [];
      var attempts := 0;
      while true
        invariant Valid() && attempts == |asked| && current == old(current) + attempts
        invariant forall k :: 0 <= k < |asked| ==> asked[k] == HostAt(old(current) + 1, k, hosts)
        invariant forall k :: 0 <= k < attempts ==> !succeeds(k)
        invariant retryAttempts.Some? ==> attempts <= retryAttempts.value
        decreases if retryAttempts.Some? then retryAttempts.value - attempts else success - attempts
      {
        attempts := attempts + 1;
        var host := NextHost();
        asked := asked + [host];
        if succeeds(attempts - 1) {
          return Fetched, asked;
        }
        if retryAttempts.Some? && attempts > retryAttempts.value {
          AskedAllIff(old(current) + 1, asked, hosts);
          return Thrown, asked;
        }
      }
    }
  }

  // ----- coverage -----

  lemma MultipleBound(d: int, b: nat)
    ensures d >= 1 ==> d * b >= b
    ensures d <= -1 ==> d * b <= -(b as int)
  {
  }

  lemma ModOf(q: int, b: nat, r: nat)
    requires r < b
    ensures (q * b + r) % b == r
  {
    var n := q * b + r;
    var q', r' := n / b, n % b;
    assert n == b * q' + r' && 0 <= r' < b;
    assert (q - q') * b == r' - r;
    MultipleBound(q - q', b);
  }

  /** Some attempt asks host `h`. */
  ghost predicate Asks(start: nat, m: nat, hosts: nat, h: nat)
    requires hosts > 0
  {
    exists k: nat :: k < m && HostAt(start, k, hosts) == h
  }

  /** `m` consecutive attempts ask every host exactly when there are at most `m` hosts. So a
      failing call with limit r has asked every host if and only if r + 1 is at least their
      number; r equal to the number of hosts is one more than needed. */
  lemma CoverageIff(start: nat, m: nat, hosts: nat)
    requires hosts > 0
    ensures (forall h: nat | h < hosts :: Asks(start, m, hosts, h)) <==> m >= hosts
  {
    if m >= hosts {
      forall h: nat | h < hosts ensures Asks(start, m, hosts, h) {
        FindAttempt(start, hosts, h);
        var s := start % hosts;
        assert HostAt(start, if h >= s then h - s else h + hosts - s, hosts) == h;
      }
    } else {
      NextIsNew(start, m, hosts);
      assert !Asks(start, m, hosts, HostAt(start, m, hosts));
    }
  }

  lemma AskedAllIff(start: nat, asked: seq<nat>, hosts: nat)
    requires hosts > 0 && forall k :: 0 <= k < |asked| ==> asked[k] == HostAt(start, k, hosts)
    ensures (forall h: nat :: h < hosts ==> h in asked) <==> |asked| >= hosts
  {
    CoverageIff(start, |asked|, hosts);
    forall h: nat | h < hosts ensures h in asked <==> Asks(start, |asked|, hosts, h) {
      if h in asked {
        var k: nat :| k < |asked| && asked[k] == h;
        assert HostAt(start, k, hosts) == h;
      }
    }
  }

  lemma FindAttempt(start: nat, hosts: nat, h: nat)
    requires h < hosts
    ensures var s := start % hosts; HostAt(start, if h >= s then h - s else h + hosts - s, hosts) == h
  {
    var q, s := start / hosts, start % hosts;
    assert start == hosts * q + s;
    if h >= s {
      ModOf(q, hosts, h);
    } else {
      ModOf(q + 1, hosts, h);
      assert (q + 1) * hosts + h == start + (h + hosts - s);
    }
  }

  lemma NextIsNew(start: nat, m: nat, hosts: nat)
    requires m < hosts
    ensures forall k: nat :: k < m ==> HostAt(start, k, hosts) != HostAt(start, m, hosts)
  {
    forall k: nat | k < m ensures HostAt(start, k, hosts) != HostAt(start, m, hosts) {
      var a, b := start + k, start + m;
      assert a == hosts * (a / hosts) + a % hosts && b == hosts * (b / hosts) + b % hosts;
      assert b - a == (b / hosts - a / hosts) * hosts + (b % hosts - a % hosts);
      MultipleBound(b / hosts - a / hosts, hosts);
    }
  }

  // ----- callers that share the counter -----

  /** No number above one divides both. */
  ghost predicate Coprime(a: nat, b: nat) {
    forall g: nat | g > 1 :: !(a % g == 0 && b % g == 0)
  }

  lemma SameResidue(x: int, y: int, n: nat, q: int)
    requires n > 0 && x == y + q * n
    ensures x % n == y % n
  {
    var p, r := y / n, y % n;
    assert y == p * n + r;
    assert x == (p + q) * n + r;
    ModOf(p + q, n, r);
  }

  /** A common divisor that is a combination of both numbers, with the two quotients. */
  lemma {:induction false} Bezout(a: nat, b: nat) returns (g: nat, u: int, v: int, i: nat, j: nat)
    requires a > 0
    ensures g > 0 && u * a + v * b == g && a == i * g && b == j * g
    decreases b
  {
    if b == 0 {
      g, u, v, i, j := a, 1, 0, 1, 0;
    } else {
      var q, r := a / b, a % b;
      assert a == q * b + r;
      QuotientNotNegative(a, b);
      var u', v', i', j';
      g, u', v', i', j' := Bezout(b, r);
      u, v, i, j := v', u' - v' * q, q * i' + j', i';
      assert u * a + v * b == v' * (q * b + r) + (u' - v' * q) * b == u' * b + v' * r by {
        Regroup(u', v', q, b, r);
      }
      assert i * g == q * (i' * g) + j' * g;
    }
  }

  lemma QuotientNotNegative(a: nat, b: nat)
    requires b > 0
    ensures a / b >= 0
  {
    var q := a / b;
    assert a == q * b + a % b;
    MultipleBound(q, b);
  }

  lemma Regroup(u: int, v: int, q: int, b: int, r: int)
    ensures v * (q * b + r) + (u - v * q) * b == u * b + v * r
  {
    assert v * (q * b + r) == v * q * b + v * r;
    assert (u - v * q) * b == u * b - v * q * b;
  }

  /** A caller that gets every `callers`-th tick asks host `h` among its first `m` attempts. */
  ghost predicate AsksInTurn(start: nat, callers: nat, m: nat, hosts: nat, h: nat)
    requires hosts > 0
  {
    exists k: nat :: k < m && HostAt(start, callers * k, hosts) == h
  }

  /** When several callers take turns at the shared counter, each covers all hosts, by
      retrying at least as often as there are hosts, if and only if the number of callers and
      the number of hosts have no common divisor. */
  lemma TakingTurnsCoversIff(start: nat, callers: nat, m: nat, hosts: nat)
    requires callers > 0 && hosts > 0 && m >= hosts
    ensures (forall h: nat | h < hosts :: AsksInTurn(start, callers, m, hosts, h)) <==> Coprime(callers, hosts)
  {
    if Coprime(callers, hosts) {
      forall h: nat | h < hosts ensures AsksInTurn(start, callers, m, hosts, h) {
        CoprimeReaches(start, callers, hosts, h);
      }
    } else {
      var g: nat :| g > 1 && callers % g == 0 && hosts % g == 0;
      var h := MissedHost(start, callers, hosts, g);
      assert !AsksInTurn(start, callers, m, hosts, h);
    }
  }

  lemma CoprimeReaches(start: nat, callers: nat, hosts: nat, h: nat)
    requires callers > 0 && h < hosts && Coprime(callers, hosts)
    ensures AsksInTurn(start, callers, hosts, hosts, h)
  {
    var g, u, v, i, j := Bezout(callers, hosts);
    ModOf(i, g, 0);
    ModOf(j, g, 0);
    assert g == 1;
    ReachesHost(start, callers, hosts, h, u, v);
  }

  lemma MissedHost(start: nat, callers: nat, hosts: nat, g: nat) returns (h: nat)
    requires hosts > 0 && g > 1 && callers % g == 0 && hosts % g == 0
    ensures h < hosts && forall k: nat :: HostAt(start, callers * k, hosts) != h
  {
    h := if start % g == 0 then 1 else 0;
    DivisorNotGreater(g, hosts);
    ModOf(0, g, h);
    forall k: nat ensures HostAt(start, callers * k, hosts) != h {
      ResidueStays(start, callers, k, hosts, g);
    }
  }

  lemma DivisorNotGreater(g: nat, n: nat)
    requires g > 0 && n > 0 && n % g == 0
    ensures g <= n
  {
  }

  lemma ReachesHost(start: nat, callers: nat, hosts: nat, h: nat, u: int, v: int)
    requires h < hosts && u * callers + v * hosts == 1
    ensures exists k: nat :: k < hosts && HostAt(start, callers * k, hosts) == h
  {
    var gap := h - start;
    var k := (u * gap) % hosts;
    var q := (u * gap) / hosts;
    assert u * gap == q * hosts + k;
    // callers * k is the gap, up to a multiple of the hosts
    var c := v * gap + callers * q;
    assert callers * k == gap - c * hosts by { Solve(callers, k, u, v, gap, q, hosts); }
    SameResidue(start + callers * k, h, hosts, -c);
    assert HostAt(start, callers * k, hosts) == h by { ModOf(0, hosts, h); }
  }

  lemma Solve(a: int, k: int, u: int, v: int, gap: int, q: int, n: int)
    requires u * gap == q * n + k && u * a + v * n == 1
    ensures a * k == gap - (v * gap + a * q) * n
  {
    assert a * k == a * (u * gap) - a * (q * n);
    assert a * (u * gap) == (u * a) * gap == gap - v * n * gap;
    assert (v * gap + a * q) * n == v * n * gap + a * (q * n);
  }

  /** Every tick of one caller keeps the residue modulo a common divisor. */
  lemma ResidueStays(start: nat, callers: nat, k: nat, hosts: nat, g: nat)
    requires g > 1 && hosts > 0 && callers % g == 0 && hosts % g == 0
    ensures HostAt(start, callers * k, hosts) % g == start % g
  {
    var x := start + callers * k;
    var h, q, i, j := x % hosts, x / hosts, callers / g, hosts / g;
    assert x == q * hosts + h && callers == i * g && hosts == j * g;
    assert h == start + (i * k - q * j) * g by {
      assert callers * k == i * k * g && q * hosts == q * j * g;
    }
    SameResidue(h, start, g, i * k - q * j);
  }

  /** So with two callers, each covers all hosts exactly when their number is odd. */
  lemma TwoCallersCoverIff(start: nat, m: nat, hosts: nat)
    requires hosts > 0 && m >= hosts
    ensures (forall h: nat | h < hosts :: AsksInTurn(start, 2, m, hosts, h)) <==> hosts % 2 == 1
  {
    TakingTurnsCoversIff(start, 2, m, hosts);
    forall g: nat | g > 1 && 2 % g == 0 ensures g == 2 {
      DivisorNotGreater(g, 2);
    }
    assert 2 % 2 == 0;
  }
}
