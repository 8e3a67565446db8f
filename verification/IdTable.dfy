/** The wrapping id allocator and the table of live services (tcpusb/rolling_counter.go, tcpusb/service_map.go). */
module IdTable {
  import opened Bytes
  import opened Wrappers

  const UINT32_MAX: u32 := 0xffff_ffff

  /** The k-th draw from a counter with the given bound; the zeroth is the initial value, which is never drawn. */
  function DrawOf(max: u32, k: nat): (id: u32)
    ensures id >= 1
    ensures max >= 1 ==> id <= max
  {
    if max == 0 then 1 else k % max + 1
  }

  lemma ModSucc(k: nat, m: nat)
    requires m >= 1
    ensures (k + 1) % m == if k % m == m - 1 then 0 else k % m + 1
  {
    var q, r := k / m, k % m;
    assert k == q * m + r;
    if r == m - 1 {
      assert k + 1 == (q + 1) * m;
      MultipleMod(q + 1, 0, m);
    } else {
      MultipleMod(q, r + 1, m);
    }
  }

  lemma MultipleMod(q: int, r: nat, m: nat)
    requires r < m
    ensures (q * m + r) % m == r
  {
    var x := q * m + r;
    var d := x / m - q;
    assert x == m * (x / m) + x % m;
    assert m * d == r - x % m;
    assert 0 - m < m * d < m;
  }

  /** Two equal draws are a whole turn apart: any `max` consecutive draws are distinct. */
  lemma DrawsDistinct(max: u32, j: nat, k: nat)
    requires max >= 1 && j < k && DrawOf(max, j) == DrawOf(max, k)
    ensures k - j >= max
  {
    SameRemainder(j, k, max);
  }

  lemma SameRemainder(j: nat, k: nat, m: nat)
    requires m >= 1 && j < k && j % m == k % m
    ensures k - j >= m
  {
    var qj, qk, r := j / m, k / m, j % m;
    assert j == m * qj + r && k == m * qk + r;
    if qk <= qj {
      MulMonotone(m, qk, qj);
    } else {
      MulMonotone(m, qj + 1, qk);
      assert m * (qj + 1) == m * qj + m;
    }
  }

  lemma MulMonotone(m: nat, a: int, b: int)
    requires a <= b
    ensures m * a <= m * b
  {
    assert m * (b - a) >= 0;
  }

  class RollingCounter {
    const max: u32
    const min: u32
    var now: u32
    ghost var draws: nat

    ghost predicate Valid()
      reads this
    {
      min == 1 && now == DrawOf(max, draws)
    }

    constructor (max: u32)
      ensures Valid() && this.max == max && draws == 0
    {
      this.max := max;
      min := 1;
      now := 1;
      draws := 0;
      new;
      assert max >= 1 ==> 0 % max == 0;
    }

    method Next() returns (id: u32)
      requires Valid()
      modifies this
      ensures Valid() && draws == old(draws) + 1 && id == DrawOf(max, draws)
    {
      if max >= 1 {
        ModSucc(draws, max);
      }
      if now >= max {
        now := min;
      } else {
        now := now + 1;
      }
      draws := draws + 1;
      return now;
    }
  }

  /** The table; whatever the order of the calls, `count` is its number of entries. */
  class ServiceMap<V> {
    var services: map<u32, V>
    var count: int

    ghost predicate Valid()
      reads this
    {
      count == |services|
    }

    constructor ()
      ensures Valid() && services == map[]
    {
      services := map[];
      count := 0;
    }

    /** False is ErrServiceExists. */
    method Insert(localID: u32, service: V) returns (ok: bool)
      requires Valid()
      modifies this
      ensures Valid() && ok == (localID !in old(services))
      ensures services == if ok then old(services)[localID := service] else old(services)
    {
      if localID in services {
        return false;
      }
      services := services[localID := service];
      count := count + 1;
      return true;
    }

    method Get(localID: u32) returns (service: Option<V>)
      ensures service == if localID in services then Some(services[localID]) else None
    {
      if localID in services {
        return Some(services[localID]);
      }
      return None;
    }

    method Remove(localID: u32) returns (service: Option<V>)
      requires Valid()
      modifies this
      ensures Valid() && services == old(services) - {localID}
      ensures service == if localID in old(services) then Some(old(services)[localID]) else None
    {
      if localID in services {
        service := Some(services[localID]);
        ghost var before := services;
        services := services - {localID};
        count := count - 1;
        assert services.Keys == before.Keys - {localID};
        assert |services| == |services.Keys| && |before| == |before.Keys|;
      } else {
        service := None;
        assert services == services - {localID};
      }
    }

    method Count() returns (n: int)
      requires Valid()
      ensures n == |services|
    {
      return count;
    }

    /** Ends each entry once, in some order, and empties the table. */
    method End() returns (ended: seq<u32>)
      requires Valid()
      modifies this
      ensures Valid() && services == map[]
      ensures forall id :: id in ended <==> id in old(services)
      ensures forall i, j :: 0 <= i < j < |ended| ==> ended[i] != ended[j]
    {
      ended := [];
      var left := services.Keys;
      while left != {}
        invariant left <= services.Keys
        invariant forall id :: id in ended <==> id in services && id !in left
        invariant forall i, j :: 0 <= i < j < |ended| ==> ended[i] != ended[j]
        decreases |left|
      {
        var id :| id in left;
        assert id !in ended;
        left := left - {id};
        ended := ended + [id];
      }
      services := map[];
      count := 0;
    }
  }
}
