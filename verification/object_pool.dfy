/** `PooledMessage`: a payload slice that keeps its backing array across uses. */
module ObjectPool {
  import opened Wrappers

  const INITIAL_CAP: nat := 1024

  class PooledMessage {
    var topic: string
    var data: array<byte>  // the backing array of Payload; cap(m.Payload) is its length
    var len: nat           // len(m.Payload)
    var qos: byte
    var retained: bool
    var timestamp: int

    ghost predicate Valid()
      reads this
    {
      len <= data.Length
    }

    /** The bytes of `m.Payload`. */
    ghost function Contents(): seq<byte>
      reads this, data
      requires Valid()
    {
      data[..len]
    }

    /** As `Reset` leaves it: nothing of an earlier use shows. */
    ghost predicate Blank()
      reads this, data
    {
      Valid() && Contents() == [] && topic == "" && qos == 0 && !retained && timestamp == 0
    }

    /** The pool's `New`. */
    constructor ()
      ensures Valid() && Contents() == [] && data.Length == INITIAL_CAP && fresh(data)
      ensures topic == "" && qos == 0 && !retained && timestamp == 0
    {
      topic, len, qos, retained, timestamp := "", 0, 0, false, 0;
      data := new byte[INITIAL_CAP];
    }

    method Reset()
      requires Valid()
      modifies this
      ensures Valid() && Contents() == [] && data == old(data)
      ensures topic == "" && qos == 0 && !retained && timestamp == 0
    {
      topic := "";
      len := 0;
      qos := 0;
      retained := false;
      timestamp := 0;
    }

    /** Keeps the backing array when it is large enough, else makes a larger one. */
    method SetPayload(payload: seq<byte>)
      requires Valid()
      modifies this`data, this`len, data
      ensures Valid() && Contents() == payload
      ensures data.Length == NextCap(old(data.Length), |payload|)
      ensures var was := old(data.Length);
              data.Length == if was >= |payload| then was
                             else if was > 0 && was * 3 / 2 > |payload| then was * 3 / 2
                             else |payload|
      ensures if old(data.Length) >= |payload| then data == old(data) else fresh(data)
    {
      if data.Length >= |payload| {
        len := |payload|;
      } else {
        var newCap := |payload|;
        var oldCap := data.Length;
        if oldCap > 0 {
          newCap := if |payload| > oldCap * 3 / 2 then |payload| else oldCap * 3 / 2;
        }
        data := new byte[newCap];
        len := |payload|;
      }
      forall i | 0 <= i < |payload| {
        data[i] := payload[i];
      }
    }
  }

  function Max(a: nat, b: nat): nat {
    if a > b then a else b
  }

  /** The capacity after storing `n` bytes in a message of capacity `cap`. */
  function NextCap(cap: nat, n: nat): nat {
    if cap >= n then cap
    else if cap > 0 then Max(n, cap * 3 / 2)
    else n
  }

  // ---- Growth over a whole life of one message ----

  datatype Use = Store(payload: seq<byte>) | Clear

  /** Capacity, content and number of reallocations so far. */
  datatype Life = Life(cap: nat, content: seq<byte>, reallocs: nat)

  function Live(l: Life, u: Use): Life {
    match u
    case Clear => l.(content := [])
    case Store(p) => Life(NextCap(l.cap, |p|), p, if l.cap >= |p| then l.reallocs else l.reallocs + 1)
  }

  function LiveAll(us: seq<Use>): Life {
    if us == [] then Life(INITIAL_CAP, [], 0)
    else Live(LiveAll(us[..|us| - 1]), us[|us| - 1])
  }

  function Pow(b: nat, n: nat): nat {
    if n == 0 then 1 else b * Pow(b, n - 1)
  }

  ghost predicate AtMost(us: seq<Use>, m: nat) {
    forall i :: 0 <= i < |us| && us[i].Store? ==> |us[i].payload| <= m
  }

  /** What `k` reallocations prove about the capacity and about the largest payload. */
  ghost predicate Grown(l: Life, m: nat) {
    var k := l.reallocs;
    && INITIAL_CAP <= l.cap <= Max(INITIAL_CAP, 3 * m / 2)
    && 1023 * Pow(3, k) <= (l.cap - 1) * Pow(2, k)
    && 1024 * Pow(4, k) <= l.cap * Pow(3, k)
    && (k >= 1 ==> 1023 * Pow(3, k - 1) <= (m - 2) * Pow(2, k - 1))
    && (k >= 1 ==> 1024 * Pow(4, k - 1) < m * Pow(3, k - 1))
  }

  lemma MulLe(a: int, b: int, c: nat)
    requires a <= b
    ensures a * c <= b * c
  {
  }

  lemma MulLt(a: int, b: int, c: nat)
    requires a < b && c >= 1
    ensures a * c < b * c
  {
  }

  lemma {:induction false} PowPositive(b: nat, n: nat)
    requires b >= 1
    ensures Pow(b, n) >= 1
  {
    if n > 0 {
      PowPositive(b, n - 1);
      MulLe(1, Pow(b, n - 1), b);
    }
  }

  lemma Regrow(c: int, d: int, a: nat, b: nat, p: nat, q: nat, base: nat)
    requires a * c <= b * d && base * p <= c * q
    ensures base * (a * p) <= d * (b * q)
  {
    MulLe(base * p, c * q, a);
    MulLe(a * c, b * d, q);
    assert base * (a * p) == base * p * a && c * q * a == a * c * q && d * (b * q) == b * d * q;
  }

  /** One reallocation multiplies the capacity by almost 3/2. */
  lemma ReallocGrows(cap: nat, cap': nat, k: nat)
    requires cap >= 3 && cap' >= cap * 3 / 2
    requires 1023 * Pow(3, k) <= (cap - 1) * Pow(2, k)
    requires 1024 * Pow(4, k) <= cap * Pow(3, k)
    ensures 1023 * Pow(3, k + 1) <= (cap' - 1) * Pow(2, k + 1)
    ensures 1024 * Pow(4, k + 1) <= cap' * Pow(3, k + 1)
  {
    Regrow(cap - 1, cap' - 1, 3, 2, Pow(3, k), Pow(2, k), 1023);
    Regrow(cap, cap', 4, 3, Pow(4, k), Pow(3, k), 1024);
  }

  lemma StoreGrows(l: Life, p: seq<byte>, m: nat)
    requires Grown(l, m) && |p| <= m && l.cap < |p|
    ensures Grown(Live(l, Store(p)), m)
  {
    var k := l.reallocs;
    ReallocGrows(l.cap, NextCap(l.cap, |p|), k);
    MulLe(l.cap - 1, m - 2, Pow(2, k));
    PowPositive(3, k);
    MulLt(l.cap, m, Pow(3, k));
  }

  /** Over any run with payloads of at most `m` bytes: the content is the last one
      stored, the capacity stays at most max(1024, 3m/2), and `k` reallocations need
      1023 * (3/2)^(k-1) <= m - 2, hence also 1024 * (4/3)^(k-1) < m. */
  lemma {:induction false} GrowthBound(us: seq<Use>, m: nat)
    requires AtMost(us, m)
    ensures Grown(LiveAll(us), m)
  {
    if us != [] {
      var init, last := us[..|us| - 1], us[|us| - 1];
      GrowthBound(init, m);
      if last.Store? && LiveAll(init).cap < |last.payload| {
        StoreGrows(LiveAll(init), last.payload, m);
      }
    } else {
      assert Pow(3, 0) == 1 && Pow(2, 0) == 1 && Pow(4, 0) == 1;
    }
  }

  lemma {:induction false} CapNeverShrinks(us: seq<Use>, n: nat)
    requires n <= |us|
    ensures LiveAll(us[..n]).cap <= LiveAll(us).cap
    ensures LiveAll(us[..n]).reallocs <= LiveAll(us).reallocs
  {
    if n == |us| {
      assert us[..n] == us;
    } else {
      var init := us[..|us| - 1];
      assert init[..n] == us[..n];
      CapNeverShrinks(init, n);
    }
  }

  /** A pooled message used over and over lives through exactly that life. */
  method UseAll(msg: PooledMessage, us: seq<Use>)
    requires msg.Valid() && msg.Contents() == [] && msg.data.Length == INITIAL_CAP
    modifies msg, msg.data
    ensures msg.Valid() && msg.Contents() == LiveAll(us).content && msg.data.Length == LiveAll(us).cap
    ensures LiveAll(us).reallocs == 0 ==> msg.data == old(msg.data)
    ensures LiveAll(us).reallocs > 0 ==> fresh(msg.data)
  {
    for i := 0 to |us|
      invariant msg.Valid() && msg.Contents() == LiveAll(us[..i]).content
      invariant msg.data.Length == LiveAll(us[..i]).cap
      invariant if LiveAll(us[..i]).reallocs == 0 then msg.data == old(msg.data) else fresh(msg.data)
    {
      assert us[..i + 1][..i] == us[..i];
      match us[i]
      case Store(p) => msg.SetPayload(p);
      case Clear => msg.Reset();
    }
    assert us[..|us|] == us;
  }
}
