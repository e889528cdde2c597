/** How long a disconnected socket rests before it is used again: 32-bit tick arithmetic
    and the delay that grows when an address turns out to be still in use. */
module TimeWait {
  import opened SocketTypes

  const DEFAULT_TIME_WAIT_VALUE := 120000
  const MIN_TIME_WAIT_VALUE := 30000
  const MAX_TIME_WAIT_VALUE := 300000

  // ---------- ticks ----------

  /** The tick count at a true time in milliseconds. */
  function Tick(time: nat): nat { time % TWO_TO_THE_32 }

  /** Unsigned 32-bit subtraction. */
  function TickDifference(now: nat, start: nat): nat { (now - start) % TWO_TO_THE_32 }

  predicate Aged(now: nat, start: nat, timeWait: nat) { TickDifference(now, start) > timeWait }

  lemma {:induction false} TickDifferenceIsElapsed(now: nat, start: nat)
    requires start <= now
    ensures TickDifference(Tick(now), Tick(start)) == (now - start) % TWO_TO_THE_32
  {
    assert now == TWO_TO_THE_32 * (now / TWO_TO_THE_32) + Tick(now);
    assert start == TWO_TO_THE_32 * (start / TWO_TO_THE_32) + Tick(start);
  }

  /** The true time of `k` whole turns of the tick counter. */
  function Turns(k: nat): nat { k * TWO_TO_THE_32 }

  /** The age is at least one whole turn, and within the delay after a whole number of turns. */
  ghost predicate Hidden(age: nat, timeWait: nat) {
    exists k: nat :: k >= 1 && Turns(k) <= age <= Turns(k) + timeWait
  }

  /** However long a socket has rested, the test never passes before its time; it is wrong precisely
      when the socket has rested for some whole turns of the counter and at most the delay more. */
  lemma {:induction false} AgedIff(now: nat, start: nat, timeWait: nat)
    requires start <= now && timeWait < TWO_TO_THE_32
    ensures Aged(Tick(now), Tick(start), timeWait) ==> now - start > timeWait
    ensures (Aged(Tick(now), Tick(start), timeWait) <==> now - start > timeWait) <==> !Hidden(now - start, timeWait)
    ensures now - start < TWO_TO_THE_32 ==> (Aged(Tick(now), Tick(start), timeWait) <==> now - start > timeWait)
  {
    var age := now - start;
    var q, r := age / TWO_TO_THE_32, age % TWO_TO_THE_32;
    TickDifferenceIsElapsed(now, start);
    assert age == Turns(q) + r;
    if Hidden(age, timeWait) {
      var k :| k >= 1 && Turns(k) <= age <= Turns(k) + timeWait;
      SameTurn(age, k, q, r);
    }
  }

  lemma {:induction false} SameTurn(age: nat, k: nat, q: nat, r: nat)
    requires age == Turns(q) + r && r < TWO_TO_THE_32 && Turns(k) <= age < Turns(k) + TWO_TO_THE_32
    ensures k == q
  {
  }

  /** After a whole turn of the tick counter a rested socket looks fresh again. */
  lemma {:induction false} WrapHidesAge()
    ensures Hidden(TWO_TO_THE_32, MAX_TIME_WAIT_VALUE)
    ensures !Aged(Tick(1000 + TWO_TO_THE_32), Tick(1000), MAX_TIME_WAIT_VALUE)
  {
    assert Turns(1) == TWO_TO_THE_32;
    AgedIff(1000 + TWO_TO_THE_32, 1000, MAX_TIME_WAIT_VALUE);
  }

  // ---------- the delay ----------

  /** What the registry answers when the delay is first read. */
  datatype Registry = Found(value: nat) | NotFound | Unreadable

  function InitialTimeWait(answer: Registry): (v: nat)
    ensures MIN_TIME_WAIT_VALUE <= v <= MAX_TIME_WAIT_VALUE
    ensures answer.Found? && MIN_TIME_WAIT_VALUE <= answer.value <= MAX_TIME_WAIT_VALUE ==> v == answer.value
    ensures answer.Found? ==> (v == 30000 <==> answer.value <= 30000) && (v == 300000 <==> answer.value >= 300000)
    ensures answer.NotFound? ==> v == 120000
    ensures answer.Unreadable? ==> v == 300000
  {
    match answer
    case Found(v) =>
      if v < MIN_TIME_WAIT_VALUE then MIN_TIME_WAIT_VALUE
      else if v > MAX_TIME_WAIT_VALUE then MAX_TIME_WAIT_VALUE
      else v
    case NotFound => DEFAULT_TIME_WAIT_VALUE
    case Unreadable => MAX_TIME_WAIT_VALUE
  }

  /** One address-in-use error, in 32 bits. */
  function Doubled(timeWait: nat): nat {
    var v := (timeWait * 2) % TWO_TO_THE_32;
    if v > MAX_TIME_WAIT_VALUE then MAX_TIME_WAIT_VALUE else v
  }

  function After(timeWait: nat, errors: nat): nat {
    if errors == 0 then timeWait else Doubled(After(timeWait, errors - 1))
  }

  /** v times 2 to the n. */
  function Scaled(v: nat, n: nat): nat { if n == 0 then v else 2 * Scaled(v, n - 1) }

  function Capped(v: nat): nat { if v > MAX_TIME_WAIT_VALUE then MAX_TIME_WAIT_VALUE else v }

  /** Doubling within the range never wraps. */
  lemma {:induction false} DoubledCapped(v: nat)
    ensures Doubled(Capped(v)) == Capped(2 * v)
    ensures Capped(v) <= Capped(2 * v) <= MAX_TIME_WAIT_VALUE
  {
    assert Capped(v) * 2 < TWO_TO_THE_32;
  }

  /** After n errors the delay is the starting value doubled n times, capped; it never wraps. */
  lemma {:induction false} DelayAfterErrors(v: nat, n: nat)
    requires MIN_TIME_WAIT_VALUE <= v <= MAX_TIME_WAIT_VALUE
    ensures After(v, n) == Capped(Scaled(v, n))
    ensures v <= After(v, n) <= MAX_TIME_WAIT_VALUE
    ensures n > 0 ==> After(v, n - 1) <= After(v, n)
  {
    if n > 0 {
      DelayAfterErrors(v, n - 1);
      DoubledCapped(Scaled(v, n - 1));
      hide Doubled, Capped;
    }
  }

  /** v times 2 to the n, for small n. */
  lemma {:induction false} ScaledSmall(v: nat)
    ensures Scaled(v, 3) == 8 * v && Scaled(v, 4) == 16 * v
  {
    assert Scaled(v, 4) == 2 * Scaled(v, 3) == 4 * Scaled(v, 2) == 8 * Scaled(v, 1) == 16 * v;
  }

  /** From any registry answer the delay is at its maximum after four errors and stays there;
      three do not suffice from the smallest value. */
  lemma {:induction false} FourErrorsSuffice(answer: Registry, n: nat)
    requires n >= 4
    ensures After(InitialTimeWait(answer), n) == MAX_TIME_WAIT_VALUE
    ensures After(InitialTimeWait(Found(0)), 3) == 240000
    decreases n
  {
    hide After, Scaled, Doubled;
    var v, m := InitialTimeWait(answer), InitialTimeWait(Found(0));
    if n > 4 {
      FourErrorsSuffice(answer, n - 1);
      StaysAtMaximum(v, n);
    } else {
      ScaledSmall(v);
      DelayAfterErrors(v, 4);
    }
    ScaledSmall(m);
    DelayAfterErrors(m, 3);
  }

  lemma {:induction false} StaysAtMaximum(v: nat, n: nat)
    requires n > 0 && After(v, n - 1) == MAX_TIME_WAIT_VALUE
    ensures After(v, n) == MAX_TIME_WAIT_VALUE
  {
  }

  // ---------- occupancy of the reuse queue ----------

  /** The reuse queue at lock grain: its length, and the disconnects that were admitted by
      the capacity test and have neither been queued nor failed. */
  datatype Occupancy = Occupancy(length: nat, pending: nat)

  datatype QueueStep = Admit | Push | Abort | Pop

  predicate CanStep(o: Occupancy, s: QueueStep) {
    match s
    case Admit => o.length < MAX_UNUSED_SOCKET
    case Push => o.pending > 0
    case Abort => o.pending > 0
    case Pop => o.length > 0
  }

  function QueueAfter(o: Occupancy, s: QueueStep): Occupancy
    requires CanStep(o, s)
  {
    match s
    case Admit => o.(pending := o.pending + 1)
    case Push => Occupancy(o.length + 1, o.pending - 1)
    case Abort => o.(pending := o.pending - 1)
    case Pop => o.(length := o.length - 1)
  }

  /** The run is possible and never has more than `p` disconnects pending. */
  predicate QueueRun(o: Occupancy, steps: seq<QueueStep>, p: nat)
    decreases |steps|
  {
    o.pending <= p &&
    (steps == [] || (CanStep(o, steps[0]) && QueueRun(QueueAfter(o, steps[0]), steps[1..], p)))
  }

  function QueueEnd(o: Occupancy, steps: seq<QueueStep>, p: nat): Occupancy
    requires QueueRun(o, steps, p)
    decreases |steps|
  {
    if steps == [] then o else QueueEnd(QueueAfter(o, steps[0]), steps[1..], p)
  }

  /** The capacity test comes before the push: with at most p disconnects pending at once the
      queue and what is on its way to it never exceed 29 + p. */
  lemma {:induction false} OccupancyBound(o: Occupancy, steps: seq<QueueStep>, p: nat)
    requires QueueRun(o, steps, p)
    requires o.length + o.pending <= MAX_UNUSED_SOCKET - 1 + p
    ensures var e := QueueEnd(o, steps, p); e.length + e.pending <= MAX_UNUSED_SOCKET - 1 + p
    decreases |steps|
  {
    if steps != [] {
      OccupancyBound(QueueAfter(o, steps[0]), steps[1..], p);
    }
  }

  lemma {:induction false} QueueJoin(o: Occupancy, a: seq<QueueStep>, b: seq<QueueStep>, p: nat)
    requires QueueRun(o, a, p) && QueueRun(QueueEnd(o, a, p), b, p)
    ensures QueueRun(o, a + b, p) && QueueEnd(o, a + b, p) == QueueEnd(QueueEnd(o, a, p), b, p)
    decreases |a|
  {
    if a == [] {
      assert a + b == b;
    } else {
      QueueJoin(QueueAfter(o, a[0]), a[1..], b, p);
      assert (a + b)[0] == a[0] && (a + b)[1..] == a[1..] + b;
    }
  }

  /** n disconnects admitted one after the other. */
  lemma {:induction false} AdmitMany(o: Occupancy, n: nat, p: nat)
    requires o.length < MAX_UNUSED_SOCKET && o.pending + n <= p
    ensures QueueRun(o, seq(n, _ => Admit), p)
    ensures QueueEnd(o, seq(n, _ => Admit), p) == o.(pending := o.pending + n)
    decreases n
  {
    if n > 0 {
      AdmitMany(QueueAfter(o, Admit), n - 1, p);
      assert seq(n, _ => Admit)[1..] == seq(n - 1, _ => Admit);
    }
  }

  /** Filling the queue one admitted disconnect at a time. */
  lemma {:induction false} FillTo(n: nat, p: nat) returns (steps: seq<QueueStep>)
    requires n <= MAX_UNUSED_SOCKET - 1 && p >= 1
    ensures QueueRun(Occupancy(0, 0), steps, p) && QueueEnd(Occupancy(0, 0), steps, p) == Occupancy(n, 0)
  {
    if n == 0 {
      steps := [];
    } else {
      steps := FillTo(n - 1, p);
      QueueJoin(Occupancy(0, 0), steps, [Admit, Push], p) by {
        assert QueueRun(Occupancy(n - 1, 1), [Push], p) by {
          assert QueueRun(Occupancy(n, 0), [], p);
          assert [Push][1..] == [];
        }
        assert [Admit, Push][1..] == [Push];
        assert QueueEnd(Occupancy(n - 1, 1), [Push], p) == Occupancy(n, 0) by { assert [Push][1..] == []; }
      }
      steps := steps + [Admit, Push];
    }
  }

  /** The bound is met: for every p some run reaches 29 + p. */
  lemma {:induction false} OccupancyBoundIsTight(p: nat) returns (steps: seq<QueueStep>)
    requires p >= 1
    ensures QueueRun(Occupancy(0, 0), steps, p)
    ensures QueueEnd(Occupancy(0, 0), steps, p) == Occupancy(MAX_UNUSED_SOCKET - 1, p)
  {
    steps := FillTo(MAX_UNUSED_SOCKET - 1, p);
    AdmitMany(Occupancy(MAX_UNUSED_SOCKET - 1, 0), p, p);
    QueueJoin(Occupancy(0, 0), steps, seq(p, _ => Admit), p);
    steps := steps + seq(p, _ => Admit);
  }
}
