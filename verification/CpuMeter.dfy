/** CPU usage between two readings of the system's 64-bit time counters. */
module CpuMeter {
  import opened Wrappers
  import opened Arithmetic

  const WORD: nat := 0x1_0000_0000_0000_0000

  /** Unsigned 64-bit arithmetic wraps around. */
  function Word(n: int): (w: nat)
    ensures w < WORD
  {
    n % WORD
  }

  datatype Times = Times(idle: nat, kernel: nat, user: nat)

  predicate IsWords(t: Times) {
    t.idle < WORD && t.kernel < WORD && t.user < WORD
  }

  lemma ShareIs(n: nat, m: nat)
    requires m > 0
    ensures n / m >= 0 && n / m * m <= n < (n / m + 1) * m
  {
    var q := n / m;
    assert n == q * m + n % m;
  }

  function Share(n: nat, m: nat): (q: nat)
    requires m > 0
    ensures q * m <= n < (q + 1) * m
  {
    ShareIs(n, m);
    n / m
  }

  const INT_SPAN: int := 0x1_0000_0000

  /** The cast of a 64-bit result to a 32-bit int. */
  function Narrow(n: nat): (i: int)
    ensures -INT_SPAN / 2 <= i < INT_SPAN / 2
    ensures (n as int - i) % INT_SPAN == 0
    ensures n < INT_SPAN / 2 ==> i == n
  {
    if n % INT_SPAN < INT_SPAN / 2 then n % INT_SPAN else (n % INT_SPAN) as int - INT_SPAN
  }

  /** The quotient before it is cast; kernel time includes idle time. */
  function UsageOf(idle: nat, kernel: nat, user: nat): nat {
    var total := Word(kernel + user);
    if total == 0 then 0 else Share(Word(Word(total - idle) * 100), total)
  }

  function Usage(from: Times, to: Times): nat {
    UsageOf(Word(to.idle - from.idle), Word(to.kernel - from.kernel), Word(to.user - from.user))
  }

  class CpuMeter {
    var prev: Times
    var initialized: bool

    constructor ()
      ensures !initialized && prev == Times(0, 0, 0)
    {
      prev, initialized := Times(0, 0, 0), false;
    }

    /** None when the system call fails; the caller gets 0 then, and on the first reading. */
    method Query(reading: Option<Times>) returns (percent: int)
      requires reading.Some? ==> IsWords(reading.value)
      modifies this
      ensures reading.None? ==> percent == 0 && prev == old(prev) && initialized == old(initialized)
      ensures reading.Some? ==> prev == reading.value && initialized
      ensures reading.Some? ==> percent == if old(initialized) then Narrow(Usage(old(prev), reading.value)) else 0
    {
      if reading.None? {
        return 0;
      }
      var now := reading.value;
      if !initialized {
        prev, initialized := now, true;
        return 0;
      }
      percent := Percent(Word(now.idle - prev.idle), Word(now.kernel - prev.kernel), Word(now.user - prev.user));
      prev := now;
    }

    method Percent(deltaIdle: nat, deltaKernel: nat, deltaUser: nat) returns (percent: int)
      ensures percent == Narrow(UsageOf(deltaIdle, deltaKernel, deltaUser))
    {
      var totalSystem := Word(deltaKernel + deltaUser);
      if totalSystem == 0 {
        return 0;
      }
      var totalBusy := Word(totalSystem as int - deltaIdle);
      percent := Narrow(Share(Word(totalBusy * 100), totalSystem));
    }
  }

  /** The counters after some more time has passed. */
  function Later(t: Times, idle: nat, kernel: nat, user: nat): Times {
    Times(Word(t.idle + idle), Word(t.kernel + kernel), Word(t.user + user))
  }

  const SAFE: nat := 0x80_0000_0000_0000

  lemma WrapIsHarmless(x: nat, d: nat)
    requires x < WORD && d < WORD
    ensures Word(Word(x + d) - x) == d
  {}

  lemma ShareBound(n: nat, m: nat, q: nat)
    requires m > 0
    ensures Share(n, m) <= q <==> n < (q + 1) * m
  {
    var s := Share(n, m);
    if s <= q {
      MultiplesGrow(s + 1, q + 1, m);
    } else {
      MultiplesGrow(q + 1, s, m);
    }
  }

  lemma BusyTime(total: nat, idle: nat)
    requires total < 2 * SAFE && idle < SAFE
    ensures Word(Word(total - idle) * 100) ==
              if idle <= total then (total - idle) * 100 else WORD - (idle - total) * 100
  {
    if idle > total {
      assert Word(total - idle) == WORD - (idle - total);
      assert (WORD - (idle - total)) * 100 == 99 * WORD + (WORD - (idle - total) * 100);
    }
  }

  /** The quotient when more idle time was read than kernel and user time together. */
  function Overrun(idle: nat, total: nat): nat
    requires 0 < total < idle < SAFE
  {
    Share(WORD - (idle - total) * 100, total)
  }

  /**
   Between readings less than 2^55 ticks apart, counters that wrap around do no harm: as
   long as the idle time does not exceed kernel and user time, the int returned is the
   busy share in whole percent, rounded down. Beyond that the quotient exceeds 100, and
   what is returned is its low 32 bits, which are in 0..100 only by accident.
   */
  lemma UsageIsPercentageIff(t: Times, idle: nat, kernel: nat, user: nat)
    requires IsWords(t) && idle < SAFE && kernel < SAFE && user < SAFE && kernel + user > 0
    ensures var p, total := Narrow(Usage(t, Later(t, idle, kernel, user))), kernel + user;
            && (idle <= total ==> p == Share((total - idle) * 100, total) && 0 <= p <= 100)
            && (idle > total ==> Overrun(idle, total) > 100 && p == Narrow(Overrun(idle, total)))
            && (0 <= p <= 100 <==> idle <= total || Overrun(idle, total) % INT_SPAN <= 100)
  {
    UsageIs(t, idle, kernel, user);
    UsageOfIs(idle, kernel, user);
    var total := kernel + user;
    if idle > total {
      NarrowInRange(Overrun(idle, total), 100);
    }
  }

  /** Without kernel and user time between the readings the usage is 0, whatever the idle time. */
  lemma NoTimeNoUsage(t: Times, idle: nat)
    requires IsWords(t) && idle < WORD
    ensures Narrow(Usage(t, Later(t, idle, 0, 0))) == 0
  {
    UsageIs(t, idle, 0, 0);
  }

  lemma NarrowInRange(n: nat, m: nat)
    requires m < INT_SPAN / 2
    ensures 0 <= Narrow(n) <= m <==> n % INT_SPAN <= m
  {}

  lemma UsageOfIs(idle: nat, kernel: nat, user: nat)
    requires idle < SAFE && kernel < SAFE && user < SAFE && kernel + user > 0
    ensures var u, total := UsageOf(idle, kernel, user), kernel + user;
            if idle <= total then u == Share((total - idle) * 100, total) && u <= 100
            else u == Overrun(idle, total) && u > 100
  {
    var total := kernel + user;
    assert Word(total) == total;
    var busy := Word(Word(total - idle) * 100);
    BusyTime(total, idle);
    ShareBound(busy, total, 100);
    assert UsageOf(idle, kernel, user) == Share(busy, total);
  }

  /**
   Once more than 2^33 ticks have passed, the cast changes nothing that matters:
   the int returned exceeds 100 exactly when too much idle time was read.
   */
  lemma LongReadingsAreNotNarrowed(t: Times, idle: nat, kernel: nat, user: nat)
    requires IsWords(t) && idle < SAFE && kernel < SAFE && user < SAFE && kernel + user > 0x2_0000_0000
    ensures Narrow(Usage(t, Later(t, idle, kernel, user))) > 100 <==> idle > kernel + user
  {
    UsageIsPercentageIff(t, idle, kernel, user);
    var total := kernel + user;
    if idle > total {
      OverrunIsSmall(idle, total);
    }
  }

  lemma OverrunIsSmall(idle: nat, total: nat)
    requires 0x2_0000_0000 < total < idle < SAFE
    ensures Overrun(idle, total) < INT_SPAN / 2
  {
    ShareBound(WORD - (idle - total) * 100, total, 0x7FFF_FFFF);
  }

  lemma ShareOf(n: nat, m: nat, q: nat)
    requires m > 0 && q * m <= n < (q + 1) * m
    ensures Share(n, m) == q
  {
    ShareBound(n, m, q);
    if q > 0 {
      ShareBound(n, m, q - 1);
    }
  }

  lemma OneTickTooMany(t: Times, total: nat, q: nat)
    requires IsWords(t) && 0 < total < SAFE - 1 && q * total <= WORD - 100 < (q + 1) * total
    ensures Narrow(Usage(t, Later(t, total + 1, 0, total))) == Narrow(q)
  {
    UsageIsPercentageIff(t, total + 1, 0, total);
    ShareOf(WORD - 100, total, q);
  }

  /**
   In shorter readings one idle tick too many is enough for any of the three outcomes:
   a negative int, low load to any controller whose threshold is not negative, an
   accidental 59 percent, or more than 100.
   */
  lemma OverrunExamples(t: Times)
    requires IsWords(t)
    ensures Narrow(Usage(t, Later(t, 400000001, 0, 400000000))) == -1127780072
    ensures Narrow(Usage(t, Later(t, 429496730, 0, 429496729))) == 59
    ensures Narrow(Usage(t, Later(t, 10000000001, 0, 10000000000))) == 1844674407
  {
    OneTickTooMany(t, 400000000, 46116860184);
    OneTickTooMany(t, 429496729, 42949673019);
    OneTickTooMany(t, 10000000000, 1844674407);
  }

  lemma UsageIs(t: Times, idle: nat, kernel: nat, user: nat)
    requires IsWords(t) && idle < WORD && kernel < WORD && user < WORD
    ensures Usage(t, Later(t, idle, kernel, user)) == UsageOf(idle, kernel, user)
  {
    var later := Later(t, idle, kernel, user);
    assert Word(later.idle - t.idle) == idle by { WrapIsHarmless(t.idle, idle); }
    assert Word(later.kernel - t.kernel) == kernel by { WrapIsHarmless(t.kernel, kernel); }
    assert Word(later.user - t.user) == user by { WrapIsHarmless(t.user, user); }
  }
}
