/** The millisecond clock (TimerService): a 32-bit counter of ticks of unbounded true time. */
module Timer {
  import opened Words

  /** What `now - since` yields in uint32_t arithmetic. */
  function Elapsed(now: u32, since: u32): u32 {
    (now - since) % U32_RANGE
  }

  /** The counter value at true time t. */
  function Stamp(t: nat): u32 {
    t % U32_RANGE
  }

  /** Elapsed time never exceeds the true time that has passed, and is exact while less than a full
      turn of the counter has passed. */
  lemma ElapsedIsLow(now: nat, since: nat)
    requires since <= now
    ensures Elapsed(Stamp(now), Stamp(since)) <= now - since
    ensures now - since < U32_RANGE ==> Elapsed(Stamp(now), Stamp(since)) == now - since
    ensures Elapsed(Stamp(now), Stamp(since)) == (now - since) % U32_RANGE
  {
  }

  lemma ElapsedTick(now: u32, since: u32)
    requires Elapsed(now, since) < U32_RANGE - 1
    ensures Elapsed((now + 1) % U32_RANGE, since) == Elapsed(now, since) + 1
  {
  }

  class TimerService {
    const held: bool  // set, to exhibit a run, if no interrupt falls between two statements
    var millisCounter: u32
    var secondsCounter: u32
    ghost var ms: nat // 1 ms ticks since start
    ghost var s: nat  // 1 s ticks since start

    ghost predicate Valid()
      reads this
    {
      millisCounter == Stamp(ms) && secondsCounter == Stamp(s)
    }

    constructor (held: bool)
      ensures Valid() && ms == 0 && s == 0 && this.held == held
    {
      this.held := held;
      millisCounter, secondsCounter := 0, 0;
      ms, s := 0, 0;
    }

    method On1msTick()
      requires Valid()
      modifies this`millisCounter, this`ms
      ensures Valid() && ms == old(ms) + 1
      ensures millisCounter == (old(millisCounter) + 1) % U32_RANGE
    {
      millisCounter := (millisCounter + 1) % U32_RANGE;
      ms := ms + 1;
    }

    method On1sTick()
      requires Valid()
      modifies this`secondsCounter, this`s
      ensures Valid() && s == old(s) + 1
    {
      secondsCounter := (secondsCounter + 1) % U32_RANGE;
      s := s + 1;
    }

    /** The timer interrupt fires any number of times. */
    method Interrupts()
      requires Valid()
      modifies this
      ensures Valid() && ms >= old(ms) && s >= old(s)
      ensures held ==> ms == old(ms) && s == old(s)
    {
      var n: nat := *;
      if held {
        return;
      }
      while n > 0
        invariant Valid() && ms >= old(ms) && s >= old(s)
        decreases n
      {
        n := n - 1;
        On1msTick();
        if * {
          On1sTick();
        }
      }
    }

    method Millis() returns (m: u32)
      requires Valid()
      modifies this
      ensures Valid() && ms >= old(ms) && s >= old(s)
      ensures m == Stamp(ms) && (held ==> ms == old(ms))
    {
      Interrupts();
      m := millisCounter;
    }

    /** A reading taken when at least `timeout` ms (in counter arithmetic) have passed since start. */
    method MillisPast(start: u32, timeout: u32) returns (m: u32)
      requires Valid()
      modifies this
      ensures Valid() && ms >= old(ms) && s >= old(s)
      ensures m == Stamp(ms) && Elapsed(m, start) >= timeout
    {
      hide Elapsed, Stamp;
      Interrupts();
      while Elapsed(millisCounter, start) < timeout
        invariant Valid() && ms >= old(ms) && s >= old(s)
        decreases timeout - Elapsed(millisCounter, start)
      {
        ElapsedTick(millisCounter, start);
        On1msTick();
      }
      m := millisCounter;
    }

    method Seconds() returns (m: u32)
      requires Valid()
      modifies this
      ensures Valid() && ms >= old(ms) && s >= old(s)
      ensures m == Stamp(s)
    {
      Interrupts();
      m := secondsCounter;
    }

    /** A timeout is never reported early; and never missed within one turn of the counter. */
    method HasElapsedMs(start: u32, timeout: u32, ghost since: nat) returns (r: bool)
      requires Valid() && since <= ms && start == Stamp(since)
      modifies this
      ensures Valid() && ms >= old(ms)
      ensures r ==> ms - since >= timeout
      ensures ms - since < U32_RANGE ==> (r <==> ms - since >= timeout)
    {
      var now := Millis();
      ElapsedIsLow(ms, since);
      r := Elapsed(now, start) >= timeout;
    }

    method HasElapsedSec(start: u32, timeout: u32, ghost since: nat) returns (r: bool)
      requires Valid() && since <= s && start == Stamp(since)
      modifies this
      ensures Valid() && s >= old(s)
      ensures r ==> s - since >= timeout
      ensures s - since < U32_RANGE ==> (r <==> s - since >= timeout)
    {
      var now := Seconds();
      ElapsedIsLow(s, since);
      r := Elapsed(now, start) >= timeout;
    }
  }
}
