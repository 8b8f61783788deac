/**
 * The `Pool` object of pool.go. Every exported method runs under one mutex,
 * so each is modelled as one atomic method on the fields; `State()` collects
 * them into the `PoolState` value that the transition functions of PoolSpec
 * describe, and every method is proved to move the state exactly as its
 * transition function says.
 */
module PoolController {
  import opened Wrappers
  import opened Conns
  import opened PoolSpec

  class Pool {
    // Exported configuration: callers may assign these fields directly.
    var MaxIdle: int
    var MaxActive: int
    var IdleTimeout: int
    var TestOnBorrow: Option<BorrowTest>

    // Unexported state.
    var active: int
    var running: bool
    /** The idle list, front (most recently returned) first. */
    var idleList: seq<IdleConn>
    /**
     * Every conn the pool has called Close on, oldest call first. The Go
     * object keeps no such record: it is ghost, there only to observe the
     * side effect of `release`.
     */
    ghost var closeLog: seq<Conn>

    /** The fields the mutex protects, together with the close record, as one value. */
    ghost function State(): PoolState
      reads this
    {
      PoolState(MaxIdle, MaxActive, IdleTimeout, active, running, idleList, closeLog)
    }

    /**
     * `NewPool(dialFunc, maxIdle)`. The dial function is not stored: each
     * `Get` is given what it returns.
     */
    constructor (maxIdle: int)
      ensures State() == InitialState(maxIdle)
      ensures TestOnBorrow.None?
    {
      MaxIdle := maxIdle;
      MaxActive := maxIdle + 5;
      IdleTimeout := 0;
      TestOnBorrow := None;
      active := 0;
      running := true;
      idleList := [];
      closeLog := [];
    }

    /**
     * `Get`/`get`: one attempt under the lock, reading the clock as `now`
     * and, if it dials, receiving `dial`. The retries after a discarded idle
     * entry stay inside the same critical section. `Blocked` stands for
     * `cond.Wait()`: the caller is parked and tries again when woken.
     */
    method Get(now: int, dial: DialResult) returns (r: GetResult)
      modifies this
      ensures TestOnBorrow == old(TestOnBorrow)
      ensures (State(), r) == GetStep(old(State()), now, old(TestOnBorrow), dial)
    {
      var found := PopUsable(now);
      if found.Some? {
        r := Got(found);
      } else if !running {
        r := ClosedPoolError;
      } else if MaxActive <= 0 || active < MaxActive {
        // A dial error is swallowed: the conn becomes nil and no error is returned.
        var c := if dial.err then None else dial.conn;
        if c.Some? {
          active := active + 1;
        }
        r := Got(c);
      } else {
        r := Blocked;
      }
    }

    /**
     * The loop at the top of `get`: pop the front entry; close and discard it
     * when expired or rejected by the borrow test, and try the next one;
     * otherwise hand out its conn. `None` when the list runs out.
     */
    method PopUsable(now: int) returns (found: Option<Conn>)
      modifies this`idleList, this`active, this`closeLog
      ensures var s1 := AfterDiscards(old(State()), now, TestOnBorrow);
        if s1.idle == [] then found.None? && State() == s1
        else found == Some(s1.idle[0].c) && State() == s1.(idle := s1.idle[1..])
    {
      ghost var s0 := State();
      ghost var k: nat := 0;
      while idleList != []
        invariant k <= |s0.idle| && idleList == s0.idle[k..]
        invariant closeLog == s0.closed + ConnsOf(s0.idle[..k]) && active == s0.active - k
        invariant forall i :: 0 <= i < k ==> Unusable(s0.idle[i], IdleTimeout, now, TestOnBorrow)
        decreases |idleList|
      {
        var e := idleList[0];
        idleList := idleList[1..];
        // The borrow test runs only on an entry that has not expired.
        if Expired(e, IdleTimeout, now) || (TestOnBorrow.Some? && TestOnBorrow.value(e.c, e.t)) {
          Discard(Some(e.c));
          assert s0.idle[..k + 1] == s0.idle[..k] + [e];
          ConnsOfSnoc(s0.idle[..k], e);
          k := k + 1;
          continue;
        }
        DiscardsPrefix(s0, now, TestOnBorrow, k);
        assert idleList == s0.idle[k..][1..];
        return Some(e.c);
      }
      assert s0.idle[..k] == s0.idle;
      DiscardsAll(s0, now, TestOnBorrow);
      return None;
    }

    /** `Release(c, forceClose)`: a nil conn is ignored before taking the lock. */
    method Release(c: Option<Conn>, forceClose: bool, now: int)
      modifies this
      ensures TestOnBorrow == old(TestOnBorrow)
      ensures State() == PutStep(old(State()), c, forceClose, now)
    {
      if c.Some? {
        Put(c, forceClose, now);
      }
    }

    /**
     * `release(c)`: close a non-nil conn and count one fewer active. The
     * `cond.Signal()` that follows changes no state.
     */
    method Discard(c: Option<Conn>)
      modifies this`active, this`closeLog
      ensures c.Some? ==> closeLog == old(closeLog) + [c.value] && active == old(active) - 1
      ensures c.None? ==> closeLog == old(closeLog) && active == old(active)
    {
      if c.Some? {
        closeLog := closeLog + [c.value];
        active := active - 1;
      }
    }

    /**
     * `put(c, forceClose)`. On a stopped pool it returns at once, without
     * closing `c`. When `c` is kept idle, the conn handed to `release` is the
     * evicted back entry, or nil when nothing is evicted.
     */
    method Put(c: Option<Conn>, forceClose: bool, now: int)
      modifies this
      ensures TestOnBorrow == old(TestOnBorrow)
      ensures State() == PutStep(old(State()), c, forceClose, now)
    {
      if !running || c.None? {
        return;
      }
      var toClose := c;
      if !forceClose {
        idleList := [IdleConn(c.value, now)] + idleList;
        if |idleList| > MaxIdle {
          toClose := Some(idleList[|idleList| - 1].c);
          idleList := idleList[..|idleList| - 1];
        } else {
          toClose := None;
        }
      }
      Discard(toClose);
    }

    /**
     * `Close`. The Go code snapshots the idle list by reference and then
     * clears it, so the loop that closes the snapshot walks an empty list:
     * no idle conn is closed.
     */
    method Close()
      modifies this
      ensures TestOnBorrow == old(TestOnBorrow)
      ensures State() == CloseStep(old(State()))
    {
      if !running {
        return;
      }
      running := false;
      active := 0;
      // `idle := this.idleList` copies the pointer, so the `Init()` that
      // follows empties `idle` too, and the loop over it closes nothing. The
      // model therefore has no close loop: `closeLog` is left as it was.
      idleList := [];
    }

    /** `ActiveCount`: the number of open conns, idle or in use. */
    method ActiveCount() returns (n: int)
      ensures n == State().active
    {
      n := active;
    }
  }
}
