# pool4go connection pool, modelled in Dafny

A model of the pool controller of pool4go (`pool.go`): a blocking pool of
connections that bounds the number of open connections (`MaxActive`), keeps
up to `MaxIdle` of them on an idle list (most recently returned at the
front), discards idle connections that have expired (`IdleTimeout`) or that
fail `TestOnBorrow`, dials new ones through `DialFunc`, and shuts down with
`Close`.

Layout:

- `wrappers.dfy` — `Option`, the model's nil.
- `conn.dfy` — a connection (`Conn`, an identity) and the idle-list element
  `IdleConn(c, t)` of `conn.go`.
- `pool_spec.dfy` — module `PoolSpec`: the state the mutex protects as a value
  (`PoolState`), one transition function per locked section (`GetStep`,
  `PutStep`, `CloseStep`, the initial state), and the lemmas that state what
  the pool does: which idle entry `get` serves, what it discards and closes,
  when it dials or blocks, how `put` pushes and evicts, what `Close` leaves,
  and the accounting and capacity invariants over whole runs of calls.
- `pool.dfy` — module `PoolController`: the `Pool` class with the Go fields
  (`MaxIdle`, `MaxActive`, `IdleTimeout`, `TestOnBorrow`, `active`,
  `running`, the idle list as a `seq`), and one method per operation, each
  proved to move `State()` exactly as its transition function says. The
  `Conn.Close` calls the pool makes are recorded in the ghost field
  `closeLog`, which the Go object does not have.

What replaces what cannot be modelled directly:

- The wall clock: `Get` and `Release` take the reading `now: int`;
  `IdleTimeout` is in the same units.
- `DialFunc`: `Get` is given `dial: DialResult`, the conn and error that the
  call would return; it is used only when `get` dials.
- `TestOnBorrow`: a field of type `Option<(Conn, int) -> bool>`, `None` for
  nil, the function returning true when the Go test returns an error.
  Callers may assign the field between calls, so in a whole run of calls
  (`Run`) each `Get` carries the value the field has at that call.
- `cond.Wait()`: the result `Blocked`. One call of `Get` is one attempt; a
  woken caller makes a new call.

## Model

| member | source | states |
|---|---|---|
| `PoolSpec.InitialStateIsEmptyAndRunning` | pool.go:25-36 | `NewPool(d, m)` gives `MaxIdle = m`, `MaxActive = m + 5`, no timeout, `active = 0`, running, empty idle list, nothing closed; that state is balanced, within capacity, (for `m >= 0`) within the idle bound, and owns its (empty) idle list exclusively |
| `PoolController.Pool.constructor` | pool.go:25-36 | the new object's state is that initial state and `TestOnBorrow` is nil |
| `PoolSpec.DropUnusable` | pool.go:49-62 | the popping loop removes exactly a prefix of the idle list, every removed entry is expired or fails the borrow test, the conns removed are that prefix's conns in order, and the entry left in front (if any) is usable |
| `PoolSpec.DropsUnusablePrefix` | pool.go:49-64 | when entry `k` is the first usable one, exactly the `k` entries before it are removed |
| `PoolSpec.DropsAllUnusable` | pool.go:49-62 | when no entry is usable, the whole list is removed and all its conns are discarded |
| `PoolSpec.DiscardsPrefix` | pool.go:49-62 | after the loop with first usable entry `k`: idle list from `k` on, `active` lower by `k`, the `k` conns closed in order |
| `PoolSpec.DiscardsAll` | pool.go:49-62 | after the loop with no usable entry: empty idle list, `active` lower by its old length, every idle conn closed once in order |
| `PoolSpec.GetServesFirstUsable` | pool.go:49-64 | `get` returns the conn of the first usable entry without dialing, removes exactly the entries up to it, closes each skipped entry once and lowers `active` by their number |
| `PoolSpec.GetServesUsableFront` | pool.go:49-64 | a usable front entry (the most recently returned) is served, only it is removed, `active` and the close log are unchanged |
| `PoolSpec.GetNeverServesUnusable` | pool.go:53-61 | an expired entry or one that fails `TestOnBorrow` is never the conn `get` returns |
| `PoolSpec.GetWithoutUsableIdle` | pool.go:53-85 | with no usable idle entry, every idle conn is closed and then a stopped pool gives the closed-pool error without dialing, a running pool under the cap returns the dial's conn (one more active only for a non-nil conn), and a running pool at the cap blocks |
| `PoolSpec.FailedDialChangesNothing` | pool.go:73-82 | a dial error is swallowed: the result is a nil conn with no error, and `active` and the idle list do not change |
| `PoolSpec.GetFrame` | pool.go:46-89 | `get` never changes the limits or `running`, never grows the idle list, and only appends to the close log |
| `PoolSpec.GetKeepsCapacity` | pool.go:73-80 | if `active <= MaxActive` with a positive cap before `get`, it still holds after |
| `PoolSpec.GetKeepsBalance` | pool.go:46-89 | `active == idle + in use` (or nothing open on a stopped pool) is kept, with a served or dialed conn moving into use |
| `PoolSpec.GetKeepsOwnership` | pool.go:49-80 | `get` never hands out a conn twice: a served idle conn, or a dialed conn that is not already checked out, is not in the callers' hands, and afterwards no conn is idle twice or both idle and checked out |
| `PoolSpec.GetOnClosedPoolFails` | pool.go:68-71 | on a stopped pool with nothing idle `get` returns the closed-pool error and changes nothing |
| `PoolSpec.PutIgnoredWhenNilOrStopped` | pool.go:91-110 | `Release(nil, _)` and any `put` on a stopped pool change nothing, so that conn is not closed |
| `PoolSpec.ForceReleaseClosesConn` | pool.go:97-121 | `Release(c, true)` on a running pool closes `c`, lowers `active` by one and leaves the idle list as it was |
| `PoolSpec.PutPushesFrontAndEvictsOldest` | pool.go:112-121 | a return pushes `(c, now)` in front; within `MaxIdle` nothing is closed; beyond it the back (oldest) entry is closed and dropped and `active` drops by one |
| `PoolSpec.PutWithNoIdleRoomClosesConn` | pool.go:112-121 | with `MaxIdle <= 0` and nothing idle, the returned conn itself is closed and `active` drops by one |
| `PoolSpec.PutClosesAtMostOne` | pool.go:105-122 | any `put` closes at most one conn, never raises `active`, never changes limits or `running`, and keeps the idle list within `MaxIdle` if it was |
| `PoolSpec.PutKeepsBalance` | pool.go:105-122 | returning or force-closing a checked-out conn keeps `active == idle + in use` |
| `PoolSpec.PutKeepsOwnership` | pool.go:105-122 | returning or force-closing a checked-out conn leaves it no longer checked out, and no conn is then idle twice or both idle and checked out |
| `PoolSpec.CloseIsTerminal` | pool.go:124-140 | after `Close` the pool is stopped, a running pool has `active = 0` and an empty idle list, no conn is closed, and a second `Close` changes nothing |
| `PoolSpec.CloseKeepsOwnership` | pool.go:124-134 | `Close` keeps the idle list free of duplicates and of checked-out conns |
| `PoolSpec.CloseBalances` | pool.go:124-134 | after `Close` nothing is open and nothing is idle, however many conns are still in use |
| `PoolSpec.ApplyKeepsLimits` | pool.go:14-16 | no operation assigns `MaxIdle`, `MaxActive` or `IdleTimeout` |
| `PoolSpec.RunKeepsCapacity` | pool.go:73-80 | over any sequence of Get/Release/Close calls, with `TestOnBorrow` free to change between calls, `active` never exceeds a positive `MaxActive` |
| `PoolSpec.RunKeepsIdleBound` | pool.go:112-118 | over any sequence of calls the idle list stays within `MaxIdle` if it started so |
| `PoolSpec.ClosedPoolIsInert` | pool.go:68-71 | a stopped pool with nothing idle is left unchanged by any sequence of calls: every Get fails fast, every Release and Close is ignored |
| `PoolController.Pool.Get` | pool.go:38-89 | one locked attempt of `Get`/`get` moves the state and returns the result exactly as `GetStep` says |
| `PoolController.Pool.PopUsable` | pool.go:47-62 | the popping loop leaves the state `AfterDiscards` gives and returns the front conn of what is left, or nil when nothing is left |
| `PoolController.Pool.Release` | pool.go:91-95 | `Release(c, forceClose)` moves the state as `PutStep` says |
| `PoolController.Pool.Discard` | pool.go:97-103 | `release(c)` closes a non-nil conn once and lowers `active` by one; nil changes nothing |
| `PoolController.Pool.Put` | pool.go:105-122 | `put(c, forceClose)` moves the state as `PutStep` says |
| `PoolController.Pool.Close` | pool.go:124-140 | `Close` moves the state as `CloseStep` says |
| `PoolController.Pool.ActiveCount` | pool.go:142-146 | returns the number of open conns, `active` |

## Behaviour worth knowing

The model follows `pool.go` as written, including these points, each proved
as a lemma above:

- A dial error is swallowed (pool.go:74-82): `get` returns a nil conn and a
  nil error, so a caller cannot tell a failed dial from a nil conn
  (`FailedDialChangesNothing`).
- `put` on a stopped pool returns without closing the conn or touching
  `active` (pool.go:108-110), so that conn is never closed by the pool
  (`PutIgnoredWhenNilOrStopped`).
- `Close` does not close the idle conns (pool.go:132-138): `idle` holds the
  same list pointer that `Init()` empties, so the loop visits nothing; the
  close log is unchanged by `Close` (`CloseIsTerminal`).
- `Close` sets `active` to 0 while conns may still be in use; since `put`
  then ignores them, those conns are never closed by the pool either
  (`CloseIsTerminal` with `PutIgnoredWhenNilOrStopped`).

## Left out

- The `sync.Mutex`/`sync.Cond` protocol (pool.go:21-22, 34, 48, 85, 102, 131): every locked section is one atomic method; `Signal`/`Broadcast` change no state and are not modelled; waiting is the `Blocked` result.
- The re-`Lock` after `continue` while the lock is still held (pool.go:48, 55, 60), which would deadlock in Go: the model keeps popping inside one critical section. In Go, a `get` that discards even one idle entry therefore never returns, so `GetServesFirstUsable` with `k > 0` and `GetWithoutUsableIdle` on a non-empty idle list describe what the evidently intended loop does, not anything the Go program reaches.
- The early `return nil` in `Close` that keeps the lock (pool.go:126-128): the model returns with no state change. In Go every later call on that pool blocks forever, so the runs in `ClosedPoolIsInert` that contain a `Close` (always a second one, since the pool is already stopped) describe calls past the point where the Go program blocks.
- `time.Now()`, `time.Time` and `time.Duration` (pool.go:53, 113): integer clock readings passed in; `t.Add(IdleTimeout)` is exact integer addition.
- The bodies of `DialFunc`, `TestOnBorrow` and `Conn.Close` (conn.go:5-7): inputs to the model; their side effects, and the errors `Conn.Close` returns (ignored by the code), are not modelled.
- `NewPool` stores `DialFunc`: the class does not hold it; each `Get` receives what the call would return.
- Go's fixed-width `int`: `active`, the limits and `maxIdle + 5` are unbounded integers, so the wrap-around of `maxIdle + 5` for a `maxIdle` near the maximum `int` is not modelled.
- The type assertion `item.Value.(idleConn)` and the nil check on `item.Value` (pool.go:50-51): the idle list only ever holds `idleConn` values, so both always succeed; the unreachable `return nil, nil` (pool.go:88) has no counterpart.
- `Get`'s wrapper (pool.go:38-44) is not a separate member: `get` never returns a conn together with an error, so it passes results through unchanged.
- Setters for the limits: the code has none; the limits are exported fields that callers may assign.
- `sample/main.go` and `pool_test.go`: a demo program and a benchmark, not part of the pool.
