/**
 * The table of two-way calls that await responses on one stream. Every operation is one lock
 * region of the source, so the value-level functions below are also the atomic steps of the
 * channel protocol; class `PendingCalls` is the in-place form.
 */
module PendingTable {
  import opened Numbers
  import opened Requests

  const MIN_SWEEP_SIZE: nat := 64

  datatype Call = Call(req: Request, serial: nat, watched: bool)

  datatype Table = Table(calls: map<nat, Call>, closed: bool, serial: nat, sweepAt: nat, watching: bool)

  const EMPTY := Table(map[], false, 0, 0, false)

  /** The calls whose contexts are live. `ended` holds the IDs of the calls whose contexts ended. */
  function Live(calls: map<nat, Call>, ended: set<nat>): map<nat, Call> {
    map id | id in calls && id !in ended :: calls[id]
  }

  predicate SweepDue(t: Table) {
    |t.calls| >= Max(t.sweepAt, MIN_SWEEP_SIZE)
  }

  function Sweep(t: Table, ended: set<nat>): Table {
    var live := Live(t.calls, ended);
    t.(calls := live, sweepAt := 2 * |live|)
  }

  /** The table after an add to an open table. */
  function Added(t: Table, req: Request, ended: set<nat>): Table {
    var u := if SweepDue(t) then Sweep(t, ended) else t;
    u.(serial := u.serial + 1, calls := u.calls[req.id := Call(req, u.serial + 1, u.watching)])
  }

  /** The table after a take; a streaming call stays for later responses. */
  function Taken(t: Table, id: nat): Table {
    if id in t.calls && !t.calls[id].req.streaming then t.(calls := t.calls - {id}) else t
  }

  function Drained(t: Table): Table {
    t.(closed := true, calls := map[])
  }

  function Watched(t: Table): Table {
    if t.watching then t
    else t.(watching := true, calls := map id | id in t.calls :: t.calls[id].(watched := true))
  }

  /** The table after the expiry callback of the call with this ID and serial number. */
  function Expired(t: Table, id: nat, serial: nat): Table {
    if id in t.calls && t.calls[id].serial == serial then t.(calls := t.calls - {id}) else t
  }

  predicate Holds(t: Table, req: Request) {
    req.id in t.calls && t.calls[req.id].req == req
  }

  /** Each call is stored under its own ID, and a drained table is empty. */
  predicate WellKeyed(t: Table) {
    && (forall id <- t.calls :: t.calls[id].req.id == id)
    && (t.closed ==> t.calls == map[])
  }
}
