/**
 * The pending-call table in place, and its size and sweep cost over every run of operations.
 */
module PendingCalls {
  import opened Numbers
  import opened Requests
  import opened PendingTable

  /** The calls, watched except for some of them. */
  function WatchedExcept(calls: map<nat, Call>, todo: set<nat>): map<nat, Call> {
    map id | id in calls :: if id in todo then calls[id] else calls[id].(watched := true)
  }

  /** The table as the source updates it, one lock region per method. */
  class Calls {
    var calls: map<nat, Call>
    var closed: bool
    var serial: nat
    var sweepAt: nat
    var watching: bool

    function View(): Table
      reads this
    {
      Table(calls, closed, serial, sweepAt, watching)
    }

    constructor ()
      ensures View() == EMPTY
    {
      calls, closed, serial, sweepAt, watching := map[], false, 0, 0, false;
    }

    /** Records req unless the table is drained; ended holds the calls whose contexts have ended. */
    method Add(req: Request, ended: set<nat>) returns (ok: bool)
      modifies this
      ensures ok == !old(closed)
      ensures View() == if ok then Added(old(View()), req, ended) else old(View())
    {
      if closed {
        return false;
      }
      if |calls| >= Max(sweepAt, MIN_SWEEP_SIZE) {
        SweepLocked(ended);
      }
      serial := serial + 1;
      calls := calls[req.id := Call(req, serial, watching)];
      return true;
    }

    method SweepLocked(ended: set<nat>)
      modifies this
      ensures View() == Sweep(old(View()), ended)
    {
      var todo := calls.Keys;
      while todo != {}
        invariant todo <= old(calls).Keys
        invariant calls == map id | id in old(calls) && (id in todo || id !in ended) :: old(calls)[id]
        invariant View() == old(View()).(calls := calls)
        decreases |todo|
      {
        var id :| id in todo;
        todo := todo - {id};
        if id in ended {
          calls := calls - {id};
        }
      }
      assert calls == Live(old(calls), ended);
      sweepAt := 2 * |calls|;
    }

    method Take(id: nat) returns (req: Option<Request>)
      modifies this
      ensures View() == Taken(old(View()), id)
      ensures req == if id in old(calls) then Some(old(calls)[id].req) else None
    {
      if id !in calls {
        return None;
      }
      req := Some(calls[id].req);
      if !calls[id].req.streaming {
        calls := calls - {id};
      }
    }

    /** Removes and returns every call exactly once, in some order, and makes later adds fail. */
    method Drain() returns (reqs: seq<Request>)
      requires WellKeyed(View())
      modifies this
      ensures View() == Drained(old(View()))
      ensures |reqs| == |old(calls)|
      ensures forall r :: r in reqs <==> Holds(old(View()), r)
      ensures forall i, j | 0 <= i < j < |reqs| :: reqs[i] != reqs[j]
    {
      closed := true;
      reqs := [];
      while calls != map[]
        invariant View() == old(View()).(calls := calls, closed := true)
        invariant calls.Keys <= old(calls).Keys && forall id <- calls :: calls[id] == old(calls)[id]
        invariant |reqs| + |calls| == |old(calls)|
        invariant forall r :: r in reqs <==> Holds(old(View()), r) && r.id !in calls
        invariant forall i, j | 0 <= i < j < |reqs| :: reqs[i] != reqs[j]
        decreases |calls|
      {
        var id :| id in calls;
        reqs := reqs + [calls[id].req];
        calls := calls - {id};
      }
    }

    method WatchExpiry()
      modifies this
      ensures View() == Watched(old(View()))
    {
      if watching {
        return;
      }
      watching := true;
      var todo := calls.Keys;
      while todo != {}
        invariant todo <= old(calls).Keys && calls == WatchedExcept(old(calls), todo)
        invariant watching && closed == old(closed) && serial == old(serial) && sweepAt == old(sweepAt)
        decreases |todo|
      {
        var id :| id in todo;
        assert WatchedExcept(old(calls), todo - {id}) == calls[id := calls[id].(watched := true)];
        todo := todo - {id};
        calls := calls[id := calls[id].(watched := true)];
      }
      assert WatchedExcept(old(calls), {}) == Watched(old(View())).calls;
    }

    /** The expiry callback of one call; it reports whether it removed the call. */
    method Expire(id: nat, of: nat) returns (removed: bool)
      modifies this
      ensures View() == Expired(old(View()), id, of)
      ensures removed <==> View() != old(View())
    {
      removed := id in calls && calls[id].serial == of;
      if removed {
        calls := calls - {id};
      }
    }
  }

  // ---- every run of operations ----

  datatype Op =
    | AddOp(req: Request, ended: set<nat>)
    | TakeOp(id: nat)
    | DrainOp
    | WatchOp
    | ExpireOp(id: nat, serial: nat)

  function Apply(t: Table, op: Op): Table {
    match op
    case AddOp(req, ended) => if t.closed then t else Added(t, req, ended)
    case TakeOp(id) => Taken(t, id)
    case DrainOp => Drained(t)
    case WatchOp => Watched(t)
    case ExpireOp(id, serial) => Expired(t, id, serial)
  }

  predicate Sweeps(t: Table, op: Op) {
    op.AddOp? && !t.closed && SweepDue(t)
  }

  /**
   * A run so far: the table, how many calls survived the last sweep, how many calls all sweeps
   * looked at, and how many calls were added.
   */
  datatype Ledger = Ledger(table: Table, survivors: nat, work: nat, adds: nat)

  function Next(l: Ledger, op: Op): Ledger {
    Ledger(
      Apply(l.table, op),
      if Sweeps(l.table, op) then |Live(l.table.calls, op.ended)| else l.survivors,
      if Sweeps(l.table, op) then l.work + |l.table.calls| else l.work,
      if op.AddOp? && !l.table.closed then l.adds + 1 else l.adds)
  }

  function Run(ops: seq<Op>): Ledger {
    if ops == [] then Ledger(EMPTY, 0, 0, 0) else Next(Run(ops[..|ops| - 1]), ops[|ops| - 1])
  }

  /** The amortized bound: calls above the last survivors were paid for by adds since then. */
  predicate Paid(l: Ledger) {
    && l.table.sweepAt == 2 * l.survivors
    && |l.table.calls| <= Max(MIN_SWEEP_SIZE, 2 * l.survivors)
    && l.work + 2 * Max(0, |l.table.calls| - l.survivors) <= 2 * l.adds
  }

  lemma LiveSize(calls: map<nat, Call>, ended: set<nat>)
    ensures |Live(calls, ended)| <= |calls|
  {
    var live := Live(calls, ended);
    assert live.Keys <= calls.Keys;
    assert calls.Keys == live.Keys + (calls.Keys - live.Keys);
  }

  lemma RemoveSize(calls: map<nat, Call>, id: nat)
    ensures |calls - {id}| <= |calls|
  {
    assert (calls - {id}).Keys == calls.Keys - {id};
    assert calls.Keys == (calls.Keys - {id}) + (if id in calls then {id} else {});
  }

  lemma InsertSize(calls: map<nat, Call>, id: nat, c: Call)
    ensures |calls[id := c]| <= |calls| + 1
  {
    assert calls[id := c].Keys == calls.Keys + {id};
  }

  lemma AddPaid(l: Ledger, req: Request, ended: set<nat>)
    requires Paid(l) && !l.table.closed
    ensures Paid(Next(l, AddOp(req, ended)))
  {
    var t := l.table;
    var u := if SweepDue(t) then Sweep(t, ended) else t;
    LiveSize(t.calls, ended);
    InsertSize(u.calls, req.id, Call(req, u.serial + 1, u.watching));
  }

  lemma NextPaid(l: Ledger, op: Op)
    requires Paid(l)
    ensures Paid(Next(l, op))
  {
    match op
    case AddOp(req, ended) => if !l.table.closed { AddPaid(l, req, ended); }
    case TakeOp(id) => RemoveSize(l.table.calls, id);
    case ExpireOp(id, _) => RemoveSize(l.table.calls, id);
    case WatchOp => assert Watched(l.table).calls.Keys == l.table.calls.Keys;
    case DrainOp =>
  }

  /**
   * After any run of operations the table holds at most max(64, twice the calls that survived its
   * last sweep), and all sweeps together looked at no more than two calls per call added.
   */
  lemma {:induction false} SizeAndSweepCost(ops: seq<Op>)
    ensures |Run(ops).table.calls| <= Max(MIN_SWEEP_SIZE, 2 * Run(ops).survivors)
    ensures Run(ops).work <= 2 * Run(ops).adds
    ensures Paid(Run(ops))
  {
    if ops != [] {
      SizeAndSweepCost(ops[..|ops| - 1]);
      NextPaid(Run(ops[..|ops| - 1]), ops[|ops| - 1]);
    }
  }
}
