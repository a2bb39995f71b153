/**
 * Conservation: in every reachable state each request is in exactly one place. The proof carries
 * a map from requests to their places and shows how each step updates it.
 */
module ChannelPlaces {
  import opened Requests
  import opened PendingTable
  import opened ChannelState
  import opened ChannelSteps

  predicate WorkOk(d: Disposal) {
    !d.current.Idle? ==> d.current.req !in d.todo
  }

  predicate TidySession(x: Session) {
    && WellKeyed(x.table)
    && (x.receiver.DisposeCalls? ==> WorkOk(x.receiver.work))
    && (forall i | 0 <= i < |x.checks| :: x.checks[i].Dispose? ==> WorkOk(x.checks[i].work))
  }

  predicate TidyRun(pc: RunPc) {
    pc.BreakDispose? ==> WorkOk(pc.work) && InSend(pc.req) !! WorkHolds(pc.work)
  }

  /** No container holds a request twice, and tables are keyed by message ID. */
  predicate Tidy(s: State) {
    && Distinct(s.queue)
    && TidyRun(s.run)
    && (forall k | 0 <= k < |s.sessions| :: TidySession(s.sessions[k]))
  }

  /** loc gives the one place of every request passed to Enqueue. */
  ghost predicate Located(s: State, loc: map<Request, Place>) {
    && loc.Keys == s.issued
    && (forall r, q | r in s.issued && q in s.issued :: r.id == q.id ==> r == q)
    && (forall p, r :: At(s, p, r) <==> r in loc && loc[r] == p)
  }

  ghost predicate Consistent(s: State, loc: map<Request, Place>) {
    Tidy(s) && Located(s, loc)
  }

  /** The requests in R went from place p to place q; everything else stayed. */
  ghost predicate Transferred(s: State, s': State, p: Place, q: Place, R: set<Request>) {
    && s'.issued == s.issued && p != q
    && (forall r <- R :: At(s, p, r))
    && (forall o, r :: At(s', o, r) <==>
          if o == p then At(s, p, r) && r !in R else if o == q then At(s, q, r) || r in R else At(s, o, r))
  }

  ghost predicate Unmoved(s: State, s': State) {
    && s'.issued == s.issued
    && (forall o, r :: At(s', o, r) <==> At(s, o, r))
  }

  ghost function Relocate(loc: map<Request, Place>, R: set<Request>, q: Place): map<Request, Place> {
    loc + map r | r in R :: q
  }

  lemma TransferLocates(s: State, s': State, p: Place, q: Place, R: set<Request>, loc: map<Request, Place>)
    requires Located(s, loc) && Transferred(s, s', p, q, R)
    ensures Located(s', Relocate(loc, R, q))
  {
    var loc' := Relocate(loc, R, q);
    assert loc'.Keys == loc.Keys by {
      forall r | r in R ensures r in loc { assert At(s, p, r); }
    }
    forall o, r
      ensures At(s', o, r) <==> r in loc' && loc'[r] == o
    {
      assert At(s, o, r) <==> r in loc && loc[r] == o;
      assert At(s, p, r) <==> r in loc && loc[r] == p;
      assert At(s, q, r) <==> r in loc && loc[r] == q;
    }
  }

  lemma UnmovedLocates(s: State, s': State, loc: map<Request, Place>)
    requires Located(s, loc) && Unmoved(s, s')
    ensures Located(s', loc)
  {
    forall o, r
      ensures At(s', o, r) <==> r in loc && loc[r] == o
    {
      assert At(s, o, r) <==> r in loc && loc[r] == o;
    }
  }

  // ---- frames ----

  /** x' holds the same requests as x in the same places; new checks hold none. */
  ghost predicate SameContents(x: Session, x': Session) {
    && (forall r :: Holds(x'.table, r) <==> Holds(x.table, r))
    && ReceiverHolds(x'.receiver) == ReceiverHolds(x.receiver)
    && |x.checks| <= |x'.checks|
    && (forall i | 0 <= i < |x'.checks| ::
          CheckHolds(x'.checks[i]) == if i < |x.checks| then CheckHolds(x.checks[i]) else {})
  }

  ghost predicate SameSessions(s: State, s': State) {
    && |s.sessions| == |s'.sessions|
    && (forall k | 0 <= k < |s.sessions| :: SameContents(s.sessions[k], s'.sessions[k]))
  }

  ghost predicate SameContainers(s: State, s': State) {
    && s'.queue == s.queue && s'.pushing.Keys == s.pushing.Keys
    && CloseHolds(s'.close) == CloseHolds(s.close)
    && s'.settled == s.settled && s'.issued == s.issued
  }

  lemma Frame(s: State, s': State)
    requires SameSessions(s, s') && SameContainers(s, s') && RunHolds(s'.run) == RunHolds(s.run)
    ensures Unmoved(s, s')
  {
  }

  lemma FrameSession(s: State, k: nat, x': Session, s': State)
    requires k < |s.sessions| && SameContents(s.sessions[k], x') && SameContainers(s, s')
    requires s'.sessions == s.sessions[k := x'] && RunHolds(s'.run) == RunHolds(s.run)
    ensures Unmoved(s, s')
  {
    forall j | 0 <= j < |s.sessions|
      ensures SameContents(s.sessions[j], s'.sessions[j])
    {
    }
    Frame(s, s');
  }

  lemma TidyPut(s: State, k: nat, x': Session, s': State)
    requires Tidy(s) && k < |s.sessions| && TidySession(x')
    requires s'.sessions == s.sessions[k := x'] && Distinct(s'.queue) && TidyRun(s'.run)
    ensures Tidy(s')
  {
  }

  // ---- sendQueue.push ----

  lemma EnqueuePlaces(s: State, r: Request, wait: bool, s': State, loc: map<Request, Place>)
    requires Consistent(s, loc) && EnqueueStep(s, r, wait, s')
    ensures Consistent(s', loc[r := InPush])
  {
    var loc' := loc[r := InPush];
    forall p, q
      ensures At(s', p, q) <==> q in loc' && loc'[q] == p
    {
      assert At(s, p, q) <==> q in loc && loc[q] == p;
    }
  }

  lemma PushAdmitPlaces(s: State, r: Request, s': State, loc: map<Request, Place>)
    requires Consistent(s, loc) && r in s.pushing
    requires s' == s.(queue := s.queue + [r], pushing := s.pushing - {r})
    ensures Consistent(s', Relocate(loc, {r}, InQueue))
  {
    assert At(s, InPush, r) && !At(s, InQueue, r);
    assert Transferred(s, s', InPush, InQueue, {r});
    TransferLocates(s, s', InPush, InQueue, {r}, loc);
  }

  lemma PushFailPlaces(s: State, r: Request, delivered: bool, s': State, loc: map<Request, Place>)
    requires Consistent(s, loc) && PushFailStep(s, r, delivered, s')
    ensures Consistent(s', Relocate(loc, {r}, Settled))
  {
    assert Transferred(s, s', InPush, Settled, {r});
    TransferLocates(s, s', InPush, Settled, {r}, loc);
  }

  // ---- the run loop and the send loop ----

  ghost predicate TakesQueued(s: State, s': State) {
    && s.queue != [] && RunHolds(s.run) == {} && RunHolds(s'.run) == {s.queue[0]} && !s'.run.BreakDispose?
    && s' == s.(queue := s.queue[1..], run := s'.run)
  }

  ghost predicate Settles(s: State, r: Request, s': State) {
    && RunHolds(s.run) == {r} && RunHolds(s'.run) == {} && !s'.run.BreakDispose?
    && s' == s.(settled := s.settled + {r}, run := s'.run, answers := s'.answers)
  }

  ghost predicate Rests(s: State, s': State) {
    && RunHolds(s'.run) == RunHolds(s.run) && !s'.run.BreakDispose?
    && s' == s.(run := s'.run, backoff := s'.backoff, queueClosed := s'.queueClosed)
  }

  ghost predicate Opens(s: State, s': State) {
    && RunHolds(s'.run) == RunHolds(s.run) && !s'.run.BreakDispose?
    && s' == s.(sessions := s.sessions + [NEW_SESSION], run := s'.run)
  }

  lemma QueueToRun(s: State, s': State, loc: map<Request, Place>)
    requires Consistent(s, loc) && TakesQueued(s, s')
    ensures Consistent(s', Relocate(loc, {s.queue[0]}, InRun))
  {
    assert s.queue == [s.queue[0]] + s'.queue;
    assert Transferred(s, s', InQueue, InRun, {s.queue[0]});
    TransferLocates(s, s', InQueue, InRun, {s.queue[0]}, loc);
  }

  lemma RunSettles(s: State, r: Request, s': State, loc: map<Request, Place>)
    requires Consistent(s, loc) && Settles(s, r, s')
    ensures Consistent(s', Relocate(loc, {r}, Settled))
  {
    assert Transferred(s, s', InRun, Settled, {r});
    TransferLocates(s, s', InRun, Settled, {r}, loc);
  }

  lemma RunRests(s: State, s': State, loc: map<Request, Place>)
    requires Consistent(s, loc) && Rests(s, s')
    ensures Consistent(s', loc)
  {
    Frame(s, s');
    UnmovedLocates(s, s', loc);
  }

  lemma OpenPlaces(s: State, s': State, loc: map<Request, Place>)
    requires Consistent(s, loc) && Opens(s, s')
    ensures Consistent(s', loc)
  {
    assert Unmoved(s, s');
    UnmovedLocates(s, s', loc);
  }

  predicate HasRequest(pc: RunPc) {
    pc.FailRefused? || pc.FailHand? || pc.ExitFail? || pc.FailEnded? || pc.Confirm? || pc.FailOneway?
  }

  /** The four ways in which the run loop treats requests, except inside session.end and add. */
  ghost predicate Simple(s: State, s': State) {
    || TakesQueued(s, s')
    || (HasRequest(s.run) && Settles(s, s.run.req, s'))
    || Rests(s, s')
    || Opens(s, s')
  }

  lemma SimplePlaces(s: State, s': State, loc: map<Request, Place>) returns (loc': map<Request, Place>)
    requires Consistent(s, loc) && Simple(s, s')
    ensures Consistent(s', loc')
  {
    if TakesQueued(s, s') {
      QueueToRun(s, s', loc);
      loc' := Relocate(loc, {s.queue[0]}, InRun);
    } else if HasRequest(s.run) && Settles(s, s.run.req, s') {
      RunSettles(s, s.run.req, s', loc);
      loc' := Relocate(loc, {s.run.req}, Settled);
    } else if Rests(s, s') {
      RunRests(s, s', loc);
      loc' := loc;
    } else {
      OpenPlaces(s, s', loc);
      loc' := loc;
    }
  }

  lemma AwaitSimple(s: State, a: RunAction, s': State)
    requires AwaitStep(s, a, s')
    ensures Simple(s, s')
  {
  }

  lemma OpenSimple(s: State, a: RunAction, s': State)
    requires OpenStep(s, a, s')
    ensures Simple(s, s')
  {
  }

  lemma ExitSimple(s: State, a: RunAction, s': State)
    requires ExitStep(s, a, s')
    ensures Simple(s, s')
  {
  }

  lemma TakeSimple(s: State, k: nat, a: RunAction, s': State)
    requires k < |s.sessions| && RunSession(s.run) == Some(k) && TakeStep(s, k, a, s')
    ensures Simple(s, s')
  {
  }

  lemma SendSimple(s: State, k: nat, a: RunAction, s': State)
    requires k < |s.sessions| && RunSession(s.run) == Some(k) && SendStep(s, k, a, s')
    ensures Simple(s, s')
  {
  }

  // ---- adding a call to the table ----

  lemma CallsHeld(t: Table)
    requires WellKeyed(t)
    ensures forall r :: r in Calls(t) <==> Holds(t, r)
  {
  }

  function MaybeSweep(t: Table, seen: set<nat>): Table {
    if SweepDue(t) then Sweep(t, seen) else t
  }

  lemma SweptHolds(t: Table, seen: set<nat>)
    requires WellKeyed(t)
    ensures forall r :: r in Swept(t, seen) ==> Holds(t, r)
    ensures forall r :: Holds(MaybeSweep(t, seen), r) <==> Holds(t, r) && r !in Swept(t, seen)
    ensures WellKeyed(MaybeSweep(t, seen))
  {
  }

  /** Session k's table gives up the requests in R, which are settled. */
  lemma TableSettles(s: State, k: nat, t': Table, R: set<Request>, s': State, loc: map<Request, Place>)
    requires Consistent(s, loc) && k < |s.sessions| && WellKeyed(t')
    requires forall r <- R :: Holds(s.sessions[k].table, r)
    requires forall r :: Holds(t', r) <==> Holds(s.sessions[k].table, r) && r !in R
    requires s' == Put(s, k, s.sessions[k].(table := t')).(settled := s.settled + R)
    ensures Consistent(s', Relocate(loc, R, Settled))
  {
    assert Transferred(s, s', InTable(k), Settled, R);
    TransferLocates(s, s', InTable(k), Settled, R, loc);
    TidyPut(s, k, s'.sessions[k], s');
  }

  lemma InsertPlaces(s: State, k: nat, r: Request, c: Call, x': Session, s': State, loc: map<Request, Place>)
    requires Consistent(s, loc) && k < |s.sessions| && s.run == Add(k, r) && r.WantServerResponse() && c.req == r
    requires x'.table.calls == s.sessions[k].table.calls[r.id := c] && !x'.table.closed
    requires x' == s.sessions[k].(table := x'.table, added := x'.added)
    requires s' == PutRun(s, k, x', Send(k, r))
    ensures Consistent(s', Relocate(loc, {r}, InTable(k)))
  {
    var t := s.sessions[k].table;
    assert At(s, InRun, r);
    forall q | Holds(t, q)
      ensures q.id != r.id
    {
      assert At(s, InTable(k), q);
    }
    assert Transferred(s, s', InRun, InTable(k), {r});
    TransferLocates(s, s', InRun, InTable(k), {r}, loc);
    TidyPut(s, k, x', s');
  }

  lemma SweepPlaces(s: State, k: nat, seen: set<nat>, loc: map<Request, Place>)
    requires Consistent(s, loc) && k < |s.sessions|
    ensures Consistent(SweepState(s, k, seen), Relocate(loc, Swept(s.sessions[k].table, seen), Settled))
  {
    SweptHolds(s.sessions[k].table, seen);
    TableSettles(s, k, MaybeSweep(s.sessions[k].table, seen), Swept(s.sessions[k].table, seen),
      SweepState(s, k, seen), loc);
  }

  /** The state halfway an add: expired calls are gone, the new call is not there yet. */
  function SweepState(s: State, k: nat, seen: set<nat>): State
    requires k < |s.sessions|
  {
    Put(s, k, s.sessions[k].(table := MaybeSweep(s.sessions[k].table, seen)))
      .(settled := s.settled + Swept(s.sessions[k].table, seen))
  }

  lemma AddIsInsert(s: State, k: nat, r: Request, seen: set<nat>, x': Session, s': State)
    requires k < |s.sessions| && !s.sessions[k].table.closed
    requires x' == s.sessions[k].(table := Added(s.sessions[k].table, r, seen), added := s.sessions[k].added + {r})
    requires s' == PutRun(s, k, x', Send(k, r)).(settled := s.settled + Swept(s.sessions[k].table, seen))
    ensures var u := SweepState(s, k, seen);
      && x'.table.calls == u.sessions[k].table.calls[r.id := x'.table.calls[r.id]] && !x'.table.closed
      && x'.table.calls[r.id].req == r
      && x' == u.sessions[k].(table := x'.table, added := x'.added)
      && s' == PutRun(u, k, x', Send(k, r)) && u.run == s.run
  {
    assert SweepState(s, k, seen).sessions[k := x'] == s'.sessions;
  }

  lemma AddPlaces(s: State, k: nat, r: Request, seen: set<nat>, x': Session, s': State, loc: map<Request, Place>)
    returns (loc': map<Request, Place>)
    requires Consistent(s, loc) && k < |s.sessions| && s.run == Add(k, r)
    requires r.WantServerResponse() && !s.sessions[k].table.closed
    requires x' == s.sessions[k].(table := Added(s.sessions[k].table, r, seen), added := s.sessions[k].added + {r})
    requires s' == PutRun(s, k, x', Send(k, r)).(settled := s.settled + Swept(s.sessions[k].table, seen))
    ensures Consistent(s', loc')
  {
    var R := Swept(s.sessions[k].table, seen);
    SweepPlaces(s, k, seen, loc);
    AddIsInsert(s, k, r, seen, x', s');
    InsertPlaces(SweepState(s, k, seen), k, r, x'.table.calls[r.id], x', s', Relocate(loc, R, Settled));
    loc' := Relocate(Relocate(loc, R, Settled), {r}, InTable(k));
  }

  lemma AddStepPlaces(s: State, k: nat, a: RunAction, s': State, loc: map<Request, Place>)
    returns (loc': map<Request, Place>)
    requires Consistent(s, loc) && k < |s.sessions| && RunSession(s.run) == Some(k) && AddStep(s, k, a, s')
    ensures Consistent(s', loc')
  {
    if s.run.req.WantServerResponse() && !s.sessions[k].table.closed {
      loc' := AddPlaces(s, k, s.run.req, a.seen, s'.sessions[k], s', loc);
    } else {
      RunRests(s, s', loc);
      loc' := loc;
    }
  }

  // ---- session.end ----

  /** Place P holds the requests of the loop d and `extra`. */
  ghost predicate Owns(s: State, P: Place, extra: set<Request>, d: Disposal) {
    && (forall r :: At(s, P, r) <==> r in extra + WorkHolds(d))
    && WorkOk(d) && extra !! WorkHolds(d) && P != InQueue && P != Settled
  }

  ghost predicate ElsewhereSame(s: State, s': State, P: Place) {
    && s'.issued == s.issued
    && (forall o, r | o != P && o != InQueue && o != Settled :: At(s', o, r) <==> At(s, o, r))
  }

  lemma DisposePushes(s: State, P: Place, extra: set<Request>, d: Disposal, d': Disposal, s': State,
                      loc: map<Request, Place>)
    requires Located(s, loc) && Distinct(s.queue) && Owns(s, P, extra, d) && ElsewhereSame(s, s', P)
    requires !d.current.Idle? && d' == d.(current := Idle)
    requires forall r :: At(s', P, r) <==> r in extra + WorkHolds(d')
    requires s'.queue == s.queue + [d.current.req] && s'.settled == s.settled
    ensures Located(s', Relocate(loc, {d.current.req}, InQueue)) && Distinct(s'.queue) && Owns(s', P, extra, d')
  {
    var r := d.current.req;
    assert At(s, P, r) && !At(s, InQueue, r);
    assert Transferred(s, s', P, InQueue, {r});
    TransferLocates(s, s', P, InQueue, {r}, loc);
  }

  lemma DisposeSettles(s: State, P: Place, extra: set<Request>, d: Disposal, d': Disposal, s': State,
                       loc: map<Request, Place>)
    requires Located(s, loc) && Owns(s, P, extra, d) && ElsewhereSame(s, s', P)
    requires !d.current.Idle? && d' == d.(current := Idle)
    requires forall r :: At(s', P, r) <==> r in extra + WorkHolds(d')
    requires s'.queue == s.queue && s'.settled == s.settled + {d.current.req}
    ensures Located(s', Relocate(loc, {d.current.req}, Settled)) && Owns(s', P, extra, d')
  {
    var r := d.current.req;
    assert At(s, P, r);
    assert Transferred(s, s', P, Settled, {r});
    TransferLocates(s, s', P, Settled, {r}, loc);
  }

  lemma DisposeKeeps(s: State, P: Place, extra: set<Request>, d: Disposal, d': Disposal, s': State,
                     loc: map<Request, Place>)
    requires Located(s, loc) && Owns(s, P, extra, d) && ElsewhereSame(s, s', P)
    requires WorkHolds(d') == WorkHolds(d) && WorkOk(d')
    requires forall r :: At(s', P, r) <==> r in extra + WorkHolds(d')
    requires s'.queue == s.queue && s'.settled == s.settled
    ensures Located(s', loc) && Owns(s', P, extra, d')
  {
    assert Unmoved(s, s');
    UnmovedLocates(s, s', loc);
  }

  /** The loop changes, besides the queue and the settled requests, only the history of session k. */
  lemma DisposeFrame(s: State, k: nat, d: Disposal, a: DisposeAction)
    requires k < |s.sessions| && CanDispose(s, d, a)
    ensures var s1 := Disposed(s, k, d, a);
      && |s1.sessions| == |s.sessions|
      && s1.sessions[k] == s.sessions[k].(requeued := s1.sessions[k].requeued, failed := s1.sessions[k].failed)
      && s1.sessions == s.sessions[k := s1.sessions[k]]
      && s1 == s.(queue := s1.queue, settled := s1.settled, answers := s1.answers, sessions := s1.sessions)
  {
    var x := s.sessions[k];
    if a.Pick? || a.ReportDown? {
      RecordFrame(x, Rest(s, x, d, a).current);
    } else {
      assert s.sessions[k := x] == s.sessions;
    }
  }

  lemma RecordFrame(x: Session, c: Current)
    ensures Record(x, c) == x.(requeued := Record(x, c).requeued, failed := Record(x, c).failed)
  {
  }

  /** What one step of the loop does to its own requests, the queue and the settled requests. */
  lemma DisposeKinds(s: State, k: nat, d: Disposal, a: DisposeAction)
    requires k < |s.sessions| && CanDispose(s, d, a) && WorkOk(d)
    ensures var s1, d' := Disposed(s, k, d, a), Rest(s, s.sessions[k], d, a);
      || (!d.current.Idle? && d' == d.(current := Idle)
          && s1.queue == s.queue + [d.current.req] && s1.settled == s.settled)
      || (!d.current.Idle? && d' == d.(current := Idle)
          && s1.queue == s.queue && s1.settled == s.settled + {d.current.req})
      || (WorkHolds(d') == WorkHolds(d) && WorkOk(d') && s1.queue == s.queue && s1.settled == s.settled)
  {
  }

  lemma DisposePlaces(s: State, k: nat, P: Place, extra: set<Request>, d: Disposal, a: DisposeAction,
                      s': State, loc: map<Request, Place>)
    returns (loc': map<Request, Place>)
    requires Located(s, loc) && Distinct(s.queue) && Owns(s, P, extra, d) && ElsewhereSame(s, s', P)
    requires k < |s.sessions| && CanDispose(s, d, a)
    requires forall r :: At(s', P, r) <==> r in extra + WorkHolds(Rest(s, s.sessions[k], d, a))
    requires var s1 := Disposed(s, k, d, a); s'.queue == s1.queue && s'.settled == s1.settled
    ensures Located(s', loc') && Distinct(s'.queue) && Owns(s', P, extra, Rest(s, s.sessions[k], d, a))
  {
    DisposeKinds(s, k, d, a);
    var d' := Rest(s, s.sessions[k], d, a);
    if s'.queue != s.queue {
      DisposePushes(s, P, extra, d, d', s', loc);
      loc' := Relocate(loc, {d.current.req}, InQueue);
    } else if WorkHolds(d') == WorkHolds(d) && WorkOk(d') && s'.settled == s.settled {
      DisposeKeeps(s, P, extra, d, d', s', loc);
      loc' := loc;
    } else {
      DisposeSettles(s, P, extra, d, d', s', loc);
      loc' := Relocate(loc, {d.current.req}, Settled);
    }
  }

  // ---- a send that failed ----

  /** x' differs from x in its flags, and in at most one check that just started. */
  predicate FlagsOnly(x: Session, x': Session) {
    && x'.table == x.table && x'.receiver == x.receiver
    && (x'.checks == x.checks || x'.checks == x.checks + [LoadDraining])
  }

  ghost predicate Touches(s: State, k: nat, s': State) {
    && k < |s.sessions| == |s'.sessions| && s' == PutRun(s, k, s'.sessions[k], s'.run)
    && FlagsOnly(s.sessions[k], s'.sessions[k])
    && RunHolds(s'.run) == RunHolds(s.run) && !s'.run.BreakDispose?
  }

  lemma TouchPlaces(s: State, k: nat, s': State, loc: map<Request, Place>)
    requires Consistent(s, loc) && Touches(s, k, s')
    ensures Consistent(s', loc)
  {
    FrameSession(s, k, s'.sessions[k], s');
    UnmovedLocates(s, s', loc);
    TidyPut(s, k, s'.sessions[k], s');
  }

  lemma SendFailedFlags(x: Session, pc: RunPc, x': Session, pc': RunPc)
    requires SendFailedLocal(x, pc, x', pc')
    ensures FlagsOnly(x, x') && RunHolds(pc') == RunHolds(pc) && !pc'.BreakDispose?
  {
  }

  lemma FinishFlags(x: Session, pc: RunPc, x': Session, pc': RunPc)
    requires FinishLocal(x, pc, x', pc')
    ensures FlagsOnly(x, x') && RunHolds(pc') == RunHolds(pc) && !pc'.BreakDispose?
  {
  }

  lemma RunLocalPlaces(s: State, k: nat, a: RunAction, s': State, loc: map<Request, Place>)
    requires Consistent(s, loc) && k < |s.sessions| && RunLocalStep(s, k, a, s')
    ensures Consistent(s', loc)
  {
    if SendFailedLocal(s.sessions[k], s.run, s'.sessions[k], s'.run) {
      SendFailedFlags(s.sessions[k], s.run, s'.sessions[k], s'.run);
    } else {
      FinishFlags(s.sessions[k], s.run, s'.sessions[k], s'.run);
    }
    TouchPlaces(s, k, s', loc);
  }

  lemma BreakTransfers(s: State, k: nat, r: Request, e: Err, s': State, loc: map<Request, Place>)
    requires Consistent(s, loc) && k < |s.sessions| && s.run == BreakDrain(k, r, e)
    requires var x := s.sessions[k];
      s' == PutRun(s, k, x.(table := Drained(x.table), broken := x.broken + Calls(x.table)),
                   BreakDispose(k, r, e, DrainAll(x.table, Some(e))))
    ensures Transferred(s, s', InTable(k), InRun, Calls(s.sessions[k].table))
    ensures InSend(r) !! Calls(s.sessions[k].table)
  {
    var t := s.sessions[k].table;
    CallsHeld(t);
    forall q | q in InSend(r)
      ensures q !in Calls(t)
    {
      assert At(s, InRun, q) && !At(s, InTable(k), q);
    }
  }

  lemma BreakDrains(s: State, k: nat, r: Request, e: Err, s': State, loc: map<Request, Place>)
    requires Consistent(s, loc) && k < |s.sessions| && s.run == BreakDrain(k, r, e)
    requires var x := s.sessions[k];
      s' == PutRun(s, k, x.(table := Drained(x.table), broken := x.broken + Calls(x.table)),
                   BreakDispose(k, r, e, DrainAll(x.table, Some(e))))
    ensures Consistent(s', Relocate(loc, Calls(s.sessions[k].table), InRun))
  {
    var t := s.sessions[k].table;
    BreakTransfers(s, k, r, e, s', loc);
    TransferLocates(s, s', InTable(k), InRun, Calls(t), loc);
    TidyPut(s, k, s'.sessions[k], s');
  }

  lemma BreakDisposes(s: State, k: nat, b: DisposeAction, s': State, loc: map<Request, Place>)
    returns (loc': map<Request, Place>)
    requires Consistent(s, loc) && k < |s.sessions| && s.run.BreakDispose? && s.run.k == k
    requires BreakStep(s, k, RunDispose(b), s')
    ensures Consistent(s', loc')
  {
    var d := s.run.work;
    DisposeFrame(s, k, d, b);
    assert Owns(s, InRun, InSend(s.run.req), d);
    assert ElsewhereSame(s, s', InRun);
    loc' := DisposePlaces(s, k, InRun, InSend(s.run.req), d, b, s', loc);
    TidyPut(s, k, s'.sessions[k], s');
  }

  lemma BreakPlaces(s: State, k: nat, a: RunAction, s': State, loc: map<Request, Place>)
    returns (loc': map<Request, Place>)
    requires Consistent(s, loc) && k < |s.sessions| && RunSession(s.run) == Some(k) && BreakStep(s, k, a, s')
    ensures Consistent(s', loc')
  {
    if s.run.BreakDrain? {
      BreakDrains(s, k, s.run.req, s.run.err, s', loc);
      loc' := Relocate(loc, Calls(s.sessions[k].table), InRun);
    } else if a.RunDispose? {
      loc' := BreakDisposes(s, k, a.dispose, s', loc);
    } else {
      RunRests(s, s', loc);
      loc' := loc;
    }
  }

  lemma OutcomeSimple(s: State, k: nat, a: RunAction, s': State)
    requires k < |s.sessions| && RunSession(s.run) == Some(k) && OutcomeStep(s, k, a, s')
    ensures Simple(s, s')
  {
  }

  lemma RunPlaces(s: State, a: RunAction, s': State, loc: map<Request, Place>)
    returns (loc': map<Request, Place>)
    requires Consistent(s, loc) && RunStepOk(s, a, s')
    ensures Consistent(s', loc')
  {
    match RunSession(s.run)
    case None =>
      if AwaitStep(s, a, s') {
        AwaitSimple(s, a, s');
      } else if OpenStep(s, a, s') {
        OpenSimple(s, a, s');
      } else {
        ExitSimple(s, a, s');
      }
      loc' := SimplePlaces(s, s', loc);
    case Some(k) =>
      loc' := SessionRunPlaces(s, k, a, s', loc);
  }

  lemma SessionRunPlaces(s: State, k: nat, a: RunAction, s': State, loc: map<Request, Place>)
    returns (loc': map<Request, Place>)
    requires Consistent(s, loc) && RunStepOk(s, a, s') && RunSession(s.run) == Some(k)
    ensures Consistent(s', loc')
  {
    if AddStep(s, k, a, s') {
      loc' := AddStepPlaces(s, k, a, s', loc);
    } else if BreakStep(s, k, a, s') {
      loc' := BreakPlaces(s, k, a, s', loc);
    } else if RunLocalStep(s, k, a, s') {
      RunLocalPlaces(s, k, a, s', loc);
      loc' := loc;
    } else {
      SessionRunSimple(s, k, a, s');
      loc' := SimplePlaces(s, s', loc);
    }
  }

  lemma SessionRunSimple(s: State, k: nat, a: RunAction, s': State)
    requires k < |s.sessions| && RunSession(s.run) == Some(k)
    requires TakeStep(s, k, a, s') || SendStep(s, k, a, s') || FailOnewayStep(s, k, a, s') || OutcomeStep(s, k, a, s')
    ensures Simple(s, s')
  {
    if TakeStep(s, k, a, s') {
      TakeSimple(s, k, a, s');
    } else if SendStep(s, k, a, s') {
      SendSimple(s, k, a, s');
    } else if OutcomeStep(s, k, a, s') {
      OutcomeSimple(s, k, a, s');
    } else {
      assert Settles(s, s.run.req, s');
    }
  }

  // ---- one session: receiving, the watcher, endIfDrained, and expiry ----

  ghost predicate SameElsewhere(s: State, s': State) {
    && s'.queue == s.queue && s'.pushing.Keys == s.pushing.Keys && s'.run == s.run && s'.close == s.close
    && s'.issued == s.issued
  }

  /** Session k keeps its requests where they are. */
  lemma SessionKeeps(s: State, k: nat, s': State, loc: map<Request, Place>)
    requires Consistent(s, loc) && k < |s.sessions| == |s'.sessions| && s'.sessions == s.sessions[k := s'.sessions[k]]
    requires SameContents(s.sessions[k], s'.sessions[k]) && TidySession(s'.sessions[k])
    requires SameElsewhere(s, s') && s'.settled == s.settled
    ensures Consistent(s', loc)
  {
    FrameSession(s, k, s'.sessions[k], s');
    UnmovedLocates(s, s', loc);
    TidyPut(s, k, s'.sessions[k], s');
  }

  /** The requests in R go from the table of session k to its receiver, or to one of its checks. */
  ghost predicate LeaveTable(x: Session, x': Session, R: set<Request>) {
    && (forall r :: Holds(x'.table, r) <==> Holds(x.table, r) && r !in R)
    && (forall r <- R :: Holds(x.table, r))
  }

  lemma TableToReceiver(s: State, k: nat, R: set<Request>, s': State, loc: map<Request, Place>)
    requires Consistent(s, loc) && k < |s.sessions| == |s'.sessions| && s' == Put(s, k, s'.sessions[k])
    requires TidySession(s'.sessions[k]) && LeaveTable(s.sessions[k], s'.sessions[k], R)
    requires ReceiverHolds(s.sessions[k].receiver) == {} && ReceiverHolds(s'.sessions[k].receiver) == R
    requires s'.sessions[k].checks == s.sessions[k].checks
    ensures Consistent(s', Relocate(loc, R, InReceiver(k)))
  {
    assert Transferred(s, s', InTable(k), InReceiver(k), R);
    TransferLocates(s, s', InTable(k), InReceiver(k), R, loc);
    TidyPut(s, k, s'.sessions[k], s');
  }

  lemma TableToCheck(s: State, k: nat, i: nat, R: set<Request>, s': State, loc: map<Request, Place>)
    requires Consistent(s, loc) && k < |s.sessions| == |s'.sessions| && s' == Put(s, k, s'.sessions[k])
    requires TidySession(s'.sessions[k]) && LeaveTable(s.sessions[k], s'.sessions[k], R)
    requires i < |s.sessions[k].checks| == |s'.sessions[k].checks|
    requires s'.sessions[k].checks == s.sessions[k].checks[i := s'.sessions[k].checks[i]]
    requires CheckHolds(s.sessions[k].checks[i]) == {} && CheckHolds(s'.sessions[k].checks[i]) == R
    requires s'.sessions[k].receiver == s.sessions[k].receiver
    ensures Consistent(s', Relocate(loc, R, InCheck(k, i)))
  {
    assert Transferred(s, s', InTable(k), InCheck(k, i), R);
    TransferLocates(s, s', InTable(k), InCheck(k, i), R, loc);
    TidyPut(s, k, s'.sessions[k], s');
  }

  lemma ReceiverSettles(s: State, k: nat, r: Request, s': State, loc: map<Request, Place>)
    requires Consistent(s, loc) && k < |s.sessions| && s.sessions[k].receiver == Deliver(r)
    requires s' == Put(s, k, s.sessions[k].(receiver := StartCheck))
                     .(settled := s.settled + {r}, answers := s'.answers)
    ensures Consistent(s', Relocate(loc, {r}, Settled))
  {
    assert Transferred(s, s', InReceiver(k), Settled, {r});
    TransferLocates(s, s', InReceiver(k), Settled, {r}, loc);
    TidyPut(s, k, s'.sessions[k], s');
  }

  /** A step of a loop that session k itself runs, seen from everywhere else. */
  lemma OwnerFrame(s: State, k: nat, P: Place, d: Disposal, b: DisposeAction, x': Session, s': State)
    requires k < |s.sessions| && CanDispose(s, d, b) && (P == InReceiver(k) || P.InCheck?)
    requires s' == Put(Disposed(s, k, d, b), k, x') && x'.table == s.sessions[k].table
    requires P.InReceiver? ==> x'.checks == s.sessions[k].checks
    requires P.InCheck? ==>
      && P.k == k && P.i < |s.sessions[k].checks| && x'.receiver == s.sessions[k].receiver
      && |x'.checks| == |s.sessions[k].checks| && x'.checks == s.sessions[k].checks[P.i := x'.checks[P.i]]
    ensures ElsewhereSame(s, s', P)
    ensures s'.sessions == s.sessions[k := x'] && s'.run == s.run
  {
    DisposeFrame(s, k, d, b);
    assert s'.sessions == s.sessions[k := x'];
  }

  lemma ReceiverDisposes(s: State, k: nat, d: Disposal, b: DisposeAction, s': State, loc: map<Request, Place>)
    returns (loc': map<Request, Place>)
    requires Consistent(s, loc) && k < |s.sessions| && s.sessions[k].receiver == DisposeCalls(d)
    requires ReceiverDisposeStep(s, k, d, b, s')
    ensures Consistent(s', loc')
  {
    DisposeFrame(s, k, d, b);
    OwnerFrame(s, k, InReceiver(k), d, b, s'.sessions[k], s');
    assert Owns(s, InReceiver(k), {}, d);
    loc' := DisposePlaces(s, k, InReceiver(k), {}, d, b, s', loc);
    TidyPut(s, k, s'.sessions[k], s');
  }

  lemma CheckDisposes(s: State, k: nat, i: nat, b: DisposeAction, s': State, loc: map<Request, Place>)
    returns (loc': map<Request, Place>)
    requires Consistent(s, loc) && CheckStepOk(s, k, i, CheckDispose(b), s')
    ensures Consistent(s', loc')
  {
    var d := s.sessions[k].checks[i].work;
    DisposeFrame(s, k, d, b);
    OwnerFrame(s, k, InCheck(k, i), d, b, s'.sessions[k], s');
    assert Owns(s, InCheck(k, i), {}, d);
    loc' := DisposePlaces(s, k, InCheck(k, i), {}, d, b, s', loc);
    TidyPut(s, k, s'.sessions[k], s');
  }

  /** A receiving step either leaves all calls in place or takes calls from the table. */
  ghost predicate ReceiverMoves(x: Session, x': Session) {
    && TidySession(x')
    && (|| SameContents(x, x')
        || (&& LeaveTable(x, x', ReceiverHolds(x'.receiver))
            && ReceiverHolds(x.receiver) == {} && x'.checks == x.checks))
  }

  predicate EmptyHanded(pc: Receiver) {
    !pc.Deliver? && (pc.DisposeCalls? ==> WorkDone(pc.work))
  }

  /** x' has the same table, and its receiver and its new check hold no request. */
  ghost predicate Quiet(x: Session, x': Session) {
    && x'.table == x.table
    && EmptyHanded(x.receiver) && EmptyHanded(x'.receiver)
    && (x'.checks == x.checks || x'.checks == x.checks + [LoadDraining])
  }

  lemma QuietMoves(x: Session, x': Session)
    requires Quiet(x, x') && TidySession(x)
    ensures ReceiverMoves(x, x')
  {
    assert ReceiverHolds(x.receiver) == {} && ReceiverHolds(x'.receiver) == {};
    assert SameContents(x, x');
  }

  lemma ReceiveQuiet(x: Session, a: ReceiverAction, x': Session)
    requires ReceiveLocal(x, a, x')
    ensures Quiet(x, x')
  {
    assert x' == x.(receiver := x'.receiver);
  }

  lemma AcceptQuiet(x: Session, x': Session)
    requires AcceptLocal(x, x')
    ensures Quiet(x, x')
  {
  }

  lemma ReceiveFailedQuiet(x: Session, x': Session)
    requires ReceiveFailedLocal(x, x') && !x.receiver.DrainCalls?
    ensures Quiet(x, x')
  {
    if x.receiver.DisposeCalls? {
      assert x' == x.(receiver := ReceiverDone);
    } else {
      FailureQuiet(x, x');
    }
  }

  lemma FailureQuiet(x: Session, x': Session)
    requires ReceiveFailedLocal(x, x') && !x.receiver.DrainCalls? && !x.receiver.DisposeCalls?
    ensures Quiet(x, x')
  {
    match x.receiver
    case SwapHandoff(_) =>
    case SetRefusal(_) =>
    case CloseRefused(_) =>
    case EndSession(_) =>
    case _ =>
  }

  lemma TakeMoves(x: Session, id: nat, x': Session)
    requires x.receiver.Handle? && id in x.table.calls && !x.table.calls[id].req.streaming && TidySession(x)
    requires x' == x.(table := Taken(x.table, id), taken := x'.taken, receiver := Deliver(x.table.calls[id].req))
    ensures ReceiverMoves(x, x')
  {
    var r := x.table.calls[id].req;
    assert LeaveTable(x, x', {r});
  }

  lemma HandleMoves(x: Session, f: Frame, x': Session)
    requires x.receiver == Handle(f) && HandleLocal(x, f, x') && TidySession(x)
    ensures ReceiverMoves(x, x')
  {
    if f.Response? && f.id in x.table.calls && !x.table.calls[f.id].req.streaming {
      TakeMoves(x, f.id, x');
    } else {
      QuietMoves(x, x');
    }
  }

  lemma DrainMoves(x: Session, e: Err, x': Session)
    requires x.receiver == DrainCalls(e) && TidySession(x)
    requires x' == x.(table := Drained(x.table), receiver := DisposeCalls(DrainAll(x.table, Some(e))))
    ensures ReceiverMoves(x, x')
  {
    CallsHeld(x.table);
    assert LeaveTable(x, x', Calls(x.table));
  }

  lemma ReceiverLocalMoves(x: Session, a: ReceiverAction, x': Session)
    requires ReceiverLocal(x, a, x') && TidySession(x)
    ensures ReceiverMoves(x, x')
  {
    if x.receiver.Handle? {
      HandleMoves(x, x.receiver.frame, x');
    } else if x.receiver.DrainCalls? {
      DrainMoves(x, x.receiver.err, x');
    } else {
      if Receiving(x.receiver) {
        ReceiveQuiet(x, a, x');
      } else if Accepting(x.receiver) {
        AcceptQuiet(x, x');
      } else if !x.receiver.StartCheck? {
        ReceiveFailedQuiet(x, x');
      }
      QuietMoves(x, x');
    }
  }

  lemma ReceiverLocalPlaces(s: State, k: nat, s': State, loc: map<Request, Place>)
    returns (loc': map<Request, Place>)
    requires Consistent(s, loc) && k < |s.sessions| == |s'.sessions| && s' == Put(s, k, s'.sessions[k])
    requires ReceiverMoves(s.sessions[k], s'.sessions[k])
    ensures Consistent(s', loc')
  {
    var x, x' := s.sessions[k], s'.sessions[k];
    if SameContents(x, x') {
      SessionKeeps(s, k, s', loc);
      loc' := loc;
    } else {
      TableToReceiver(s, k, ReceiverHolds(x'.receiver), s', loc);
      loc' := Relocate(loc, ReceiverHolds(x'.receiver), InReceiver(k));
    }
  }

  lemma DeliverPlaces(s: State, k: nat, delivered: bool, s': State, loc: map<Request, Place>)
    returns (loc': map<Request, Place>)
    requires Consistent(s, loc) && k < |s.sessions| && DeliverStep(s, k, delivered, s')
    ensures Consistent(s', loc')
  {
    var x := s.sessions[k];
    if x.receiver.Deliver? {
      ReceiverSettles(s, k, x.receiver.req, s', loc);
      loc' := Relocate(loc, {x.receiver.req}, Settled);
    } else {
      SessionKeeps(s, k, s', loc);
      loc' := loc;
    }
  }

  lemma ReceiverPlaces(s: State, k: nat, a: ReceiverAction, s': State, loc: map<Request, Place>)
    returns (loc': map<Request, Place>)
    requires Consistent(s, loc) && ReceiverStepOk(s, k, a, s')
    ensures Consistent(s', loc')
  {
    match a
    case ReceiverReply(d) => loc' := DeliverPlaces(s, k, d, s', loc);
    case ReceiverDispose(b) => loc' := ReceiverDisposes(s, k, s.sessions[k].receiver.work, b, s', loc);
    case _ =>
      ReceiverLocalMoves(s.sessions[k], a, s'.sessions[k]);
      loc' := ReceiverLocalPlaces(s, k, s', loc);
  }

  lemma WatchedKeeps(x: Session, x': Session)
    requires x' == x.(table := Watched(x.table), watcher := CloseDrain) && TidySession(x)
    ensures SameContents(x, x') && TidySession(x')
  {
  }

  lemma FlagsKeep(x: Session, x': Session)
    requires FlagsOnly(x, x') && TidySession(x)
    ensures SameContents(x, x') && TidySession(x')
  {
  }

  lemma WatcherKinds(x: Session, goAway: bool, x': Session)
    requires WatcherLocal(x, goAway, x') && TidySession(x)
    ensures SameContents(x, x') && TidySession(x')
  {
    if x.watcher.WatchCalls? {
      WatchedKeeps(x, x');
    } else {
      FlagsKeep(x, x');
    }
  }

  lemma WatcherPlaces(s: State, k: nat, goAway: bool, s': State, loc: map<Request, Place>)
    requires Consistent(s, loc) && WatcherStepOk(s, k, goAway, s')
    ensures Consistent(s', loc)
  {
    WatcherKinds(s.sessions[k], goAway, s'.sessions[k]);
    SessionKeeps(s, k, s', loc);
  }

  lemma CheckDrains(x: Session, i: nat, x': Session)
    requires i < |x.checks| && x.checks[i].Drain? && CheckLocal(x, i, x') && TidySession(x)
    ensures TidySession(x') && LeaveTable(x, x', CheckHolds(x'.checks[i]))
  {
    CallsHeld(x.table);
    assert LeaveTable(x, x', Calls(x.table));
  }

  lemma CheckKeeps(x: Session, i: nat, x': Session)
    requires i < |x.checks| && !x.checks[i].Drain? && CheckLocal(x, i, x') && TidySession(x)
    ensures TidySession(x') && SameContents(x, x')
  {
    assert x'.table == x.table && x'.checks == x.checks[i := x'.checks[i]];
    assert CheckHolds(x.checks[i]) == {} && CheckHolds(x'.checks[i]) == {};
  }

  lemma CheckPlaces(s: State, k: nat, i: nat, a: CheckAction, s': State, loc: map<Request, Place>)
    returns (loc': map<Request, Place>)
    requires Consistent(s, loc) && CheckStepOk(s, k, i, a, s')
    ensures Consistent(s', loc')
  {
    if a.CheckDispose? {
      loc' := CheckDisposes(s, k, i, a.dispose, s', loc);
    } else {
      var x, x' := s.sessions[k], s'.sessions[k];
      if !x.checks[i].Drain? {
        CheckKeeps(x, i, x');
        SessionKeeps(s, k, s', loc);
        loc' := loc;
      } else {
        CheckDrains(x, i, x');
        TableToCheck(s, k, i, CheckHolds(x'.checks[i]), s', loc);
        loc' := Relocate(loc, CheckHolds(x'.checks[i]), InCheck(k, i));
      }
    }
  }

  lemma ExpireHolds(t: Table, r: Request)
    requires WellKeyed(t) && Holds(t, r)
    ensures var t' := Expired(t, r.id, t.calls[r.id].serial);
      WellKeyed(t') && forall q :: Holds(t', q) <==> Holds(t, q) && q !in {r}
  {
  }

  lemma ExpirePlaces(s: State, k: nat, r: Request, s': State, loc: map<Request, Place>)
    requires Consistent(s, loc) && ExpireStep(s, k, r, s')
    ensures Consistent(s', Relocate(loc, {r}, Settled))
  {
    var x := s.sessions[k];
    var x1 := x.(table := Expired(x.table, r.id, x.table.calls[r.id].serial));
    var s1 := Put(s, k, x1).(settled := s.settled + {r});
    ExpireHolds(x.table, r);
    TableSettles(s, k, x1.table, {r}, s1, loc);
    assert s'.sessions == s1.sessions[k := s'.sessions[k]];
    FlagsKeep(x1, s'.sessions[k]);
    SessionKeeps(s1, k, s', Relocate(loc, {r}, Settled));
  }

  // ---- Close ----

  lemma QueueToClose(s: State, r: Request, s': State, loc: map<Request, Place>)
    requires Consistent(s, loc) && s.close.CloseDrainQueue? && s.queue != [] && r == s.queue[0]
    requires s' == s.(queue := s.queue[1..], close := CloseFail(r))
    ensures Consistent(s', Relocate(loc, {r}, InClose))
  {
    assert s.queue == [r] + s'.queue;
    assert Transferred(s, s', InQueue, InClose, {r});
    TransferLocates(s, s', InQueue, InClose, {r}, loc);
  }

  lemma CloseSettles(s: State, r: Request, s': State, loc: map<Request, Place>)
    requires Consistent(s, loc) && s.close == CloseFail(r)
    requires s' == s.(settled := s.settled + {r}, answers := s'.answers, close := CloseDrainQueue)
    ensures Consistent(s', Relocate(loc, {r}, Settled))
  {
    assert Transferred(s, s', InClose, Settled, {r});
    TransferLocates(s, s', InClose, Settled, {r}, loc);
  }

  lemma ClosePlaces(s: State, a: CloseAction, s': State, loc: map<Request, Place>)
    returns (loc': map<Request, Place>)
    requires Consistent(s, loc) && CloseStepOk(s, a, s')
    ensures Consistent(s', loc')
  {
    match a
    case CloseTake =>
      QueueToClose(s, s.queue[0], s', loc);
      loc' := Relocate(loc, {s.queue[0]}, InClose);
    case CloseReply(_) =>
      CloseSettles(s, s.close.req, s', loc);
      loc' := Relocate(loc, {s.close.req}, Settled);
    case CloseProceed =>
      Frame(s, s');
      UnmovedLocates(s, s', loc);
      loc' := loc;
  }

  // ---- every step ----

  lemma PushStays(s: State, s': State, loc: map<Request, Place>)
    requires Consistent(s, loc) && s' == s.(pushing := s'.pushing) && s'.pushing.Keys == s.pushing.Keys
    ensures Consistent(s', loc)
  {
    Frame(s, s');
    UnmovedLocates(s, s', loc);
  }

  lemma PushBeginPlaces(s: State, r: Request, admit: bool, s': State, loc: map<Request, Place>)
    returns (loc': map<Request, Place>)
    requires Consistent(s, loc) && PushBeginStep(s, r, admit, s')
    ensures Consistent(s', loc')
  {
    if !s.queueClosed && !s.pushing[r].wait && admit {
      PushAdmitPlaces(s, r, s', loc);
      loc' := Relocate(loc, {r}, InQueue);
    } else {
      PushStays(s, s', loc);
      loc' := loc;
    }
  }

  lemma PushPlaces(s: State, a: Action, s': State, loc: map<Request, Place>)
    returns (loc': map<Request, Place>)
    requires Consistent(s, loc) && Step(s, a, s')
    requires a.Enqueue? || a.PushBegin? || a.PushAdmit? || a.PushGiveUp? || a.PushFail?
    ensures Consistent(s', loc')
  {
    match a
    case Enqueue(r, wait) =>
      EnqueuePlaces(s, r, wait, s', loc);
      loc' := loc[r := InPush];
    case PushBegin(r, admit) => loc' := PushBeginPlaces(s, r, admit, s', loc);
    case PushAdmit(r) =>
      PushAdmitPlaces(s, r, s', loc);
      loc' := Relocate(loc, {r}, InQueue);
    case PushGiveUp(_, _) =>
      PushStays(s, s', loc);
      loc' := loc;
    case PushFail(r, d) =>
      PushFailPlaces(s, r, d, s', loc);
      loc' := Relocate(loc, {r}, Settled);
  }

  lemma ContextPlaces(s: State, a: Action, s': State, loc: map<Request, Place>)
    requires Consistent(s, loc) && Step(s, a, s') && (a.EndCallContext? || a.EndParentContext?)
    ensures Consistent(s', loc)
  {
    Frame(s, s');
    UnmovedLocates(s, s', loc);
  }

  /** Every step keeps each request in exactly one place. */
  lemma StepPlaces(s: State, a: Action, s': State, loc: map<Request, Place>)
    returns (loc': map<Request, Place>)
    requires Consistent(s, loc) && Step(s, a, s')
    ensures Consistent(s', loc')
  {
    if a.RunStep? {
      loc' := RunPlaces(s, a.run, s', loc);
    } else if OfSession(a) {
      loc' := SessionStepPlaces(s, a, s', loc);
    } else {
      loc' := EntryPlaces(s, a, s', loc);
    }
  }

  lemma SessionStepPlaces(s: State, a: Action, s': State, loc: map<Request, Place>)
    returns (loc': map<Request, Place>)
    requires Consistent(s, loc) && Step(s, a, s') && OfSession(a)
    ensures Consistent(s', loc')
  {
    loc' := loc;
    if a.ReceiverStep? {
      loc' := ReceiverPlaces(s, a.k, a.receive, s', loc);
    } else if a.CheckStep? {
      loc' := CheckPlaces(s, a.k, a.i, a.check, s', loc);
    } else if a.Expire? {
      ExpirePlaces(s, a.k, a.req, s', loc);
      loc' := Relocate(loc, {a.req}, Settled);
    } else if a.WatcherStep? {
      WatcherPlaces(s, a.k, a.goAway, s', loc);
    } else {
      PropagatePlaces(s, a.k, s', loc);
    }
  }

  lemma EntryPlaces(s: State, a: Action, s': State, loc: map<Request, Place>)
    returns (loc': map<Request, Place>)
    requires Consistent(s, loc) && Step(s, a, s') && !OfSession(a) && !a.RunStep?
    ensures Consistent(s', loc')
  {
    if a.CloseStep? {
      loc' := ClosePlaces(s, a.close, s', loc);
    } else if a.EndCallContext? || a.EndParentContext? {
      ContextPlaces(s, a, s', loc);
      loc' := loc;
    } else {
      loc' := PushPlaces(s, a, s', loc);
    }
  }

  lemma PropagatePlaces(s: State, k: nat, s': State, loc: map<Request, Place>)
    requires Consistent(s, loc) && PropagateEndStep(s, k, s')
    ensures Consistent(s', loc)
  {
    SessionKeeps(s, k, s', loc);
  }
}
