/**
 * The request dispatcher: handlers run one at a time, in the order they were admitted. The
 * pushers, the handlers and whoever calls a release function interleave freely; each step is one
 * lock region or one operation on the `slots` channel.
 */
module Dispatcher {

  /** The n-th request that one source offers; a source offers one request at a time. */
  datatype Item = Item(source: nat, number: nat)

  /** A call of push or tryPush, from the wait for a slot to the start of the handler. */
  datatype Pusher =
    | AwaitSlot(item: Item)
    | Admit(item: Item)
    | Refund(item: Item)
    | First(item: Item)
    | Launch(item: Item)

  /** A started handler. `Taking` is entered once, by its release function or by its return. */
  datatype Handler = Unreleased | Taking | Discarding(left: nat) | Fetch(next: Item) | Begin(next: Item) | Released

  datatype State = State(
    size: nat,
    stopped: bool,
    tokens: nat, // the tokens in the slots channel
    running: bool,
    queue: seq<Item>,
    pushers: map<nat, Pusher>,
    handlers: map<Item, Handler>,
    offered: map<nat, nat>,     // how many requests each source has offered
    admitted: seq<Item>,        // history: admit order
    started: seq<Item>,         // history: start order
    dropped: seq<Item>,         // history: what a stop discarded
    takes: multiset<Item>)      // history: the calls of take each handler led to

  predicate Init(s: State) {
    && 0 < s.size && !s.stopped && s.tokens == 0 && !s.running && s.queue == []
    && s.pushers == map[] && s.handlers == map[] && s.offered == map[]
    && s.admitted == [] && s.started == [] && s.dropped == [] && s.takes == multiset{}
  }

  datatype Action =
    | Stop
    | Offer(source: nat)
    | AcquireSlot(source: nat)
    | GiveUp(source: nat)
    | AdmitItem(source: nat)
    | ReturnSlot(source: nat)
    | LaunchItem(source: nat)
    | Finish(item: Item)     // the handler calls release or returns, whichever comes first
    | Take(item: Item)
    | ReceiveSlot(item: Item)
    | BeginNext(item: Item)

  function Count(m: map<nat, nat>, k: nat): nat {
    if k in m then m[k] else 0
  }

  /** Whether some handler holds the dispatcher's lock, while it discards the queue. */
  predicate Locked(s: State) {
    exists h <- s.handlers :: s.handlers[h].Discarding?
  }

  predicate PushStep(s: State, a: Action, s': State)
    requires a.Offer? || a.AcquireSlot? || a.GiveUp? || a.ReturnSlot? || a.LaunchItem?
  {
    var k := a.source;
    match a
    case Offer(_) =>
      && k !in s.pushers
      && s' == s.(pushers := s.pushers[k := AwaitSlot(Item(k, Count(s.offered, k)))],
                  offered := s.offered[k := Count(s.offered, k) + 1])
    case AcquireSlot(_) =>
      && k in s.pushers && s.pushers[k].AwaitSlot? && s.tokens < s.size
      && s' == s.(tokens := s.tokens + 1, pushers := s.pushers[k := Admit(s.pushers[k].item)])
    case GiveUp(_) => k in s.pushers && s.pushers[k].AwaitSlot? && s' == s.(pushers := s.pushers - {k})
    case ReturnSlot(_) =>
      && k in s.pushers && s.tokens > 0
      && ((s.pushers[k].Refund? && s' == s.(tokens := s.tokens - 1, pushers := s.pushers - {k}))
          || (s.pushers[k].First? &&
              s' == s.(tokens := s.tokens - 1, pushers := s.pushers[k := Launch(s.pushers[k].item)])))
    case LaunchItem(_) =>
      && k in s.pushers && s.pushers[k].Launch?
      && var i := s.pushers[k].item;
      s' == s.(pushers := s.pushers - {k}, handlers := s.handlers[i := Unreleased], started := s.started + [i])
  }

  /** The lock region of admit. */
  predicate AdmitStep(s: State, k: nat, s': State) {
    && k in s.pushers && s.pushers[k].Admit? && !Locked(s)
    && var i := s.pushers[k].item;
    if s.stopped then s' == s.(pushers := s.pushers[k := Refund(i)])
    else if s.running then
      s' == s.(pushers := s.pushers - {k}, queue := s.queue + [i], admitted := s.admitted + [i])
    else s' == s.(pushers := s.pushers[k := First(i)], running := true, admitted := s.admitted + [i])
  }

  function Set(s: State, h: Item, stage: Handler): map<Item, Handler> {
    s.handlers[h := stage]
  }

  /** The lock region of take; a stopped dispatcher discards its queue, one slot at a time. */
  predicate TakeStep(s: State, h: Item, s': State) {
    && h in s.handlers && s.handlers[h].Taking? && !Locked(s)
    && var t := s.takes + multiset{h};
    if s.queue == [] then s' == s.(handlers := Set(s, h, Released), running := false, takes := t)
    else if s.stopped then
      s' == s.(handlers := Set(s, h, Discarding(|s.queue|)), queue := [], dropped := s.queue + s.dropped, takes := t)
    else s' == s.(handlers := Set(s, h, Fetch(s.queue[0])), queue := s.queue[1..], takes := t)
  }

  predicate HandlerStep(s: State, a: Action, s': State)
    requires a.Finish? || a.ReceiveSlot? || a.BeginNext?
  {
    var h := a.item;
    && h in s.handlers
    && match (a, s.handlers[h])
       case (Finish(_), Unreleased) => s' == s.(handlers := Set(s, h, Taking))
       case (ReceiveSlot(_), Discarding(n)) =>
         && s.tokens > 0
         && (if n > 1 then s' == s.(tokens := s.tokens - 1, handlers := Set(s, h, Discarding(n - 1)))
             else s' == s.(tokens := s.tokens - 1, handlers := Set(s, h, Released), running := false))
       case (ReceiveSlot(_), Fetch(i)) =>
         s.tokens > 0 && s' == s.(tokens := s.tokens - 1, handlers := Set(s, h, Begin(i)))
       case (BeginNext(_), Begin(i)) =>
         s' == s.(handlers := Set(s, h, Released)[i := Unreleased], started := s.started + [i])
       case _ => false
  }

  predicate Step(s: State, a: Action, s': State) {
    match a
    case Stop => s' == s.(stopped := true)
    case AdmitItem(k) => AdmitStep(s, k, s')
    case Take(h) => TakeStep(s, h, s')
    case Finish(_) => HandlerStep(s, a, s')
    case ReceiveSlot(_) => HandlerStep(s, a, s')
    case BeginNext(_) => HandlerStep(s, a, s')
    case _ => PushStep(s, a, s')
  }

  // ---- the baton ----

  /** Whoever may start the next handler: a pusher that found the dispatcher idle, or a handler. */
  datatype Baton = Nobody | ByPusher(source: nat) | ByHandler(item: Item)

  predicate Holds(s: State, b: Baton) {
    match b
    case Nobody => false
    case ByPusher(k) => k in s.pushers && (s.pushers[k].First? || s.pushers[k].Launch?)
    case ByHandler(h) => h in s.handlers && !s.handlers[h].Released?
  }

  /** Exactly one holds the baton while a handler is running, and nobody otherwise. */
  ghost predicate BatonOk(s: State, b: Baton) {
    && (s.running <==> b != Nobody) && (b != Nobody ==> Holds(s, b))
    && (forall c :: Holds(s, c) ==> c == b)
  }

  /** The item that is admitted but neither started nor queued. */
  function InHand(s: State, b: Baton): seq<Item>
    requires b != Nobody ==> Holds(s, b)
  {
    match b
    case Nobody => []
    case ByPusher(k) => [s.pushers[k].item]
    case ByHandler(h) => if s.handlers[h].Fetch? || s.handlers[h].Begin? then [s.handlers[h].next] else []
  }

  /** Admit order is start order, then the item in hand, then the queue, then what a stop discarded. */
  ghost predicate OrderOk(s: State, b: Baton)
    requires BatonOk(s, b)
  {
    && s.admitted == s.started + InHand(s, b) + s.queue + s.dropped
    && (s.dropped != [] ==> s.stopped)
    && (!s.running ==> s.queue == [])
  }

  predicate Unadmitted(p: Pusher) {
    p.AwaitSlot? || p.Admit? || p.Refund?
  }

  /** Each source's admitted requests are in the order it offered them. */
  ghost predicate SourcesOk(s: State) {
    && (forall k <- s.pushers :: Count(s.offered, k) > 0 && s.pushers[k].item == Item(k, Count(s.offered, k) - 1))
    && (forall i | 0 <= i < |s.admitted| :: s.admitted[i].number < Count(s.offered, s.admitted[i].source))
    && (forall i, j | 0 <= i < j < |s.admitted| ::
          s.admitted[i].source == s.admitted[j].source ==> s.admitted[i].number < s.admitted[j].number)
    && (forall k <- s.pushers :: Unadmitted(s.pushers[k]) ==> s.pushers[k].item !in s.admitted)
  }

  /** Handlers are what was started; each led to one take, and only after it finished. */
  ghost predicate TakesOk(s: State) {
    && (forall h :: h in s.handlers <==> h in s.started)
    && (forall h ::
          s.takes[h] == if h in s.handlers && !s.handlers[h].Unreleased? && !s.handlers[h].Taking? then 1 else 0)
    && (forall h <- s.handlers :: s.handlers[h].Discarding? ==> s.handlers[h].left > 0 && s.queue == [] && s.stopped)
  }

  // ---- slots ----

  /** The pushers that took a slot and have not given it back or passed it to the queue. */
  function SlotHolders(s: State): set<nat> {
    set k | k in s.pushers && (s.pushers[k].Admit? || s.pushers[k].Refund? || s.pushers[k].First?)
  }

  /** The slots the baton holder still has to give back. */
  function Owed(s: State, b: Baton): nat {
    if b.ByHandler? && b.item in s.handlers then
      match s.handlers[b.item]
      case Fetch(_) => 1
      case Discarding(n) => n
      case _ => 0
    else 0
  }

  ghost predicate SlotsOk(s: State, b: Baton) {
    s.tokens == |s.queue| + |SlotHolders(s)| + Owed(s, b) && s.tokens <= s.size
  }

  ghost predicate Inv(s: State, b: Baton) {
    BatonOk(s, b) && OrderOk(s, b) && SourcesOk(s) && TakesOk(s) && SlotsOk(s, b)
  }

  // ---- every step keeps each part ----

  /** Who holds the baton after a step. */
  function NextBaton(s: State, a: Action, b: Baton): Baton {
    match a
    case AdmitItem(k) => if !s.stopped && !s.running then ByPusher(k) else b
    case LaunchItem(k) => if k in s.pushers then ByHandler(s.pushers[k].item) else b
    case Take(_) => if s.queue == [] then Nobody else b
    case ReceiveSlot(h) => if h in s.handlers && s.handlers[h].Discarding? && s.handlers[h].left <= 1 then Nobody else b
    case BeginNext(h) => if h in s.handlers && s.handlers[h].Begin? then ByHandler(s.handlers[h].next) else b
    case _ => b
  }

  lemma FreshStart(s: State, b: Baton, i: Item)
    requires BatonOk(s, b) && OrderOk(s, b) && SourcesOk(s) && InHand(s, b) == [i]
    ensures i !in s.started
  {
    assert s.admitted[|s.started|] == i;
    forall j | 0 <= j < |s.started|
      ensures s.started[j] != i
    {
      assert s.admitted[j] == s.started[j];
    }
  }

  lemma OfferBaton(s: State, a: Action, s': State, b: Baton)
    requires BatonOk(s, b) && (a.Offer? || a.AcquireSlot? || a.GiveUp? || a.ReturnSlot?) && PushStep(s, a, s')
    ensures BatonOk(s', b)
  {
    assert forall c :: Holds(s', c) <==> Holds(s, c);
  }

  lemma LaunchBaton(s: State, k: nat, s': State, b: Baton)
    requires Inv(s, b) && PushStep(s, LaunchItem(k), s')
    ensures BatonOk(s', ByHandler(s.pushers[k].item)) && s.pushers[k].item !in s.started
  {
    var i := s.pushers[k].item;
    assert Holds(s, ByPusher(k));
    FreshStart(s, b, i);
    forall c | Holds(s', c)
      ensures c == ByHandler(i)
    {
      if c != ByHandler(i) {
        assert Holds(s, c);
      }
    }
  }

  lemma AdmitBaton(s: State, k: nat, s': State, b: Baton)
    requires BatonOk(s, b) && AdmitStep(s, k, s')
    ensures BatonOk(s', NextBaton(s, AdmitItem(k), b))
  {
    forall c | Holds(s', c)
      ensures c == NextBaton(s, AdmitItem(k), b)
    {
      if c != ByPusher(k) {
        assert Holds(s, c);
      }
    }
  }

  lemma TakeBaton(s: State, h: Item, s': State, b: Baton)
    requires BatonOk(s, b) && TakeStep(s, h, s')
    ensures BatonOk(s', NextBaton(s, Take(h), b))
  {
    assert Holds(s, ByHandler(h));
    forall c | Holds(s', c)
      ensures c == b
    {
      assert Holds(s, c);
    }
  }

  lemma HandlerBaton(s: State, a: Action, s': State, b: Baton)
    requires Inv(s, b) && (a.Finish? || a.ReceiveSlot? || a.BeginNext?) && HandlerStep(s, a, s')
    ensures BatonOk(s', NextBaton(s, a, b))
  {
    assert Holds(s, ByHandler(a.item));
    if a.BeginNext? {
      FreshStart(s, b, s.handlers[a.item].next);
    }
    forall c | Holds(s', c)
      ensures c == NextBaton(s, a, b)
    {
      if c != NextBaton(s, a, b) {
        assert Holds(s, c);
      }
    }
  }

  /** Every step keeps the baton unique. */
  lemma StepBaton(s: State, a: Action, s': State, b: Baton)
    requires Inv(s, b) && Step(s, a, s')
    ensures BatonOk(s', NextBaton(s, a, b))
  {
    match a
    case Stop => assert forall c :: Holds(s', c) <==> Holds(s, c);
    case AdmitItem(k) => AdmitBaton(s, k, s', b);
    case Take(h) => TakeBaton(s, h, s', b);
    case LaunchItem(k) => LaunchBaton(s, k, s', b);
    case Finish(_) => HandlerBaton(s, a, s', b);
    case ReceiveSlot(_) => HandlerBaton(s, a, s', b);
    case BeginNext(_) => HandlerBaton(s, a, s', b);
    case _ => OfferBaton(s, a, s', b);
  }

  lemma HandsOrder(s: State, a: Action, s': State, b: Baton)
    requires BatonOk(s, b) && OrderOk(s, b) && (a.LaunchItem? || a.BeginNext?) && Step(s, a, s')
    requires BatonOk(s', NextBaton(s, a, b))
    ensures OrderOk(s', NextBaton(s, a, b))
  {
    assert Holds(s, if a.LaunchItem? then ByPusher(a.source) else ByHandler(a.item));
    assert InHand(s', NextBaton(s, a, b)) == [];
  }

  lemma AdmitOrder(s: State, k: nat, s': State, b: Baton)
    requires BatonOk(s, b) && OrderOk(s, b) && AdmitStep(s, k, s') && BatonOk(s', NextBaton(s, AdmitItem(k), b))
    ensures OrderOk(s', NextBaton(s, AdmitItem(k), b))
  {
    if b.ByPusher? {
      assert Holds(s, b);
    }
    assert s.running ==> InHand(s', b) == InHand(s, b);
  }

  lemma TakeOrder(s: State, h: Item, s': State, b: Baton)
    requires BatonOk(s, b) && OrderOk(s, b) && TakeStep(s, h, s') && BatonOk(s', NextBaton(s, Take(h), b))
    ensures OrderOk(s', NextBaton(s, Take(h), b))
  {
    assert Holds(s, ByHandler(h));
  }

  lemma OfferOrder(s: State, a: Action, s': State, b: Baton)
    requires BatonOk(s, b) && OrderOk(s, b) && BatonOk(s', b)
    requires (a.Offer? || a.AcquireSlot? || a.GiveUp? || a.ReturnSlot?) && PushStep(s, a, s')
    ensures OrderOk(s', b)
  {
    assert InHand(s', b) == InHand(s, b);
  }

  lemma SlotOrder(s: State, a: Action, s': State, b: Baton)
    requires BatonOk(s, b) && OrderOk(s, b) && TakesOk(s) && BatonOk(s', NextBaton(s, a, b))
    requires (a.Finish? || a.ReceiveSlot?) && HandlerStep(s, a, s')
    ensures OrderOk(s', NextBaton(s, a, b))
  {
    assert Holds(s, ByHandler(a.item));
    assert InHand(s', NextBaton(s, a, b)) == InHand(s, b);
  }

  /** Every step keeps admit order. */
  lemma StepOrder(s: State, a: Action, s': State, b: Baton)
    requires BatonOk(s, b) && OrderOk(s, b) && TakesOk(s) && Step(s, a, s') && BatonOk(s', NextBaton(s, a, b))
    ensures OrderOk(s', NextBaton(s, a, b))
  {
    match a
    case Stop =>
    case LaunchItem(_) => HandsOrder(s, a, s', b);
    case BeginNext(_) => HandsOrder(s, a, s', b);
    case AdmitItem(k) => AdmitOrder(s, k, s', b);
    case Take(h) => TakeOrder(s, h, s', b);
    case Finish(_) => SlotOrder(s, a, s', b);
    case ReceiveSlot(_) => SlotOrder(s, a, s', b);
    case _ => OfferOrder(s, a, s', b);
  }

  lemma OfferSources(s: State, k: nat, s': State)
    requires SourcesOk(s) && PushStep(s, Offer(k), s')
    ensures SourcesOk(s')
  {
    var i := s'.pushers[k].item;
    forall j | 0 <= j < |s.admitted|
      ensures s.admitted[j] != i
    {
      assert s.admitted[j].number < Count(s.offered, s.admitted[j].source);
    }
  }

  lemma AdmitSources(s: State, k: nat, s': State)
    requires SourcesOk(s) && AdmitStep(s, k, s')
    ensures SourcesOk(s')
  {
    if s.stopped {
      OtherSources(s, s');
    } else {
      AdmittedSources(s, k, s.pushers[k].item, s');
    }
  }

  lemma AdmittedSources(s: State, k: nat, i: Item, s': State)
    requires SourcesOk(s) && k in s.pushers && Unadmitted(s.pushers[k]) && s.pushers[k].item == i
    requires s'.admitted == s.admitted + [i] && s'.offered == s.offered
    requires forall p <- s'.pushers ::
      && p in s.pushers && s'.pushers[p].item == s.pushers[p].item
      && (Unadmitted(s'.pushers[p]) ==> Unadmitted(s.pushers[p]) && p != k)
    ensures SourcesOk(s')
  {
    forall j | 0 <= j < |s.admitted| && s.admitted[j].source == k
      ensures s.admitted[j].number < i.number
    {
      assert s.admitted[j] in s.admitted;
    }
  }

  lemma OtherSources(s: State, s': State)
    requires SourcesOk(s) && s'.admitted == s.admitted && s'.offered == s.offered
    requires forall k <- s'.pushers ::
      && k in s.pushers && s'.pushers[k].item == s.pushers[k].item
      && (Unadmitted(s'.pushers[k]) ==> Unadmitted(s.pushers[k]))
    ensures SourcesOk(s')
  {
  }

  /** Every step keeps each source's order. */
  lemma StepSources(s: State, a: Action, s': State)
    requires SourcesOk(s) && Step(s, a, s')
    ensures SourcesOk(s')
  {
    if a.AdmitItem? {
      AdmitSources(s, a.source, s');
    } else if a.Offer? {
      OfferSources(s, a.source, s');
    } else if a.AcquireSlot? || a.GiveUp? || a.ReturnSlot? || a.LaunchItem? {
      SlotSources(s, a, s');
    } else {
      HandlerSources(s, a, s');
    }
  }

  lemma HandlerSources(s: State, a: Action, s': State)
    requires SourcesOk(s) && Step(s, a, s') && (a.Stop? || a.Take? || a.Finish? || a.ReceiveSlot? || a.BeginNext?)
    ensures SourcesOk(s')
  {
    OtherSources(s, s');
  }

  lemma SlotSources(s: State, a: Action, s': State)
    requires SourcesOk(s) && (a.AcquireSlot? || a.GiveUp? || a.ReturnSlot? || a.LaunchItem?) && PushStep(s, a, s')
    ensures SourcesOk(s')
  {
    OtherSources(s, s');
  }

  lemma StartTakes(s: State, i: Item, s': State)
    requires TakesOk(s) && i !in s.started && s'.started == s.started + [i] && s'.takes == s.takes
    requires s'.queue == s.queue && s'.stopped == s.stopped
    requires i in s'.handlers && s'.handlers[i].Unreleased? && s'.handlers.Keys == s.handlers.Keys + {i}
    requires forall h <- s.handlers ::
               s'.handlers[h] == s.handlers[h] || (s.handlers[h].Begin? && s'.handlers[h].Released?)
    ensures TakesOk(s')
  {
  }

  lemma TakeTakes(s: State, h: Item, s': State)
    requires TakesOk(s) && TakeStep(s, h, s')
    ensures TakesOk(s')
  {
    assert s'.handlers.Keys == s.handlers.Keys;
  }

  lemma SlotTakes(s: State, a: Action, s': State)
    requires TakesOk(s) && (a.Finish? || a.ReceiveSlot?) && HandlerStep(s, a, s')
    ensures TakesOk(s')
  {
    assert s'.handlers.Keys == s.handlers.Keys && s'.queue == s.queue && s'.stopped == s.stopped;
    assert forall h <- s.handlers :: h != a.item ==> s'.handlers[h] == s.handlers[h];
  }

  lemma OtherTakes(s: State, s': State)
    requires TakesOk(s) && s'.handlers == s.handlers && s'.started == s.started && s'.takes == s.takes
    requires s'.queue == s.queue && (s.stopped ==> s'.stopped)
    ensures TakesOk(s')
  {
  }

  lemma AdmitTakes(s: State, k: nat, s': State)
    requires TakesOk(s) && AdmitStep(s, k, s')
    ensures TakesOk(s')
  {
  }

  lemma BeginTakes(s: State, h: Item, s': State, b: Baton)
    requires Inv(s, b) && HandlerStep(s, BeginNext(h), s')
    ensures TakesOk(s')
  {
    assert Holds(s, ByHandler(h));
    FreshStart(s, b, s.handlers[h].next);
    StartTakes(s, s.handlers[h].next, s');
  }

  lemma LaunchTakes(s: State, k: nat, s': State, b: Baton)
    requires Inv(s, b) && Step(s, LaunchItem(k), s')
    ensures TakesOk(s')
  {
    LaunchBaton(s, k, s', b);
    StartTakes(s, s.pushers[k].item, s');
  }

  /** Every step keeps one take per finished handler. */
  lemma StepTakes(s: State, a: Action, s': State, b: Baton)
    requires Inv(s, b) && Step(s, a, s')
    ensures TakesOk(s')
  {
    if a.LaunchItem? {
      LaunchTakes(s, a.source, s', b);
    } else if a.BeginNext? {
      BeginTakes(s, a.item, s', b);
    } else if a.AdmitItem? {
      AdmitTakes(s, a.source, s');
    } else if a.Take? {
      TakeTakes(s, a.item, s');
    } else if a.Finish? || a.ReceiveSlot? {
      SlotTakes(s, a, s');
    } else {
      PushTakes(s, a, s');
    }
  }

  lemma PushTakes(s: State, a: Action, s': State)
    requires TakesOk(s) && Step(s, a, s') && (a.Stop? || a.Offer? || a.AcquireSlot? || a.GiveUp? || a.ReturnSlot?)
    ensures TakesOk(s')
  {
    OtherTakes(s, s');
  }

  // ---- slots ----

  lemma AddSlot(s: State, s': State, k: nat)
    requires SlotHolders(s') == SlotHolders(s) + {k} && k !in SlotHolders(s)
    ensures |SlotHolders(s')| == |SlotHolders(s)| + 1
  {
  }

  lemma OfferSlots(s: State, a: Action, s': State, b: Baton)
    requires SlotsOk(s, b) && (a.Offer? || a.AcquireSlot? || a.GiveUp?) && PushStep(s, a, s')
    ensures SlotsOk(s', b)
  {
    if a.AcquireSlot? {
      assert SlotHolders(s') == SlotHolders(s) + {a.source};
      AddSlot(s, s', a.source);
    } else {
      assert SlotHolders(s') == SlotHolders(s);
    }
  }

  lemma ReturnSlots(s: State, k: nat, s': State, b: Baton)
    requires SlotsOk(s, b) && PushStep(s, ReturnSlot(k), s')
    ensures SlotsOk(s', b)
  {
    assert k in SlotHolders(s);
    assert SlotHolders(s') == SlotHolders(s) - {k};
  }

  lemma LaunchSlots(s: State, k: nat, s': State, b: Baton)
    requires SlotsOk(s, b) && BatonOk(s, b) && PushStep(s, LaunchItem(k), s')
    ensures SlotsOk(s', ByHandler(s.pushers[k].item))
  {
    assert Holds(s, ByPusher(k));
    assert SlotHolders(s') == SlotHolders(s);
  }

  lemma AdmitSlots(s: State, k: nat, s': State, b: Baton)
    requires SlotsOk(s, b) && BatonOk(s, b) && AdmitStep(s, k, s')
    ensures SlotsOk(s', NextBaton(s, AdmitItem(k), b))
  {
    if !s.stopped && s.running {
      assert SlotHolders(s) == SlotHolders(s') + {k};
      AddSlot(s', s, k);
    } else {
      assert SlotHolders(s') == SlotHolders(s);
    }
  }

  lemma TakeSlots(s: State, h: Item, s': State, b: Baton)
    requires SlotsOk(s, b) && BatonOk(s, b) && TakeStep(s, h, s')
    ensures SlotsOk(s', NextBaton(s, Take(h), b))
  {
    assert Holds(s, ByHandler(h));
    assert SlotHolders(s') == SlotHolders(s);
  }

  lemma HandlerSlots(s: State, a: Action, s': State, b: Baton)
    requires SlotsOk(s, b) && BatonOk(s, b) && (a.Finish? || a.ReceiveSlot? || a.BeginNext?) && HandlerStep(s, a, s')
    requires forall h <- s.handlers :: s.handlers[h].Discarding? ==> s.handlers[h].left > 0
    ensures SlotsOk(s', NextBaton(s, a, b))
  {
    assert Holds(s, ByHandler(a.item));
    assert SlotHolders(s') == SlotHolders(s);
  }

  /** Every step keeps the slot tokens equal to what is queued or on its way. */
  lemma StepSlots(s: State, a: Action, s': State, b: Baton)
    requires Inv(s, b) && Step(s, a, s')
    ensures SlotsOk(s', NextBaton(s, a, b))
  {
    match a
    case Stop => assert SlotHolders(s') == SlotHolders(s);
    case AdmitItem(k) => AdmitSlots(s, k, s', b);
    case ReturnSlot(k) => ReturnSlots(s, k, s', b);
    case LaunchItem(k) => LaunchSlots(s, k, s', b);
    case Take(h) => TakeSlots(s, h, s', b);
    case Finish(_) => HandlerSlots(s, a, s', b);
    case ReceiveSlot(_) => HandlerSlots(s, a, s', b);
    case BeginNext(_) => HandlerSlots(s, a, s', b);
    case _ => OfferSlots(s, a, s', b);
  }

  lemma StepInv(s: State, a: Action, s': State, b: Baton)
    requires Inv(s, b) && Step(s, a, s')
    ensures Inv(s', NextBaton(s, a, b))
  {
    StepBaton(s, a, s', b);
    StepOrder(s, a, s', b);
    StepSources(s, a, s');
    StepTakes(s, a, s', b);
    StepSlots(s, a, s', b);
  }

  // ---- every run ----

  predicate IsRun(states: seq<State>, actions: seq<Action>) {
    && |states| == |actions| + 1 && Init(states[0])
    && (forall i {:trigger actions[i]} | 0 <= i < |actions| :: Step(states[i], actions[i], states[i + 1]))
  }

  lemma {:induction false} RunInv(states: seq<State>, actions: seq<Action>, n: nat) returns (b: Baton)
    requires IsRun(states, actions) && n < |states|
    ensures Inv(states[n], b)
  {
    if n == 0 {
      b := Nobody;
    } else {
      b := RunInv(states, actions, n - 1);
      StepInv(states[n - 1], actions[n - 1], states[n], b);
      b := NextBaton(states[n - 1], actions[n - 1], b);
    }
  }

  /**
   * Handlers start in admit order: what was admitted is what started, then at most one item in
   * hand, then the queue, then what a stop discarded. So the requests of one source start in the
   * order it offered them. At most one started handler has not handed over to its successor.
   */
  lemma StartsInAdmitOrder(states: seq<State>, actions: seq<Action>, n: nat) returns (hand: seq<Item>)
    requires IsRun(states, actions) && n < |states|
    ensures var s := states[n];
      && s.admitted == s.started + hand + s.queue + s.dropped && |hand| <= 1 && (s.dropped != [] ==> s.stopped)
      && (forall h, g | h in s.handlers && g in s.handlers ::
            !s.handlers[h].Released? && !s.handlers[g].Released? ==> h == g)
      && (forall i, j | 0 <= i < j < |s.started| ::
            s.started[i].source == s.started[j].source ==> s.started[i].number < s.started[j].number)
  {
    var s := states[n];
    var b := RunInv(states, actions, n);
    hand := InHand(s, b);
    forall h, g | h in s.handlers && g in s.handlers && !s.handlers[h].Released? && !s.handlers[g].Released?
      ensures h == g
    {
      assert Holds(s, ByHandler(h)) && Holds(s, ByHandler(g));
    }
    forall i, j | 0 <= i < j < |s.started| && s.started[i].source == s.started[j].source
      ensures s.started[i].number < s.started[j].number
    {
      assert s.admitted[i] == s.started[i] && s.admitted[j] == s.started[j];
    }
  }

  /**
   * Every receive from the slots channel finds a token, in particular those under the lock; the
   * queue never exceeds its size; and every handler leads to exactly one take once it finished.
   */
  lemma SlotsNeverBlock(states: seq<State>, actions: seq<Action>, n: nat)
    requires IsRun(states, actions) && n < |states|
    ensures var s := states[n];
      && |s.queue| <= s.tokens <= s.size
      && (forall k <- s.pushers :: s.pushers[k].Refund? || s.pushers[k].First? ==> s.tokens > 0)
      && (forall h <- s.handlers :: s.handlers[h].Fetch? ==> s.tokens > 0)
      && (forall h <- s.handlers :: s.handlers[h].Discarding? ==> s.tokens >= s.handlers[h].left)
      && (forall h :: s.takes[h] <= 1)
      && (forall h <- s.handlers :: s.handlers[h].Released? ==> s.takes[h] == 1)
  {
    var s := states[n];
    var b := RunInv(states, actions, n);
    forall k | k in s.pushers && (s.pushers[k].Refund? || s.pushers[k].First?)
      ensures s.tokens > 0
    {
      assert k in SlotHolders(s);
    }
    forall h | h in s.handlers && (s.handlers[h].Fetch? || s.handlers[h].Discarding?)
      ensures b == ByHandler(h)
    {
      assert Holds(s, ByHandler(h));
    }
  }
}
