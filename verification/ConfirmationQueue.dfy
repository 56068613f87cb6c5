// The two-tier confirmation queue: a short list in memory that spills to a
// persistent queue on disk and is reloaded once the disk has nearly drained.
module ConfirmationQueues {
  import opened Records

  const MAX_IN_MEMORY: nat := 100
  const LOW_WATER_MARK: nat := 50

  datatype Message = Message(body: string, exchange: string)

  // ---- The queue as a value

  datatype Tiers = Tiers(mem: seq<Message>, disk: seq<Message>, usingDisk: bool)

  // The one FIFO the two tiers stand for.
  function Contents(q: Tiers): seq<Message>
  {
    q.mem + q.disk
  }

  // At most one tier is in use, the memory tier is short, and the disk tier is
  // only in use while it holds something.
  predicate Valid(q: Tiers)
  {
    && (q.usingDisk ==> q.mem == [] && q.disk != [])
    && (!q.usingDisk ==> q.disk == [] && |q.mem| < MAX_IN_MEMORY)
  }

  // A queue opened over what its directory holds.
  function Opened(disk: seq<Message>): Tiers
  {
    Tiers([], disk, |disk| > 0)
  }

  function Put(q: Tiers, m: Message): Tiers
  {
    if q.usingDisk then q.(disk := q.disk + [m])
    else if |q.mem| + 1 < MAX_IN_MEMORY then q.(mem := q.mem + [m])
    else Tiers([], q.disk + q.mem + [m], true)
  }

  predicate IsEmpty(q: Tiers)
  {
    if q.usingDisk then q.disk == [] else q.mem == []
  }

  predicate Reloads(q: Tiers)
  {
    q.usingDisk && |q.disk| - 1 < LOW_WATER_MARK
  }

  function Front(q: Tiers): Message
    requires !IsEmpty(q)
  {
    if !q.usingDisk then q.mem[0]
    else if Reloads(q) then (q.mem + q.disk)[0]
    else q.disk[0]
  }

  function Take(q: Tiers): Tiers
    requires !IsEmpty(q)
  {
    if !q.usingDisk then q.(mem := q.mem[1..])
    else if Reloads(q) then Tiers((q.mem + q.disk)[1..], [], false)
    else q.(disk := q.disk[1..])
  }

  // Messages an operation carries from one tier to the other.
  function PutMoves(q: Tiers): nat
  {
    if !q.usingDisk && |q.mem| + 1 >= MAX_IN_MEMORY then |q.mem| else 0
  }

  function TakeMoves(q: Tiers): nat
  {
    if Reloads(q) then |q.disk| else 0
  }

  // ---- The queue as the program keeps it

  class ConfirmationQueue {
    var memQueue: seq<Message>
    var diskQueue: seq<Message>
    var usingDisk: bool
    ghost var moved: nat

    ghost function State(): Tiers
      reads this
    {
      Tiers(memQueue, diskQueue, usingDisk)
    }

    constructor (onDisk: seq<Message>)
      ensures State() == Opened(onDisk) && moved == 0
    {
      diskQueue := onDisk;
      usingDisk := |onDisk| > 0;
      memQueue := [];
      moved := 0;
    }

    method Size() returns (n: nat)
      ensures Valid(State()) ==> n == |Contents(State())|
    {
      n := if usingDisk then |diskQueue| else |memQueue|;
    }

    method EnqueueToExchange(msg: string, exchange: string)
      modifies this
      ensures State() == Put(old(State()), Message(msg, exchange))
      ensures moved == old(moved) + PutMoves(old(State()))
    {
      var m := Message(msg, exchange);
      if !usingDisk && |memQueue| + 1 < MAX_IN_MEMORY {
        memQueue := memQueue + [m];
      } else if !usingDisk && |memQueue| + 1 >= MAX_IN_MEMORY {
        while |memQueue| > 0
          invariant diskQueue + memQueue == old(diskQueue + memQueue)
          invariant moved + |memQueue| == old(moved + |memQueue|)
          invariant usingDisk == old(usingDisk)
        {
          var toEnqueue := memQueue[0];
          memQueue := memQueue[1..];
          diskQueue := diskQueue + [toEnqueue];
          moved := moved + 1;
        }
        assert diskQueue == old(diskQueue + memQueue);
        diskQueue := diskQueue + [m];
        usingDisk := true;
      } else {
        diskQueue := diskQueue + [m];
      }
    }

    // dequeueLocked: None is the source's ErrEmpty.
    method DequeueLocked() returns (m: Option<Message>)
      modifies this
      ensures m.None? <==> IsEmpty(old(State()))
      ensures m.None? ==> State() == old(State()) && moved == old(moved)
      ensures m.Some? ==> m.value == Front(old(State())) && State() == Take(old(State()))
      ensures m.Some? ==> moved == old(moved) + TakeMoves(old(State()))
    {
      if !usingDisk && |memQueue| == 0 {
        return None;
      } else if usingDisk && |diskQueue| == 0 {
        return None;
      }
      if !usingDisk {
        m := Some(memQueue[0]);
        memQueue := memQueue[1..];
      } else if |diskQueue| - 1 >= LOW_WATER_MARK {
        m := Some(diskQueue[0]);
        diskQueue := diskQueue[1..];
      } else {
        while |diskQueue| > 0
          invariant memQueue + diskQueue == old(memQueue + diskQueue)
          invariant moved + |diskQueue| == old(moved + |diskQueue|)
        {
          memQueue := memQueue + [diskQueue[0]];
          diskQueue := diskQueue[1..];
          moved := moved + 1;
        }
        assert memQueue == old(memQueue + diskQueue);
        usingDisk := false;
        m := Some(memQueue[0]);
        memQueue := memQueue[1..];
      }
    }

    // Closes the files of the disk queue, and gives what they then hold.
    method Close() returns (onDisk: seq<Message>)
      ensures onDisk == State().disk
    {
      onDisk := diskQueue;
    }
  }

  // A clean restart: a new queue over the files the old one closed.
  method Reopen(q: ConfirmationQueue) returns (reopened: ConfirmationQueue)
    ensures fresh(reopened) && reopened.State() == Opened(q.State().disk)
    ensures Valid(q.State()) ==>
              Contents(reopened.State()) == if q.usingDisk then Contents(q.State()) else []
  {
    var onDisk := q.Close();
    reopened := new ConfirmationQueue(onDisk);
  }

  // ---- One FIFO

  lemma OpenedIsValid(disk: seq<Message>)
    ensures Valid(Opened(disk)) && Contents(Opened(disk)) == disk
  {}

  lemma PutAppends(q: Tiers, m: Message)
    requires Valid(q)
    ensures Valid(Put(q, m)) && Contents(Put(q, m)) == Contents(q) + [m]
  {}

  lemma TakePops(q: Tiers)
    requires Valid(q)
    ensures IsEmpty(q) <==> Contents(q) == []
    ensures !IsEmpty(q) ==> Valid(Take(q)) && Contents(q) == [Front(q)] + Contents(Take(q))
  {}

  // ---- Whole runs, with clean restarts

  // Close and Init again: what was in memory is gone.
  datatype Event = Arrive(m: Message) | Deliver | Restart

  datatype Run = Run(q: Tiers, accepted: seq<Message>, delivered: seq<Message>, lost: seq<Message>,
                     restarts: nat, moved: nat)

  function Start(disk: seq<Message>): Run
  {
    Run(Opened(disk), [], [], [], 0, 0)
  }

  // A delivery from an empty queue blocks: nothing happens.
  function Next(r: Run, e: Event): Run
  {
    match e
    case Arrive(m) => r.(q := Put(r.q, m), accepted := r.accepted + [m], moved := r.moved + PutMoves(r.q))
    case Deliver =>
      if IsEmpty(r.q) then r
      else r.(q := Take(r.q), delivered := r.delivered + [Front(r.q)], moved := r.moved + TakeMoves(r.q))
    case Restart => r.(q := Opened(r.q.disk), lost := r.lost + r.q.mem, restarts := r.restarts + 1)
  }

  function After(r: Run, events: seq<Event>): Run
    decreases |events|
  {
    if events == [] then r else After(Next(r, events[0]), events[1..])
  }

  // What the hysteresis has saved up for the next move between the tiers.
  function Saved(q: Tiers): nat
  {
    if q.usingDisk then if |q.disk| < MAX_IN_MEMORY then MAX_IN_MEMORY - |q.disk| else 0
    else if |q.mem| < LOW_WATER_MARK then 0 else 2 * (|q.mem| - LOW_WATER_MARK + 1)
  }

  // An arrival saves up two moves, a delivery one.
  lemma SavingsOfPut(q: Tiers, m: Message)
    requires Valid(q)
    ensures PutMoves(q) + Saved(Put(q, m)) <= Saved(q) + 2
  {}

  lemma SavingsOfTake(q: Tiers)
    requires Valid(q) && !IsEmpty(q)
    ensures TakeMoves(q) + Saved(Take(q)) <= Saved(q) + 1
  {}

  ghost predicate Kept(disk: seq<Message>, r: Run)
  {
    && Valid(r.q)
    && multiset(disk) + multiset(r.accepted) == multiset(r.delivered) + multiset(r.lost) + multiset(Contents(r.q))
    && |r.lost| <= 99 * r.restarts
    && (r.restarts == 0 ==> disk + r.accepted == r.delivered + Contents(r.q))
    && r.moved + Saved(r.q) <= 2 * |r.accepted| + |r.delivered| + 99 * (r.restarts + 1)
  }

  lemma OneMoreOnEachSide<T>(a: multiset<T>, b: multiset<T>, c: multiset<T>, d: multiset<T>, m: multiset<T>)
    requires a + b == c + d
    ensures a + (b + m) == c + (d + m)
  {
    assert a + (b + m) == (a + b) + m;
    assert c + (d + m) == (c + d) + m;
  }

  lemma ArriveKeeps(disk: seq<Message>, r: Run, m: Message)
    requires Kept(disk, r)
    ensures Kept(disk, Next(r, Arrive(m)))
  {
    PutAppends(r.q, m);
    SavingsOfPut(r.q, m);
    assert disk + (r.accepted + [m]) == (disk + r.accepted) + [m];
    assert r.delivered + (Contents(r.q) + [m]) == (r.delivered + Contents(r.q)) + [m];
    var q' := Put(r.q, m);
    assert multiset(r.accepted + [m]) == multiset(r.accepted) + multiset{m};
    assert multiset(Contents(q')) == multiset(Contents(r.q)) + multiset{m};
    OneMoreOnEachSide(multiset(disk), multiset(r.accepted), multiset(r.delivered) + multiset(r.lost),
                      multiset(Contents(r.q)), multiset{m});
    hide Contents, Put, PutMoves, Saved, Valid;
  }

  lemma DeliverKeeps(disk: seq<Message>, r: Run)
    requires Kept(disk, r)
    ensures Kept(disk, Next(r, Deliver))
  {
    TakePops(r.q);
    if !IsEmpty(r.q) {
      SavingsOfTake(r.q);
      var m, rest := Front(r.q), Contents(Take(r.q));
      assert r.delivered + ([m] + rest) == (r.delivered + [m]) + rest;
      assert multiset([m] + rest) == multiset([m]) + multiset(rest);
    }
  }

  lemma RestartKeeps(disk: seq<Message>, r: Run)
    requires Kept(disk, r)
    ensures Kept(disk, Next(r, Restart))
  {
    assert Contents(Opened(r.q.disk)) == r.q.disk;
    assert multiset(Contents(r.q)) == multiset(r.q.mem) + multiset(r.q.disk);
  }

  // What holds after any run of arrivals, deliveries and clean restarts.
  lemma {:induction false} RunKeeps(disk: seq<Message>, r: Run, events: seq<Event>)
    requires Kept(disk, r)
    ensures Kept(disk, After(r, events))
    decreases |events|
  {
    if events != [] {
      match events[0] {
        case Arrive(m) => ArriveKeeps(disk, r, m);
        case Deliver => DeliverKeeps(disk, r);
        case Restart => RestartKeeps(disk, r);
      }
      hide Kept, Next;
      RunKeeps(disk, Next(r, events[0]), events[1..]);
    }
  }

  lemma StartKeeps(disk: seq<Message>)
    ensures Kept(disk, Start(disk))
  {
    assert disk + [] == disk && [] + disk == disk;
  }

  // Without a restart the queue is one FIFO over everything it was opened with
  // and everything that arrived.
  lemma FirstInFirstOut(disk: seq<Message>, events: seq<Event>)
    requires Restart !in events
    ensures var r := After(Start(disk), events);
            Valid(r.q) && disk + r.accepted == r.delivered + Contents(r.q)
  {
    StartKeeps(disk);
    RunKeeps(disk, Start(disk), events);
    NoRestarts(Start(disk), events);
  }

  lemma {:induction false} NoRestarts(r: Run, events: seq<Event>)
    requires Restart !in events
    ensures After(r, events).restarts == r.restarts
    decreases |events|
  {
    if events != [] {
      NoRestarts(Next(r, events[0]), events[1..]);
    }
  }

  // The amortized bound on traffic between the tiers.
  lemma TierTraffic(disk: seq<Message>, events: seq<Event>)
    ensures var r := After(Start(disk), events);
            r.moved <= 2 * |r.accepted| + |r.delivered| + 99 * (r.restarts + 1)
  {
    StartKeeps(disk);
    RunKeeps(disk, Start(disk), events);
  }

  // A clean restart keeps the disk tier and loses the memory tier: at most 99
  // messages, and none while the disk is in use.
  lemma RestartLoses(disk: seq<Message>, events: seq<Event>)
    ensures var r := After(Start(disk), events);
            var r' := Next(r, Restart);
            && Contents(r.q) == r.q.mem + Contents(r'.q) && Contents(r'.q) == r.q.disk
            && r'.lost == r.lost + r.q.mem
            && |r.q.mem| <= 99
            && (r.q.usingDisk ==> r.q.mem == [] && Contents(r'.q) == Contents(r.q))
            && (!r.q.usingDisk ==> Contents(r'.q) == [])
  {
    StartKeeps(disk);
    RunKeeps(disk, Start(disk), events);
  }

  // ---- Where the marks lie

  function Arrivals(ms: seq<Message>): seq<Event>
  {
    seq(|ms|, i requires 0 <= i < |ms| => Arrive(ms[i]))
  }

  function Deliveries(k: nat): seq<Event> { seq(k, _ => Deliver) }

  lemma {:induction false} AfterLast(r: Run, events: seq<Event>, e: Event)
    ensures After(r, events + [e]) == Next(After(r, events), e)
    decreases |events|
  {
    hide Next;
    if events == [] {
      assert events + [e] == [e] && [e][1..] == [];
    } else {
      assert (events + [e])[1..] == events[1..] + [e];
      AfterLast(Next(r, events[0]), events[1..], e);
    }
  }

  // From an empty queue on, arrivals alone stay in memory up to the 99th; the
  // 100th takes them all to disk.
  lemma {:induction false} SpillsAtAHundred(ms: seq<Message>)
    ensures var r := After(Start([]), Arrivals(ms));
            && r.q == (if |ms| < 100 then Tiers(ms, [], false) else Tiers([], ms, true))
            && r.moved == (if |ms| < 100 then 0 else 99)
  {
    if ms != [] {
      var n := |ms| - 1;
      assert ms == ms[..n] + [ms[n]] && Arrivals(ms) == Arrivals(ms[..n]) + [Arrive(ms[n])];
      SpillsAtAHundred(ms[..n]);
      AfterLast(Start([]), Arrivals(ms[..n]), Arrive(ms[n]));
    }
  }

  // From an opened queue on, deliveries alone leave the rest on disk while it
  // is 50 messages or more; with one fewer it is all in memory.
  lemma {:induction false} ReloadsBelowFifty(disk: seq<Message>, k: nat)
    requires 1 <= k <= |disk|
    ensures var r := After(Start(disk), Deliveries(k));
            && r.delivered == disk[..k]
            && r.q == (if |disk| - k >= 50 then Tiers([], disk[k..], true) else Tiers(disk[k..], [], false))
            && r.moved == (if |disk| - k >= 50 then 0 else if |disk| <= 50 then |disk| else 50)
  {
    var rest := disk[k - 1..];
    assert Deliveries(k) == Deliveries(k - 1) + [Deliver];
    assert disk[..k - 1] + [rest[0]] == disk[..k] && rest[1..] == disk[k..];
    assert k == 1 ==> Deliveries(0) == [] && disk[..0] == [] && disk[0..] == disk;
    hide Next, Deliveries;
    AfterLast(Start(disk), Deliveries(k - 1), Deliver);
    if k > 1 {
      ReloadsBelowFifty(disk, k - 1);
    }
    DeliverStep(After(Start(disk), Deliveries(k - 1)), rest);
  }

  lemma DeliverStep(r: Run, rest: seq<Message>)
    requires rest != [] && r.q in {Tiers([], rest, true), Tiers(rest, [], false)}
    ensures var r' := Next(r, Deliver);
            && r'.delivered == r.delivered + [rest[0]]
            && r'.q ==
               (if r.q.usingDisk && |rest| > 50 then Tiers([], rest[1..], true) else Tiers(rest[1..], [], false))
            && r'.moved == r.moved + (if r.q.usingDisk && |rest| <= 50 then |rest| else 0)
  {
    assert [] + rest == rest;
  }
}
