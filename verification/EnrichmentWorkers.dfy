// The enrichment workers around the paged queue, one critical section at a
// time: a condition variable with Signal, Broadcast on close, then drain.
module EnrichmentWorkers {
  import opened WorkQueue
  import opened Tallies

  // Where a worker is: about to lock the queue, waiting on the condition
  // variable, signalled but not yet running, busy with a request, or gone.
  datatype Worker<T> = Idle | Parked | Woken | Holding(req: T) | Exited

  // `accepted` lists the requests taken in, `handed` who got which, both in order.
  datatype State<T> = State(q: Queue<T>, workers: seq<Worker<T>>, accepted: seq<T>, handed: seq<(nat, T)>)

  // One critical section, or the end of a worker's work on a request. `woken`
  // is the worker the runtime picks when Signal finds several parked.
  datatype Action<T> = Produce(x: T, woken: nat) | Turn(worker: nat) | Finish(worker: nat) | Close

  predicate SomeParked(ws: seq<Worker>)
  {
    exists i :: 0 <= i < |ws| && ws[i].Parked?
  }

  predicate Enabled<T>(s: State<T>, a: Action<T>)
  {
    match a
    case Produce(_, w) => Accepts(s.q) && SomeParked(s.workers) ==> w < |s.workers| && s.workers[w].Parked?
    case Turn(w) => w < |s.workers| && (s.workers[w].Idle? || s.workers[w].Woken?)
    case Finish(w) => w < |s.workers| && s.workers[w].Holding?
    case Close => true
  }

  function WakeAll<T>(ws: seq<Worker<T>>): seq<Worker<T>>
  {
    if ws == [] then []
    else WakeAll(ws[..|ws| - 1]) + [if ws[|ws| - 1].Parked? then Woken else ws[|ws| - 1]]
  }

  function Next<T>(s: State<T>, a: Action<T>): State<T>
    requires Valid(s.q) && Enabled(s, a)
  {
    match a
    case Produce(x, w) =>
      if !Accepts(s.q) then s
      else
        var s' := s.(q := Offer(s.q, x), accepted := s.accepted + [x]);
        if SomeParked(s.workers) then s'.(workers := s.workers[w := Woken]) else s'
    case Turn(w) =>
      if s.q.size == 0 && !s.q.closed then s.(workers := s.workers[w := Parked])
      else if s.q.size == 0 then s.(workers := s.workers[w := Exited])
      else
        FirstOf(s.q);
        var req := s.q.pages[0].items[0];
        State(Pop(s.q), s.workers[w := Holding(req)], s.accepted, s.handed + [(w, req)])
    case Finish(w) => s.(workers := s.workers[w := Idle])
    case Close =>
      if s.q.closed then s else s.(q := s.q.(closed := true), workers := WakeAll(s.workers))
  }

  // ---- Counting workers

  function IsWoken(w: Worker): nat { if w.Woken? then 1 else 0 }

  // Turns a worker still has ahead of it once the queue is closed and empty.
  function TurnsLeft(w: Worker): nat
  {
    match w
    case Holding(_) => 2
    case Exited => 0
    case _ => 1
  }

  lemma {:induction false} WakeAllWakes<T>(ws: seq<Worker<T>>)
    ensures |WakeAll(ws)| == |ws|
    ensures forall i :: 0 <= i < |ws| ==> WakeAll(ws)[i] == if ws[i].Parked? then Woken else ws[i]
    ensures Tally(WakeAll(ws), TurnsLeft) == Tally(ws, TurnsLeft)
  {
    if ws != [] {
      WakeAllWakes(ws[..|ws| - 1]);
      assert WakeAll(ws)[..|ws| - 1] == WakeAll(ws[..|ws| - 1]);
    }
  }

  // ---- What every interleaving keeps

  function Requests<T>(handed: seq<(nat, T)>): (r: seq<T>)
    ensures |r| == |handed|
  {
    seq(|handed|, i requires 0 <= i < |handed| => handed[i].1)
  }

  ghost predicate Inv<T>(s: State<T>)
  {
    && Valid(s.q)
    // Each accepted request is waiting or was handed out once, in order.
    && s.accepted == Requests(s.handed) + Flat(s.q.pages)
    // No lost wakeup.
    && (SomeParked(s.workers) ==> s.q.size <= Tally(s.workers, IsWoken))
    && (s.q.closed ==> !SomeParked(s.workers))
    && (forall i :: 0 <= i < |s.workers| && s.workers[i].Exited? ==> s.q.closed && s.q.size == 0)
  }

  function Begin<T>(capacity: int, workers: nat): State<T>
  {
    State(Fresh(capacity), seq(workers, _ => Idle), [], [])
  }

  lemma BeginKeeps<T>(capacity: int, workers: nat)
    ensures Inv(Begin<T>(capacity, workers))
  {}

  lemma ProduceKeeps<T>(s: State<T>, x: T, w: nat)
    requires Inv(s) && Enabled(s, Produce(x, w))
    ensures Inv(Next(s, Produce(x, w)))
  {
    if Accepts(s.q) {
      OfferAppends(s.q, x);
      assert s.accepted + [x] == Requests(s.handed) + (Flat(s.q.pages) + [x]);
      if SomeParked(s.workers) {
        TallyUpdate(s.workers, w, Woken, IsWoken);
      }
      hide Flat, Valid, Append;
    }
  }

  lemma TurnKeeps<T>(s: State<T>, w: nat)
    requires Inv(s) && Enabled(s, Turn(w))
    ensures Inv(Next(s, Turn(w)))
  {
    var s' := Next(s, Turn(w));
    TallyUpdate(s.workers, w, s'.workers[w], IsWoken);
    hide Flat, Tally, FreeTail;
    if s.q.size > 0 {
      PopTakesHead(s.q);
      var req := s.q.pages[0].items[0];
      hide Pop;
      assert Requests(s.handed + [(w, req)]) == Requests(s.handed) + [req];
      HandedOut(Requests(s.handed), req, Flat(Pop(s.q).pages));
      StillParked(s.workers, w, s'.workers[w]);
      hide Requests;
    }
  }

  lemma HandedOut<T>(handed: seq<T>, x: T, waiting: seq<T>)
    ensures handed + ([x] + waiting) == handed + [x] + waiting
  {}

  lemma StillParked<T>(ws: seq<Worker<T>>, w: nat, to: Worker<T>)
    requires w < |ws| && !to.Parked?
    ensures SomeParked(ws[w := to]) ==> SomeParked(ws)
  {}

  lemma FinishKeeps<T>(s: State<T>, w: nat)
    requires Inv(s) && Enabled(s, Finish(w))
    ensures Inv(Next(s, Finish(w)))
  {
    TallyUpdate(s.workers, w, Idle, IsWoken);
    StillParked(s.workers, w, Idle);
    hide Flat, Valid;
  }

  lemma CloseKeeps<T>(s: State<T>)
    requires Inv(s)
    ensures Inv(Next(s, Close))
  {
    hide Flat, Requests, Tally, FreeTail;
    if !s.q.closed {
      WakeAllWakes(s.workers);
      assert !SomeParked(WakeAll(s.workers));
    }
    hide WakeAll;
  }

  lemma StepKeeps<T>(s: State<T>, a: Action<T>)
    requires Inv(s) && Enabled(s, a)
    ensures Inv(Next(s, a))
  {
    match a
    case Produce(x, w) => ProduceKeeps(s, x, w);
    case Turn(w) => TurnKeeps(s, w);
    case Finish(w) => FinishKeeps(s, w);
    case Close => CloseKeeps(s);
  }

  // A run: actions, each enabled where it is taken.
  ghost predicate IsRun<T>(s: State<T>, actions: seq<Action<T>>, s': State<T>)
    decreases |actions|
  {
    if actions == [] then s' == s
    else Valid(s.q) && Enabled(s, actions[0]) && IsRun(Next(s, actions[0]), actions[1..], s')
  }

  lemma {:induction false} RunKeeps<T>(s: State<T>, actions: seq<Action<T>>, s': State<T>)
    requires Inv(s) && IsRun(s, actions, s')
    ensures Inv(s')
    decreases |actions|
  {
    if actions != [] {
      StepKeeps(s, actions[0]);
      hide Inv, Next;
      RunKeeps(Next(s, actions[0]), actions[1..], s');
    }
  }

  // ---- The theorems

  // In every reachable state, a parked worker means every waiting request has
  // a woken worker on its way; after Close nobody is parked; whoever has
  // exited left a closed and empty queue behind.
  lemma NoLostWakeup<T>(capacity: int, workers: nat, actions: seq<Action<T>>, s: State<T>)
    requires IsRun(Begin(capacity, workers), actions, s)
    ensures SomeParked(s.workers) ==> !s.q.closed && s.q.size <= Tally(s.workers, IsWoken)
    ensures forall i :: 0 <= i < |s.workers| && s.workers[i].Exited? ==> s.q.closed && s.q.size == 0
    ensures s.accepted == Requests(s.handed) + Flat(s.q.pages)
  {
    BeginKeeps<T>(capacity, workers);
    RunKeeps(Begin(capacity, workers), actions, s);
  }

  // A waiting request never leaves all the workers unable to move.
  lemma NeverStuck<T>(s: State<T>)
    requires Inv(s) && |s.workers| > 0 && s.q.size > 0
    ensures exists w :: 0 <= w < |s.workers| && (Enabled(s, Turn(w)) || Enabled(s, Finish(w)))
  {
    hide Valid, Flat;
    if SomeParked(s.workers) {
      TallyZero(s.workers, IsWoken);
      var w :| 0 <= w < |s.workers| && IsWoken(s.workers[w]) != 0;
      assert Enabled(s, Turn(w));
    } else {
      assert Enabled(s, Turn(0)) || Enabled(s, Finish(0));
    }
  }

  // Worker steps still to come once the queue is closed.
  function StepsLeft<T>(s: State<T>): int
  {
    2 * s.q.size + Tally(s.workers, TurnsLeft)
  }

  // After Close every worker step brings the drain exactly one step nearer its
  // end, and refused requests change nothing.
  lemma DrainStep<T>(s: State<T>, a: Action<T>)
    requires Inv(s) && s.q.closed && Enabled(s, a)
    ensures Next(s, a).q.closed
    ensures StepsLeft(Next(s, a)) == if a.Turn? || a.Finish? then StepsLeft(s) - 1 else StepsLeft(s)
    ensures a.Produce? || a.Close? ==> Next(s, a) == s
  {
    if a.Turn? || a.Finish? {
      TallyUpdate(s.workers, a.worker, Next(s, a).workers[a.worker], TurnsLeft);
    }
  }

  function WorkerSteps<T>(actions: seq<Action<T>>): nat
  {
    if actions == [] then 0
    else (if actions[0].Turn? || actions[0].Finish? then 1 else 0) + WorkerSteps(actions[1..])
  }

  lemma {:induction false} Drain<T>(s: State<T>, actions: seq<Action<T>>, s': State<T>)
    requires Inv(s) && s.q.closed && IsRun(s, actions, s')
    ensures Inv(s') && s'.q.closed && s'.accepted == s.accepted && |s'.workers| == |s.workers|
    ensures WorkerSteps(actions) + StepsLeft(s') == StepsLeft(s)
    decreases |actions|
  {
    if actions != [] {
      StepKeeps(s, actions[0]);
      DrainStep(s, actions[0]);
      assert Next(s, actions[0]).accepted == s.accepted && |Next(s, actions[0]).workers| == |s.workers|;
      hide Inv, Next, StepsLeft;
      Drain(Next(s, actions[0]), actions[1..], s');
    }
  }

  // So a closed queue is drained after finitely many worker steps: when none is
  // left, every worker has exited and every accepted request has gone to
  // exactly one worker, in order.
  lemma FullDrain<T>(s: State<T>)
    requires Inv(s) && s.q.closed && |s.workers| > 0
    ensures StepsLeft(s) == 0 <==> forall w :: 0 <= w < |s.workers| ==> !Enabled(s, Turn(w)) && !Enabled(s, Finish(w))
    ensures StepsLeft(s) == 0 ==>
            && (forall w :: 0 <= w < |s.workers| ==> s.workers[w].Exited?)
            && s.accepted == Requests(s.handed)
  {
    hide Valid;
    TallyZero(s.workers, TurnsLeft);
    assert s.q.size >= 0 && (s.q.size == 0 ==> Flat(s.q.pages) == []) by {
      SizeOf(s.q);
    }
    hide Flat;
    if s.q.size > 0 {
      NeverStuck(s);
    }
    assert forall w :: 0 <= w < |s.workers| ==>
      (TurnsLeft(s.workers[w]) == 0 <==> !Enabled(s, Turn(w)) && !Enabled(s, Finish(w)));
  }

  lemma SizeOf<T>(q: Queue<T>)
    requires Valid(q)
    ensures q.size == |Flat(q.pages)|
  {}
}
