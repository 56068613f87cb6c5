// From the confirmation queue through the feeder, the shared channel and the
// publishing workers to the broker, step by step and in any interleaving.
module PublishPipeline {
  import opened Records
  import opened ConfirmationQueues
  import opened Tallies

  const CHANNEL_SIZE: nat := 1000

  datatype Published = Published(exchange: string, body: string)

  // `arrived`, `taken` and `sent` are what the queue was given (or opened
  // with), what workers received from the channel and what was pushed, each in
  // the order it happened.
  datatype Pipe = Pipe(q: Tiers, feeder: Option<Message>, channel: seq<Message>, workers: seq<Option<Message>>,
                       published: seq<Published>, arrived: seq<Message>, taken: seq<Message>, sent: seq<Message>)

  // A worker pushes its message again and again until a push succeeds.
  datatype Action = Arrive(m: Message) | Feed | Send | Receive(worker: nat) | Push(worker: nat, ok: bool)

  // A message's own exchange, or else the configured one.
  function Route(m: Message, defaultExchange: string): Published
  {
    Published(if m.exchange != "" then m.exchange else defaultExchange, m.body)
  }

  predicate Enabled(p: Pipe, a: Action)
  {
    match a
    case Arrive(_) => true
    case Feed => p.feeder.None? && !IsEmpty(p.q)
    case Send => p.feeder.Some? && |p.channel| < CHANNEL_SIZE
    case Receive(w) => w < |p.workers| && p.workers[w].None? && p.channel != []
    case Push(w, _) => w < |p.workers| && p.workers[w].Some?
  }

  function Next(p: Pipe, a: Action, defaultExchange: string): Pipe
    requires Enabled(p, a)
  {
    match a
    case Arrive(m) => p.(q := Put(p.q, m), arrived := p.arrived + [m])
    case Feed => p.(q := Take(p.q), feeder := Some(Front(p.q)))
    case Send => p.(feeder := None, channel := p.channel + [p.feeder.value])
    case Receive(w) =>
      p.(channel := p.channel[1..], workers := p.workers[w := Some(p.channel[0])], taken := p.taken + [p.channel[0]])
    case Push(w, ok) =>
      if !ok then p
      else
        var m := p.workers[w].value;
        p.(workers := p.workers[w := None], sent := p.sent + [m],
           published := p.published + [Route(m, defaultExchange)])
  }

  function Begin(disk: seq<Message>, workers: nat): Pipe
  {
    Pipe(Opened(disk), None, [], seq(workers, _ => None), [], disk, [], [])
  }

  ghost predicate IsRun(p: Pipe, actions: seq<Action>, defaultExchange: string, p': Pipe)
    decreases |actions|
  {
    if actions == [] then p' == p
    else Enabled(p, actions[0]) &&
         IsRun(Next(p, actions[0], defaultExchange), actions[1..], defaultExchange, p')
  }

  // ---- What every interleaving keeps

  function InHand(m: Option<Message>): seq<Message>
  {
    if m.Some? then [m.value] else []
  }

  // How many workers hold the message m.
  function Held(workers: seq<Option<Message>>, m: Message): nat
  {
    Tally(workers, (x: Option<Message>) => if x == Some(m) then 1 else 0)
  }

  lemma HeldUpdate(workers: seq<Option<Message>>, w: nat, to: Option<Message>, m: Message)
    requires w < |workers|
    ensures Held(workers[w := to], m) + (if workers[w] == Some(m) then 1 else 0) ==
            Held(workers, m) + if to == Some(m) then 1 else 0
  {
    TallyUpdate(workers, w, to, (x: Option<Message>) => if x == Some(m) then 1 else 0);
  }

  // Each message, as often as it occurs.
  function Times(ms: seq<Message>, m: Message): nat
  {
    multiset(ms)[m]
  }

  lemma TimesAppend(a: seq<Message>, b: seq<Message>, m: Message)
    ensures Times(a + b, m) == Times(a, m) + Times(b, m)
  {}

  function Routed(ms: seq<Message>, defaultExchange: string): (r: seq<Published>)
    ensures |r| == |ms|
  {
    seq(|ms|, i requires 0 <= i < |ms| => Route(ms[i], defaultExchange))
  }

  // What the queue was given but no worker has received yet, in order.
  function Line(p: Pipe): seq<Message>
  {
    p.channel + InHand(p.feeder) + Contents(p.q)
  }

  ghost predicate Inv(p: Pipe, defaultExchange: string)
  {
    && Valid(p.q)
    && |p.channel| <= CHANNEL_SIZE
    && p.arrived == p.taken + Line(p)
    && (forall m :: Times(p.taken, m) == Times(p.sent, m) + Held(p.workers, m))
    && (|p.workers| == 1 ==> p.taken == p.sent + InHand(p.workers[0]))
    && p.published == Routed(p.sent, defaultExchange)
  }

  lemma BeginKeeps(disk: seq<Message>, workers: nat, defaultExchange: string)
    ensures Inv(Begin(disk, workers), defaultExchange)
  {
    var p := Begin(disk, workers);
    forall m {
      TallyZero(p.workers, (x: Option<Message>) => if x == Some(m) then 1 else 0);
    }
    OpenedIsValid(disk);
    assert Line(p) == disk && [] + disk == disk;
  }

  lemma QueueSideKeeps(p: Pipe, a: Action, d: string)
    requires Inv(p, d) && Enabled(p, a) && (a.Arrive? || a.Feed? || a.Send?)
    ensures Inv(Next(p, a, d), d)
  {
    var p' := Next(p, a, d);
    match a
    case Arrive(m) =>
      PutAppends(p.q, m);
      hide Contents, Valid, Put;
      assert p'.arrived == p.taken + (Line(p) + [m]);
      assert Line(p) + [m] == Line(p');
    case Feed =>
      TakePops(p.q);
      hide Contents, Valid, Take;
      assert Line(p) == Line(p');
    case Send =>
      hide Contents, Valid;
      assert Line(p) == Line(p');
  }

  lemma ReceiveKeeps(p: Pipe, w: nat, d: string)
    requires Inv(p, d) && Enabled(p, Receive(w))
    ensures Inv(Next(p, Receive(w), d), d)
  {
    hide Contents, Valid, Routed;
    var p' := Next(p, Receive(w), d);
    var first := p.channel[0];
    assert Line(p) == [first] + Line(p');
    assert p.taken + ([first] + Line(p')) == (p.taken + [first]) + Line(p');
    forall m
      ensures Times(p'.taken, m) == Times(p'.sent, m) + Held(p'.workers, m)
    {
      HeldUpdate(p.workers, w, Some(first), m);
      TimesAppend(p.taken, [first], m);
      hide Held;
    }
    hide Line, Held, Times;
  }

  lemma PushKeeps(p: Pipe, w: nat, ok: bool, d: string)
    requires Inv(p, d) && Enabled(p, Push(w, ok))
    ensures Inv(Next(p, Push(w, ok), d), d)
  {
    if ok {
      hide Contents, Valid;
      var p' := Next(p, Push(w, ok), d);
      var pushed := p.workers[w].value;
      forall m
        ensures Times(p'.taken, m) == Times(p'.sent, m) + Held(p'.workers, m)
      {
        HeldUpdate(p.workers, w, None, m);
        TimesAppend(p.sent, [pushed], m);
        hide Held;
      }
      assert Line(p') == Line(p);
      assert Routed(p'.sent, d) == Routed(p.sent, d) + [Route(pushed, d)];
      hide Line, Held, Routed, Times;
    }
  }

  lemma StepKeeps(p: Pipe, a: Action, d: string)
    requires Inv(p, d) && Enabled(p, a)
    ensures Inv(Next(p, a, d), d)
  {
    hide Inv, Next;
    match a
    case Receive(w) => ReceiveKeeps(p, w, d);
    case Push(w, ok) => PushKeeps(p, w, ok, d);
    case Arrive(_) => QueueSideKeeps(p, a, d);
    case Feed => QueueSideKeeps(p, a, d);
    case Send => QueueSideKeeps(p, a, d);
  }

  lemma {:induction false} RunKeeps(p: Pipe, actions: seq<Action>, d: string, p': Pipe)
    requires Inv(p, d) && IsRun(p, actions, d, p')
    ensures Inv(p', d)
    ensures |p'.workers| == |p.workers|
    decreases |actions|
  {
    if actions != [] {
      StepKeeps(p, actions[0], d);
      assert |Next(p, actions[0], d).workers| == |p.workers|;
      hide Inv, Next;
      RunKeeps(Next(p, actions[0], d), actions[1..], d, p');
    }
  }

  // ---- The theorems

  // The message itself, to the exchange it names or, if it names none, to the
  // configured one.
  predicate GoesTo(out: Published, m: Message, defaultExchange: string)
  {
    && out.body == m.body
    && (m.exchange == "" ==> out.exchange == defaultExchange)
    && (m.exchange != "" ==> out.exchange == m.exchange)
  }

  lemma RoutedWell(ms: seq<Message>, d: string)
    ensures forall i :: 0 <= i < |ms| ==> GoesTo(Routed(ms, d)[i], ms[i], d)
  {}

  // With one worker, whatever has been published is the front of what arrived,
  // in order, each message to its own exchange, whatever pushes failed.
  lemma OneWorkerPublishesInOrder(disk: seq<Message>, actions: seq<Action>, d: string, p: Pipe)
    requires IsRun(Begin(disk, 1), actions, d, p)
    ensures |p.workers| == 1
    ensures p.arrived == p.sent + InHand(p.workers[0]) + p.channel + InHand(p.feeder) + Contents(p.q)
    ensures p.published == Routed(p.sent, d) && p.sent <= p.arrived
    ensures forall i :: 0 <= i < |p.sent| ==> GoesTo(p.published[i], p.sent[i], d)
  {
    BeginKeeps(disk, 1, d);
    RunKeeps(Begin(disk, 1), actions, d, p);
    RoutedWell(p.sent, d);
    hide Contents, Valid, Routed;
    assert p.arrived == p.sent + (InHand(p.workers[0]) + Line(p));
  }

  // With any number of workers nothing is lost or doubled.
  lemma NothingLostOrDoubled(disk: seq<Message>, workers: nat, actions: seq<Action>, d: string, p: Pipe)
    requires IsRun(Begin(disk, workers), actions, d, p)
    ensures forall m :: Times(p.arrived, m) == Times(p.sent, m) + Held(p.workers, m) + Times(Line(p), m)
    ensures p.published == Routed(p.sent, d)
    ensures forall i :: 0 <= i < |p.sent| ==> GoesTo(p.published[i], p.sent[i], d)
  {
    BeginKeeps(disk, workers, d);
    RunKeeps(Begin(disk, workers), actions, d, p);
    RoutedWell(p.sent, d);
    hide Contents, Valid, Routed, Held, Line;
    forall m {
      TimesAppend(p.taken, Line(p), m);
    }
  }

  // ---- Progress

  // Workers with a message in hand.
  function Busy(workers: seq<Option<Message>>): nat
  {
    Tally(workers, (x: Option<Message>) => |InHand(x)|)
  }

  lemma BusyUpdate(workers: seq<Option<Message>>, w: nat, m: Option<Message>)
    requires w < |workers|
    ensures Busy(workers[w := m]) + |InHand(workers[w])| == Busy(workers) + |InHand(m)|
  {
    TallyUpdate(workers, w, m, (x: Option<Message>) => |InHand(x)|);
  }

  lemma BusyZero(workers: seq<Option<Message>>)
    ensures Busy(workers) == 0 <==> forall w :: 0 <= w < |workers| ==> workers[w].None?
  {
    TallyZero(workers, (x: Option<Message>) => |InHand(x)|);
  }

  // Steps the messages inside still have to go: into the feeder, the channel,
  // a worker and out.
  function ToGo(p: Pipe): nat
  {
    4 * |Contents(p.q)| + 3 * |InHand(p.feeder)| + 2 * |p.channel| + Busy(p.workers)
  }

  // Every step but an arrival or a failed push brings the end one step nearer.
  lemma StepsForward(p: Pipe, a: Action, d: string)
    requires Inv(p, d) && Enabled(p, a)
    ensures ToGo(Next(p, a, d)) ==
            if a.Arrive? then ToGo(p) + 4 else if a.Push? && !a.ok then ToGo(p) else ToGo(p) - 1
  {
    hide Routed, Held;
    match a
    case Arrive(m) => PutAppends(p.q, m);
    case Feed => TakePops(p.q);
    case Send =>
    case Receive(w) => BusyUpdate(p.workers, w, Some(p.channel[0]));
    case Push(w, ok) => BusyUpdate(p.workers, w, None);
  }

  // The pipeline cannot get stuck: while anything is inside and there is a
  // worker, some step other than a failed push is possible; and once nothing
  // is inside, everything that arrived has been published.
  lemma NeverStuck(p: Pipe, d: string) returns (a: Action)
    requires Inv(p, d) && |p.workers| > 0
    ensures ToGo(p) > 0 ==> Enabled(p, a) && !a.Arrive? && (a.Push? ==> a.ok)
  {
    TakePops(p.q);
    BusyZero(p.workers);
    hide Contents, Routed, Held, Busy;
    a := Feed;
    if w :| 0 <= w < |p.workers| && p.workers[w].Some? {
      a := Push(w, true);
    } else if p.channel != [] {
      a := Receive(0);
    } else if p.feeder.Some? {
      a := Send;
    }
  }

  lemma AllPublished(p: Pipe, d: string)
    requires Inv(p, d) && ToGo(p) == 0
    ensures multiset(p.arrived) == multiset(p.sent)
    ensures |p.workers| == 1 ==> p.arrived == p.sent
  {
    BusyZero(p.workers);
    assert Line(p) == [] && p.taken + [] == p.taken;
    forall m
      ensures multiset(p.arrived)[m] == multiset(p.sent)[m]
    {
      TallyZero(p.workers, (x: Option<Message>) => if x == Some(m) then 1 else 0);
      assert Times(p.arrived, m) == Times(p.sent, m);
    }
  }

  // ---- The channel's size

  lemma {:induction false} RunAppend(p: Pipe, a: seq<Action>, d: string, p': Pipe, b: seq<Action>, p'': Pipe)
    requires IsRun(p, a, d, p') && IsRun(p', b, d, p'')
    ensures IsRun(p, a + b, d, p'')
    decreases |a|
  {
    hide Enabled, Next;
    if a == [] {
      assert a + b == b;
    } else {
      assert (a + b)[1..] == a[1..] + b;
      RunAppend(Next(p, a[0], d), a[1..], d, p', b, p'');
    }
  }

  lemma OneStep(p: Pipe, a: Action, d: string)
    requires Enabled(p, a)
    ensures IsRun(p, [a], d, Next(p, a, d))
  {
    assert [a][1..] == [];
    hide Enabled, Next;
  }

  // The channel never holds more than 1000 messages, and with no worker
  // receiving it fills up to them; then the feeder waits with one in hand.
  lemma ChannelHoldsAThousand(disk: seq<Message>, workers: nat, actions: seq<Action>, d: string, p: Pipe)
    requires IsRun(Begin(disk, workers), actions, d, p)
    ensures |p.channel| <= 1000
  {
    BeginKeeps(disk, workers, d);
    RunKeeps(Begin(disk, workers), actions, d, p);
    hide IsRun;
  }

  lemma {:induction false} ChannelFills(disk: seq<Message>, workers: nat, n: nat, d: string)
    returns (actions: seq<Action>, p: Pipe)
    requires n <= 1000 && n < |disk|
    ensures IsRun(Begin(disk, workers), actions, d, p)
    ensures Inv(p, d) && p.arrived == disk && p.taken == []
    ensures |p.channel| == n && p.feeder.Some? && (Enabled(p, Send) <==> n < 1000)
  {
    var p0 := Begin(disk, workers);
    BeginKeeps(disk, workers, d);
    if n == 0 {
      actions, p := [Feed], Next(p0, Feed, d);
      OpenedIsValid(disk);
      OneStep(p0, Feed, d);
      StepKeeps(p0, Feed, d);
    } else {
      var before, p1 := ChannelFills(disk, workers, n - 1, d);
      var p2 := Next(p1, Send, d);
      OneStep(p1, Send, d);
      StepKeeps(p1, Send, d);
      assert |disk| == |Line(p2)| == n + |Contents(p2.q)|;
      TakePops(p2.q);
      StepKeeps(p2, Feed, d);
      OneStep(p2, Feed, d);
      p := Next(p2, Feed, d);
      RunAppend(p1, [Send], d, p2, [Feed], p);
      RunAppend(p0, before, d, p1, [Send] + [Feed], p);
      actions := before + ([Send] + [Feed]);
    }
  }
}
