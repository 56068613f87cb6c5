// The RabbitMQ consumer's batched acknowledgements, against a broker that
// settles delivery tags as section 1.8.3.13 of the AMQP 0-9-1 reference says:
// basic.ack with multiple set settles every outstanding tag up to the given one.
module AckConsumer {
  const BATCH: nat := 100

  datatype Settlement = Pending | Acked | Nacked

  // One round of the consume loop, or the broker pushing one more message,
  // which then waits unread. `processed` is whether processMessage succeeded;
  // `ackOk` and `nackOk` whether the channel took an ack or nack sent in this
  // round.
  datatype Event =
    | Push
    | Delivery(processed: bool, ackOk: bool, nackOk: bool)
    | Tick(ackOk: bool)
    | Stopped(ackOk: bool)
    | Closed

  // What the broker knows: delivery tags count up from 1, and tag t is
  // recorded at index t - 1. `read` is how many of them the consumer has read.
  datatype Broker = Broker(tags: seq<Settlement>, read: nat)

  datatype Consumer = Consumer(unackedCount: nat, lastAckDeliveryTag: nat)

  datatype Session = Session(c: Consumer, b: Broker)

  function AckMultiple(b: Broker, tag: nat, ok: bool): (r: Broker)
    ensures |r.tags| == |b.tags| && r.read == b.read
  {
    if !ok then b
    else b.(tags := seq(|b.tags|, i requires 0 <= i < |b.tags| =>
              if i < tag && b.tags[i].Pending? then Acked else b.tags[i]))
  }

  function Nack(b: Broker, tag: nat, ok: bool): Broker
  {
    if ok && 1 <= tag <= |b.tags| && b.tags[tag - 1].Pending? then b.(tags := b.tags[tag - 1 := Nacked]) else b
  }

  predicate HasUnacked(c: Consumer)
  {
    c.unackedCount > 0 && c.lastAckDeliveryTag > 0
  }

  function OnDelivery(s: Session, processed: bool, ackOk: bool, nackOk: bool): Session
  {
    var tag := s.b.read + 1;
    var b := s.b.(read := tag);
    if !processed then
      var acked := if HasUnacked(s.c) then AckMultiple(b, s.c.lastAckDeliveryTag, ackOk) else b;
      var count := if HasUnacked(s.c) then 0 else s.c.unackedCount;
      Session(Consumer(count, tag), Nack(acked, tag, nackOk))
    else
      var count := s.c.unackedCount + 1;
      if count >= BATCH then Session(Consumer(if ackOk then 0 else count, tag), AckMultiple(b, tag, ackOk))
      else Session(Consumer(count, tag), b)
  }

  function Next(s: Session, e: Event): Session
  {
    match e
    case Push => s.(b := s.b.(tags := s.b.tags + [Pending]))
    case Delivery(processed, ackOk, nackOk) =>
      // There has to be something to read.
      if s.b.read < |s.b.tags| then OnDelivery(s, processed, ackOk, nackOk) else s
    case Tick(ackOk) =>
      if HasUnacked(s.c) then
        Session(if ackOk then s.c.(unackedCount := 0) else s.c, AckMultiple(s.b, s.c.lastAckDeliveryTag, ackOk))
      else s
    case Stopped(ackOk) =>
      if HasUnacked(s.c) then s.(b := AckMultiple(s.b, s.c.lastAckDeliveryTag, ackOk)) else s
    case Closed => s
  }

  const START := Session(Consumer(0, 0), Broker([], 0))

  // The loop ends with the event that stops it.
  function After(s: Session, events: seq<Event>): Session
    decreases |events|
  {
    if events == [] then s
    else if events[0].Stopped? || events[0].Closed? then Next(s, events[0])
    else After(Next(s, events[0]), events[1..])
  }

  // The delivery channel closes before the consumer is stopped.
  predicate ClosedFirst(events: seq<Event>)
  {
    events != [] && !events[0].Stopped? && (events[0].Closed? || ClosedFirst(events[1..]))
  }

  // ---- The loop itself

  class RabbitMQReader {
    var unackedCount: nat
    var lastAckDeliveryTag: nat
    var broker: Broker

    ghost function View(): Session
      reads this
    {
      Session(Consumer(unackedCount, lastAckDeliveryTag), broker)
    }

    // channel.Ack(tag, true)
    method Ack(tag: nat, ok: bool) returns (sent: bool)
      modifies this`broker
      ensures broker == AckMultiple(old(broker), tag, ok) && sent == ok
    {
      broker := AckMultiple(broker, tag, ok);
      sent := ok;
    }

    method OnMessage(processed: bool, ackOk: bool, nackOk: bool)
      modifies this
      ensures View() == OnDelivery(old(View()), processed, ackOk, nackOk)
    {
      var tag := broker.read + 1;
      broker := broker.(read := tag);
      if !processed {
        if unackedCount > 0 && lastAckDeliveryTag > 0 {
          var sent := Ack(lastAckDeliveryTag, ackOk);
          unackedCount := 0;
        }
        broker := Nack(broker, tag, nackOk);
        lastAckDeliveryTag := tag;
      } else {
        unackedCount := unackedCount + 1;
        lastAckDeliveryTag := tag;
        if unackedCount >= BATCH {
          var sent := Ack(lastAckDeliveryTag, ackOk);
          if sent {
            unackedCount := 0;
          }
        }
      }
    }

    // False is the source's error for a closed delivery channel.
    method Consume(events: seq<Event>) returns (ok: bool)
      modifies this
      ensures View() == After(START, events)
      ensures ok <==> !ClosedFirst(events)
    {
      broker := Broker([], 0);
      unackedCount := 0;
      lastAckDeliveryTag := 0;
      ok := true;
      var i := 0;
      assert events[0..] == events;
      while i < |events|
        invariant i <= |events|
        invariant After(START, events) == After(View(), events[i..])
        invariant ClosedFirst(events) == ClosedFirst(events[i..])
      {
        match events[i] {
          case Closed =>
            return false;
          case Stopped(ackOk) =>
            if unackedCount > 0 && lastAckDeliveryTag > 0 {
              var sent := Ack(lastAckDeliveryTag, ackOk);
            }
            return;
          case Tick(ackOk) =>
            if unackedCount > 0 && lastAckDeliveryTag > 0 {
              var sent := Ack(lastAckDeliveryTag, ackOk);
              if sent {
                unackedCount := 0;
              }
            }
          case Push =>
            broker := broker.(tags := broker.tags + [Pending]);
          case Delivery(processed, ackOk, nackOk) =>
            if broker.read < |broker.tags| {
              OnMessage(processed, ackOk, nackOk);
            }
        }
        i := i + 1;
      }
    }
  }

  // ---- What a run amounts to, told from its events alone

  // A run of the loop that is still going, in which every message read was
  // pushed before.
  predicate Running(events: seq<Event>)
  {
    events != [] ==>
      var before, e := events[..|events| - 1], events[|events| - 1];
      Running(before) && !e.Stopped? && !e.Closed? && (e.Delivery? ==> |Read(before)| < Pushed(before))
  }

  function Pushed(events: seq<Event>): nat
  {
    if events == [] then 0
    else Pushed(events[..|events| - 1]) + if events[|events| - 1].Push? then 1 else 0
  }

  // The messages read, in the order of their tags.
  function Read(events: seq<Event>): (ds: seq<Event>)
    ensures forall i :: 0 <= i < |ds| ==> ds[i].Delivery?
  {
    if events == [] then []
    else Read(events[..|events| - 1]) + if events[|events| - 1].Delivery? then [events[|events| - 1]] else []
  }

  // Successes since the count was last cleared: by an ack that got through, or
  // by a failure.
  function Count(events: seq<Event>): nat
  {
    if events == [] then 0
    else
      var n := Count(events[..|events| - 1]);
      match events[|events| - 1]
      case Delivery(true, ackOk, _) => if n + 1 >= BATCH && ackOk then 0 else n + 1
      case Delivery(false, _, _) => 0
      case Tick(ackOk) => if ackOk then 0 else n
      case _ => n
  }

  // The highest tag a cumulative ack got through for.
  function AckedUpTo(events: seq<Event>): nat
  {
    if events == [] then 0
    else
      var before := events[..|events| - 1];
      match events[|events| - 1]
      case Delivery(true, ackOk, _) =>
        if Count(before) + 1 >= BATCH && ackOk then |Read(before)| + 1 else AckedUpTo(before)
      case Delivery(false, ackOk, _) => if Count(before) > 0 && ackOk then |Read(before)| else AckedUpTo(before)
      case Tick(ackOk) => if Count(before) > 0 && ackOk then |Read(before)| else AckedUpTo(before)
      case _ => AckedUpTo(before)
  }

  // What becomes of a message that was read.
  function Fate(d: Event, i: nat, ackedUpTo: nat): Settlement
    requires d.Delivery?
  {
    if !d.processed && d.nackOk then Nacked else if i < ackedUpTo then Acked else Pending
  }

  // One more event at the end of a run.
  lemma OneMore(before: seq<Event>, e: Event)
    ensures var events, n := before + [e], Count(before);
            && (Running(events) <==>
                  Running(before) && !e.Stopped? && !e.Closed? && (e.Delivery? ==> |Read(before)| < Pushed(before)))
            && Read(events) == Read(before) + (if e.Delivery? then [e] else [])
            && Pushed(events) == Pushed(before) + (if e.Push? then 1 else 0)
    ensures var n := Count(before);
            Count(before + [e]) ==
            match e
            case Delivery(true, ackOk, _) => if n + 1 >= BATCH && ackOk then 0 else n + 1
            case Delivery(false, _, _) => 0
            case Tick(ackOk) => if ackOk then 0 else n
            case _ => n
    ensures var n, m := Count(before), AckedUpTo(before);
            AckedUpTo(before + [e]) ==
            match e
            case Delivery(true, ackOk, _) => if n + 1 >= BATCH && ackOk then |Read(before)| + 1 else m
            case Delivery(false, ackOk, _) => if n > 0 && ackOk then |Read(before)| else m
            case Tick(ackOk) => if n > 0 && ackOk then |Read(before)| else m
            case _ => m
  {
    var events := before + [e];
    assert events[..|events| - 1] == before && events[|events| - 1] == e;
  }

  ghost predicate Told(s: Session, events: seq<Event>)
  {
    var n := |Read(events)|;
    && |s.b.tags| == Pushed(events) && s.b.read == n <= Pushed(events)
    && s.c == Consumer(Count(events), n) && Count(events) <= n && AckedUpTo(events) <= n
    && forall i :: 0 <= i < |s.b.tags| ==>
         s.b.tags[i] == if i < n then Fate(Read(events)[i], i, AckedUpTo(events)) else Pending
  }

  lemma ToldStep(s: Session, before: seq<Event>, e: Event)
    requires Told(s, before) && Running(before + [e])
    ensures Told(Next(s, e), before + [e])
  {
    OneMore(before, e);
    hide Running, Read, Pushed, Count, AckedUpTo;
    if e.Delivery? {
      var ds := Read(before) + [e];
      assert forall i :: 0 <= i < |Read(before)| ==> ds[i] == Read(before)[i];
    }
  }

  predicate Going(events: seq<Event>)
  {
    forall e :: e in events ==> !e.Stopped? && !e.Closed?
  }

  lemma {:induction false} AfterLast(s: Session, before: seq<Event>, e: Event)
    requires Going(before)
    ensures After(s, before + [e]) == Next(After(s, before), e)
    decreases |before|
  {
    hide Next;
    if before == [] {
      assert before + [e] == [e] && [e][1..] == [];
    } else {
      assert (before + [e])[1..] == before[1..] + [e];
      AfterLast(Next(s, before[0]), before[1..], e);
    }
  }

  lemma {:induction false} RunningGoes(events: seq<Event>)
    requires Running(events)
    ensures Going(events)
  {
    if events != [] {
      RunningGoes(events[..|events| - 1]);
      assert forall e :: e in events ==> e in events[..|events| - 1] || e == events[|events| - 1];
    }
  }

  lemma {:induction false} ToldRun(events: seq<Event>)
    requires Running(events)
    ensures Told(After(START, events), events)
  {
    if events != [] {
      var before, e := events[..|events| - 1], events[|events| - 1];
      assert events == before + [e];
      ToldRun(before);
      RunningGoes(before);
      hide Told, Next;
      AfterLast(START, before, e);
      ToldStep(After(START, before), before, e);
    }
  }

  // The fate of every message, whatever happens to acks and nacks: one that was
  // read is nacked exactly if it failed and its nack got through; any other is
  // acked exactly if a cumulative ack for its tag or a later one got through.
  // One that was not read is left alone.
  lemma FateOfEveryMessage(events: seq<Event>, i: nat)
    requires Running(events) && i < Pushed(events)
    ensures var b, ds := After(START, events).b, Read(events);
            && |b.tags| == Pushed(events)
            && b.tags[i] == if i < |ds| then Fate(ds[i], i, AckedUpTo(events)) else Pending
  {
    ToldRun(events);
  }

  // A failed message is acked if and only if its own nack was lost and an ack
  // that got through reached past it.
  lemma WrongAcks(events: seq<Event>, i: nat)
    requires Running(events) && i < |Read(events)| && !Read(events)[i].processed
    ensures var b := After(START, events).b;
            i < |b.tags| && (b.tags[i].Acked? <==> !Read(events)[i].nackOk && i < AckedUpTo(events))
  {
    ToldRun(events);
  }

  // While nacks get through, no cumulative ack ever covers a message that
  // failed or that waits unread, however many acks are lost.
  lemma AcksAreSafe(events: seq<Event>, i: nat)
    requires Running(events) && forall e :: e in events && e.Delivery? ==> e.nackOk
    requires i < |After(START, events).b.tags| && After(START, events).b.tags[i].Acked?
    ensures i < |Read(events)| && Read(events)[i].processed
  {
    ToldRun(events);
    ReadOnes(events);
  }

  lemma {:induction false} ReadOnes(events: seq<Event>)
    ensures forall d :: d in Read(events) ==> d in events
  {
    if events != [] {
      ReadOnes(events[..|events| - 1]);
    }
  }

  // No event changes a settled tag.
  lemma SettledForGood(s: Session, e: Event, i: nat)
    requires i < |s.b.tags| && !s.b.tags[i].Pending?
    ensures i < |Next(s, e).b.tags| && Next(s, e).b.tags[i] == s.b.tags[i]
  {}

  // One lost nack is enough to get a failed message acked.
  lemma LostNackIsAcked()
    ensures After(START, [Push, Push, Delivery(false, true, false), Delivery(true, true, true), Tick(true)]).b ==
            Broker([Acked, Acked], 2)
  {
    var e0, e1, e2 := Delivery(false, true, false), Delivery(true, true, true), Tick(true);
    var one, two, events := [Push, Push, e0], [Push, Push, e0, e1], [Push, Push, e0, e1, e2];
    hide Running, Read, Pushed, Count, AckedUpTo, After;
    TwoPushed();
    assert [Push, Push] + [e0] == one && one + [e1] == two && two + [e2] == events;
    OneMore([Push, Push], e0);
    OneMore(one, e1);
    OneMore(two, e2);
    assert Read(events) == [e0, e1] && AckedUpTo(events) == 2;
    ToldRun(events);
    TwoRead(After(START, events), events);
  }

  lemma TwoRead(s: Session, events: seq<Event>)
    requires Told(s, events) && Pushed(events) == 2 && |Read(events)| == 2
    ensures s.b.tags == [Fate(Read(events)[0], 0, AckedUpTo(events)), Fate(Read(events)[1], 1, AckedUpTo(events))]
    ensures s.b.read == 2
  {
    hide Read, Pushed, AckedUpTo, Count;
  }

  lemma TwoPushed()
    ensures Running([Push, Push]) && Pushed([Push, Push]) == 2 && Read([Push, Push]) == []
    ensures Count([Push, Push]) == 0 && AckedUpTo([Push, Push]) == 0
  {
    assert [Push, Push][..1] == [Push] && [Push][..0] == [];
    assert Running([Push]) && Read([Push]) == [] && Pushed([Push]) == 1;
  }

  // ---- When the channel takes every ack and nack

  predicate AllSent(e: Event)
  {
    match e
    case Delivery(_, ackOk, nackOk) => ackOk && nackOk
    case Tick(ackOk) => ackOk
    case _ => true
  }

  // The last unackedCount messages read succeeded and are open; every other
  // one is settled, acked exactly when it was processed.
  lemma {:induction false} OpenOnesAreLast(events: seq<Event>)
    requires Running(events) && forall e :: e in events ==> AllSent(e)
    ensures Count(events) < BATCH && Count(events) <= |Read(events)|
    ensures AckedUpTo(events) <= |Read(events)|
    ensures forall i :: |Read(events)| - Count(events) <= i < |Read(events)| ==>
              Read(events)[i].processed && AckedUpTo(events) <= i
    ensures forall i :: 0 <= i < |Read(events)| - Count(events) && Read(events)[i].processed ==> i < AckedUpTo(events)
  {
    if events != [] {
      var before, e := events[..|events| - 1], events[|events| - 1];
      assert forall d :: d in before ==> d in events;
      OpenOnesAreLast(before);
      assert AllSent(e);
      var ds := Read(before);
      assert Read(events) == ds + if e.Delivery? then [e] else [];
      forall i | |Read(events)| - Count(events) <= i < |Read(events)|
        ensures Read(events)[i].processed && AckedUpTo(events) <= i
      {
        if i < |ds| {
          assert Read(events)[i] == ds[i];
        }
      }
    }
  }

  lemma AckedExactlyWhenProcessed(events: seq<Event>)
    requires Running(events) && forall e :: e in events ==> AllSent(e)
    ensures var s, ds := After(START, events), Read(events);
            var open := s.c.unackedCount;
            && open <= 99 && open <= |ds| == s.b.read <= |s.b.tags| && s.c.lastAckDeliveryTag == |ds|
            && (forall i :: 0 <= i < |ds| - open ==> s.b.tags[i] == if ds[i].processed then Acked else Nacked)
            && (forall i :: |ds| - open <= i < |ds| ==> s.b.tags[i].Pending? && ds[i].processed)
            && (forall i :: |ds| <= i < |s.b.tags| ==> s.b.tags[i].Pending?)
  {
    ToldRun(events);
    OpenOnesAreLast(events);
    ReadOnes(events);
    assert forall i :: 0 <= i < |Read(events)| ==> AllSent(Read(events)[i]);
    hide Count, AckedUpTo, Read, Running, After;
  }

  // ---- What stopping leaves open

  // A failure in round m found something to ack, lost that ack, and no success
  // started the count again.
  predicate CutOff(events: seq<Event>, m: nat)
  {
    && m < |events|
    && events[m].Delivery? && !events[m].processed && !events[m].ackOk
    && Count(events[..m]) > 0
    && forall j :: m < j < |events| ==> !(events[j].Delivery? && events[j].processed)
  }

  // After a stop whose own ack gets through, a processed message is left open
  // if and only if such a failure came after it and after every ack that got
  // through for it.
  lemma StopLeavesOpen(events: seq<Event>, i: nat)
    requires Running(events) && i < |Read(events)| && Read(events)[i].processed
    ensures var b := After(START, events + [Stopped(true)]).b;
            && i < |b.tags|
            && (b.tags[i].Pending? <==> exists m: nat :: CutOff(events, m) && AckedUpTo(events[..m]) <= i)
            && (b.tags[i].Acked? <==> !b.tags[i].Pending?)
  {
    ToldRun(events);
    RunningGoes(events);
    AfterLast(START, events, Stopped(true));
    forall m: nat | CutOff(events, m)
      ensures Count(events) == 0 && AckedUpTo(events) == AckedUpTo(events[..m])
    {
      NothingSince(events, m, |events|);
      assert events[..|events|] == events;
    }
    if Count(events) == 0 {
      HowCleared(events);
    }
  }

  lemma {:induction false} NothingSince(events: seq<Event>, m: nat, n: nat)
    requires CutOff(events, m) && m < n <= |events|
    ensures Count(events[..n]) == 0 && AckedUpTo(events[..n]) == AckedUpTo(events[..m])
  {
    assert events[..n][..n - 1] == events[..n - 1] && events[..n][n - 1] == events[n - 1];
    if n > m + 1 {
      NothingSince(events, m, n - 1);
    }
  }

  // A count of zero means a cut-off, or nothing open.
  lemma {:induction false} HowCleared(events: seq<Event>)
    requires Running(events) && Count(events) == 0
    ensures || (exists m: nat :: CutOff(events, m))
            || (forall i :: 0 <= i < |Read(events)| && Read(events)[i].processed ==> i < AckedUpTo(events))
  {
    if events != [] {
      var n := |events| - 1;
      var before, e := events[..n], events[n];
      assert Read(events) == Read(before) + if e.Delivery? then [e] else [];
      if Count(before) == 0 {
        HowCleared(before);
        if m: nat :| CutOff(before, m) {
          assert before[..m] == events[..m];
          assert CutOff(events, m);
        } else {
          forall i | 0 <= i < |Read(events)| && Read(events)[i].processed
            ensures i < AckedUpTo(events)
          {
            assert i < |Read(before)| && Read(events)[i] == Read(before)[i];
          }
        }
      } else if e.Delivery? && !e.processed && !e.ackOk {
        assert CutOff(events, n);
      }
    }
  }

  // Where nothing is lost, stopping settles everything that was read.
  lemma StopSettlesAll(events: seq<Event>)
    requires Running(events) && forall e :: e in events ==> AllSent(e)
    ensures var b, ds := After(START, events + [Stopped(true)]).b, Read(events);
            && |ds| <= |b.tags|
            && (forall i :: 0 <= i < |ds| ==> b.tags[i] == if ds[i].processed then Acked else Nacked)
            && (forall i :: |ds| <= i < |b.tags| ==> b.tags[i].Pending?)
  {
    AckedExactlyWhenProcessed(events);
    RunningGoes(events);
    AfterLast(START, events, Stopped(true));
  }

  // A processed message that a stop leaves open although every nack, and the
  // stop's own ack, got through.
  lemma LostAckIsForgotten()
    ensures After(START, [Push, Push, Delivery(true, true, true), Delivery(false, false, true), Stopped(true)]).b ==
            Broker([Pending, Nacked], 2)
  {
    var e0, e1 := Delivery(true, true, true), Delivery(false, false, true);
    var one, events := [Push, Push, e0], [Push, Push, e0, e1];
    hide Running, Read, Pushed, Count, AckedUpTo, After;
    TwoPushed();
    assert [Push, Push] + [e0] == one && one + [e1] == events;
    OneMore([Push, Push], e0);
    OneMore(one, e1);
    assert Read(events) == [e0, e1] && AckedUpTo(events) == 0 && Count(events) == 0;
    ToldRun(events);
    TwoRead(After(START, events), events);
    RunningGoes(events);
    AfterLast(START, events, Stopped(true));
    assert events + [Stopped(true)] == [Push, Push, e0, e1, Stopped(true)];
  }

  // ---- By the hundred

  // A push, or a success whose ack would get through.
  predicate Smooth(e: Event) { e.Push? || (e.Delivery? && e.processed && e.ackOk) }

  lemma {:induction false} CountByHundreds(events: seq<Event>)
    requires forall e :: e in events ==> Smooth(e)
    ensures Count(events) == |Read(events)| % 100 && AckedUpTo(events) == |Read(events)| - |Read(events)| % 100
    ensures forall d :: d in Read(events) ==> d.processed
  {
    if events != [] {
      var before, e := events[..|events| - 1], events[|events| - 1];
      assert e in events && forall d :: d in before ==> d in events;
      CountByHundreds(before);
    }
  }

  // With nothing lost, no failure and no tick, exactly the full hundreds are
  // acked, and the count is what is left over.
  lemma AcksByTheHundred(events: seq<Event>)
    requires Running(events) && forall e :: e in events ==> Smooth(e)
    ensures var s, n := After(START, events), |Read(events)|;
            && s.c.unackedCount == n % 100
            && forall i :: 0 <= i < |s.b.tags| ==> s.b.tags[i] == if i + 1 <= n - n % 100 then Acked else Pending
  {
    ToldRun(events);
    CountByHundreds(events);
    hide Count, AckedUpTo, After, Running;
    var s := After(START, events);
    forall i | 0 <= i < |s.b.tags|
      ensures s.b.tags[i] == if i + 1 <= |Read(events)| - |Read(events)| % 100 then Acked else Pending
    {
      if i < |Read(events)| {
        assert Read(events)[i] in Read(events);
      }
    }
  }
}
