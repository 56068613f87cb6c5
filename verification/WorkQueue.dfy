// The bounded enrichment queue, kept in lazily allocated pages.
module WorkQueue {
  const PAGE_SIZE: nat := 4096
  const DEFAULT_CAPACITY: nat := 1_000_000

  // A slice: its elements and its capacity. Cutting the first element off
  // takes one from both.
  datatype Page<T> = Page(items: seq<T>, room: nat)

  datatype Queue<T> = Queue(pages: seq<Page<T>>, size: int, closed: bool, capacity: nat)

  // The requests in line, oldest first.
  function Flat<T>(pages: seq<Page<T>>): seq<T>
  {
    if pages == [] then [] else pages[0].items + Flat(pages[1..])
  }

  predicate IsFull<T>(p: Page<T>)
  {
    |p.items| == p.room
  }

  function FreeTail<T>(pages: seq<Page<T>>): int
  {
    if pages == [] then 0 else pages[|pages| - 1].room - |pages[|pages| - 1].items|
  }

  // No page is empty, all but the last are full, and the slots already
  // allocated behind the last request never go beyond the capacity.
  predicate Valid<T>(q: Queue<T>)
  {
    && q.size == |Flat(q.pages)|
    && (forall i :: 0 <= i < |q.pages| ==> 0 < |q.pages[i].items| <= q.pages[i].room <= PAGE_SIZE)
    && (forall i :: 0 <= i < |q.pages| - 1 ==> IsFull(q.pages[i]))
    && q.size + FreeTail(q.pages) <= q.capacity
  }

  function Fresh<T>(capacity: int): Queue<T>
  {
    Queue([], 0, false, if capacity <= 0 then DEFAULT_CAPACITY else capacity)
  }

  function NewPage(q: Queue): nat
    requires q.size <= q.capacity
  {
    if q.capacity - q.size < PAGE_SIZE then q.capacity - q.size else PAGE_SIZE
  }

  function NeedsPage(q: Queue): bool
  {
    |q.pages| == 0 || IsFull(q.pages[|q.pages| - 1])
  }

  function Append<T>(q: Queue<T>, x: T): Queue<T>
    requires q.size <= q.capacity
  {
    var n := |q.pages|;
    if NeedsPage(q) then q.(pages := q.pages + [Page([x], NewPage(q))], size := q.size + 1)
    else
      var last := q.pages[n - 1];
      q.(pages := q.pages[..n - 1] + [last.(items := last.items + [x])], size := q.size + 1)
  }

  predicate Accepts(q: Queue)
  {
    !q.closed && q.size < q.capacity
  }

  function Offer<T>(q: Queue<T>, x: T): Queue<T>
  {
    if Accepts(q) then Append(q, x) else q
  }

  function Pop<T>(q: Queue<T>): Queue<T>
    requires |q.pages| > 0 && 0 < |q.pages[0].items| <= q.pages[0].room
  {
    var page := q.pages[0];
    if |page.items| == 1 then q.(pages := q.pages[1..], size := q.size - 1)
    else q.(pages := q.pages[0 := Page(page.items[1..], page.room - 1)], size := q.size - 1)
  }

  // ---- The queue as the program keeps it

  class EnrichmentWorkQueue<T> {
    var pages: seq<Page<T>>
    var size: int
    var closed: bool
    const capacity: nat

    ghost function State(): Queue<T>
      reads this
    {
      Queue(pages, size, closed, capacity)
    }

    constructor (capacity: int)
      ensures State() == Fresh(capacity)
    {
      this.capacity := if capacity <= 0 then DEFAULT_CAPACITY else capacity;
      pages := [];
      size := 0;
      closed := false;
    }

    method EnqueueLocked(req: T)
      requires size <= capacity
      modifies this
      ensures State() == Append(old(State()), req)
    {
      if |pages| == 0 || |pages[|pages| - 1].items| == pages[|pages| - 1].room {
        var pageCapacity := PAGE_SIZE;
        var remaining := capacity - size;
        if remaining < pageCapacity {
          pageCapacity := remaining;
        }
        pages := pages + [Page([], pageCapacity)];
      }
      var lastPage := |pages| - 1;
      pages := pages[lastPage := pages[lastPage].(items := pages[lastPage].items + [req])];
      size := size + 1;
      assert [] + [req] == [req];
      assert pages == Append(old(State()), req).pages;
    }

    method Enqueue(req: T) returns (enqueued: bool, wasClosed: bool)
      modifies this
      ensures State() == Offer(old(State()), req)
      ensures enqueued == Accepts(old(State())) && wasClosed == old(closed)
    {
      if closed {
        return false, true;
      }
      if size >= capacity {
        return false, false;
      }
      EnqueueLocked(req);
      return true, false;
    }

    // Past the wait: there is a request, or the queue is closed.
    method Dequeue() returns (req: seq<T>, ok: bool)
      requires Valid(State()) && (size > 0 || closed)
      modifies this
      ensures ok <==> old(size) > 0
      ensures ok ==> State() == Pop(old(State())) && req == [old(pages)[0].items[0]]
      ensures !ok ==> State() == old(State()) && req == []
    {
      if size == 0 {
        return [], false;
      }
      FirstOf(State());
      var page := pages[0];
      req, ok := [page.items[0]], true;
      if |page.items| == 1 {
        pages := pages[1..];
      } else {
        pages := pages[0 := Page(page.items[1..], page.room - 1)];
      }
      size := size - 1;
    }

    method Close()
      modifies this
      ensures State() == old(State()).(closed := true)
    {
      if !closed {
        closed := true;
      }
    }
  }

  // ---- A bounded FIFO

  lemma {:induction false} FlatAppend<T>(a: seq<Page<T>>, b: seq<Page<T>>)
    ensures Flat(a + b) == Flat(a) + Flat(b)
  {
    if a == [] {
      assert a + b == b;
    } else {
      assert (a + b)[1..] == a[1..] + b;
      FlatAppend(a[1..], b);
    }
  }

  lemma FlatOne<T>(p: Page<T>)
    ensures Flat([p]) == p.items
  {}

  lemma FreshIsValid<T>(capacity: int)
    ensures Valid(Fresh<T>(capacity)) && Flat(Fresh<T>(capacity).pages) == []
  {}

  lemma FirstOf<T>(q: Queue<T>)
    requires Valid(q) && q.size > 0
    ensures |q.pages| > 0 && 0 < |q.pages[0].items| <= q.pages[0].room && Flat(q.pages)[0] == q.pages[0].items[0]
  {}

  lemma AppendFlat<T>(q: Queue<T>, x: T)
    requires q.size <= q.capacity
    ensures Flat(Append(q, x).pages) == Flat(q.pages) + [x]
  {
    var n := |q.pages|;
    if NeedsPage(q) {
      var p := Page([x], NewPage(q));
      FlatAppend(q.pages, [p]);
      FlatOne(p);
    } else {
      var front, last := q.pages[..n - 1], q.pages[n - 1];
      assert q.pages == front + [last];
      FlatAppend(front, [last]);
      FlatAppend(front, [last.(items := last.items + [x])]);
      FlatOne(last);
      FlatOne(last.(items := last.items + [x]));
    }
  }

  lemma AppendKeeps<T>(q: Queue<T>, x: T)
    requires Valid(q) && Accepts(q)
    ensures Valid(Append(q, x))
  {
    hide Flat;
    AppendFlat(q, x);
    var n, q' := |q.pages|, Append(q, x);
    assert FreeTail(q'.pages) == if NeedsPage(q) then NewPage(q) - 1 else FreeTail(q.pages) - 1;
    if NeedsPage(q) {
      assert q'.pages[n] == Page([x], NewPage(q)) && forall i :: 0 <= i < n ==> q'.pages[i] == q.pages[i];
    }
    hide Append, FreeTail, NewPage;
  }

  // An accepted request joins the end of the line; nothing else changes it.
  lemma OfferAppends<T>(q: Queue<T>, x: T)
    requires Valid(q)
    ensures Valid(Offer(q, x))
    ensures Flat(Offer(q, x).pages) == if Accepts(q) then Flat(q.pages) + [x] else Flat(q.pages)
  {
    if Accepts(q) {
      AppendKeeps(q, x);
      AppendFlat(q, x);
    }
  }

  lemma PopFlat<T>(q: Queue<T>)
    requires Valid(q) && q.size > 0
    ensures |q.pages| > 0 && 0 < |q.pages[0].items| <= q.pages[0].room
    ensures Flat(Pop(q).pages) == Flat(q.pages)[1..]
  {
    FirstOf(q);
    var page := q.pages[0];
    if |page.items| > 1 {
      assert Pop(q).pages[1..] == q.pages[1..];
    }
  }

  // A dequeue takes the head of the line.
  lemma PopTakesHead<T>(q: Queue<T>)
    requires Valid(q) && q.size > 0
    ensures |q.pages| > 0 && 0 < |q.pages[0].items| <= q.pages[0].room
    ensures Valid(Pop(q)) && Flat(q.pages) == [q.pages[0].items[0]] + Flat(Pop(q).pages)
  {
    PopFlat(q);
    FirstOf(q);
    hide Flat;
    var r := Pop(q);
    if |q.pages[0].items| == 1 {
      assert forall i :: 0 <= i < |r.pages| ==> r.pages[i] == q.pages[i + 1];
    }
  }

  // ---- Every run looks like a run of a bounded FIFO

  datatype Op<T> = Arrive(x: T) | Poll | Shut

  datatype Answer<T> = Accepted | Full | Closed | Got(x: T) | Wait | Done | Ok

  function Step<T>(q: Queue<T>, op: Op<T>): (Queue<T>, Answer<T>)
    requires Valid(q)
  {
    match op
    case Arrive(x) => (Offer(q, x), if q.closed then Closed else if Accepts(q) then Accepted else Full)
    case Poll =>
      if q.size > 0 then
        FirstOf(q);
        (Pop(q), Got(q.pages[0].items[0]))
      else (q, if q.closed then Done else Wait)
    case Shut => (q.(closed := true), Ok)
  }

  datatype Line<T> = Line(waiting: seq<T>, closed: bool, capacity: nat)

  function LineStep<T>(l: Line<T>, op: Op<T>): (Line<T>, Answer<T>)
  {
    match op
    case Arrive(x) =>
      if l.closed then (l, Closed)
      else if |l.waiting| < l.capacity then (l.(waiting := l.waiting + [x]), Accepted)
      else (l, Full)
    case Poll =>
      if l.waiting != [] then (l.(waiting := l.waiting[1..]), Got(l.waiting[0]))
      else (l, if l.closed then Done else Wait)
    case Shut => (l.(closed := true), Ok)
  }

  function LineOf<T>(q: Queue<T>): Line<T>
  {
    Line(Flat(q.pages), q.closed, q.capacity)
  }

  lemma StepRefines<T>(q: Queue<T>, op: Op<T>)
    requires Valid(q)
    ensures Valid(Step(q, op).0)
    ensures LineStep(LineOf(q), op) == (LineOf(Step(q, op).0), Step(q, op).1)
  {
    match op
    case Arrive(x) => OfferAppends(q, x);
    case Poll =>
      if q.size > 0 {
        PopTakesHead(q);
        PopFlat(q);
      }
    case Shut =>
  }

  function Answers<T>(q: Queue<T>, ops: seq<Op<T>>): seq<Answer<T>>
    requires Valid(q)
    decreases |ops|
  {
    if ops == [] then []
    else
      StepRefines(q, ops[0]);
      [Step(q, ops[0]).1] + Answers(Step(q, ops[0]).0, ops[1..])
  }

  function LineAnswers<T>(l: Line<T>, ops: seq<Op<T>>): seq<Answer<T>>
    decreases |ops|
  {
    if ops == [] then [] else [LineStep(l, ops[0]).1] + LineAnswers(LineStep(l, ops[0]).0, ops[1..])
  }

  lemma {:induction false} RunRefines<T>(q: Queue<T>, ops: seq<Op<T>>)
    requires Valid(q)
    ensures Answers(q, ops) == LineAnswers(LineOf(q), ops)
    decreases |ops|
  {
    if ops != [] {
      StepRefines(q, ops[0]);
      hide Valid, Step, LineStep, LineOf;
      RunRefines(Step(q, ops[0]).0, ops[1..]);
    }
  }

  // From a fresh queue on, it answers like an empty line of its capacity.
  lemma FreshRefines<T>(capacity: int, ops: seq<Op<T>>)
    ensures Valid(Fresh<T>(capacity))
    ensures Answers(Fresh(capacity), ops) ==
            LineAnswers(Line([], false, if capacity <= 0 then 1_000_000 else capacity), ops)
  {
    FreshIsValid<T>(capacity);
    RunRefines(Fresh(capacity), ops);
  }

  // ---- Pages

  function Arrived<T>(q: Queue<T>, xs: seq<T>): Queue<T>
  {
    if xs == [] then q else Offer(Arrived(q, xs[..|xs| - 1]), xs[|xs| - 1])
  }

  // The j-th page of xs, cut into pages of 4096, with the room the capacity
  // leaves it.
  function Cut<T>(xs: seq<T>, j: nat, most: nat): Page<T>
    requires 4096 * j < |xs| <= most
  {
    Page(xs[4096 * j..if |xs| - 4096 * j < 4096 then |xs| else 4096 * j + 4096],
         if most - 4096 * j < 4096 then most - 4096 * j else 4096)
  }

  function Cuts<T>(xs: seq<T>, most: nat): (pages: seq<Page<T>>)
    requires |xs| <= most
  {
    seq((|xs| + 4095) / 4096, j requires 0 <= j < (|xs| + 4095) / 4096 => Cut(xs, j, most))
  }

  // Arrivals alone fill pages of 4096 requests, the last one clipped to what is
  // left of the capacity.
  lemma {:induction false} PagesFill<T>(capacity: int, xs: seq<T>)
    requires |xs| <= if capacity <= 0 then 1_000_000 else capacity
    ensures var most := if capacity <= 0 then 1_000_000 else capacity;
            Arrived(Fresh(capacity), xs) == Queue(Cuts(xs, most), |xs|, false, most)
  {
    var most := if capacity <= 0 then 1_000_000 else capacity;
    if xs != [] {
      var n := |xs| - 1;
      PagesFill(capacity, xs[..n]);
      hide Cuts, Append, Fresh;
      CutsGrow(xs[..n], xs[n], most);
      assert xs[..n] + [xs[n]] == xs;
    }
  }

  lemma CutsGrow<T>(xs: seq<T>, x: T, most: nat)
    requires |xs| < most
    ensures Append(Queue(Cuts(xs, most), |xs|, false, most), x) ==
            Queue(Cuts(xs + [x], most), |xs| + 1, false, most)
  {
    var q, k := Queue(Cuts(xs, most), |xs|, false, most), |Cuts(xs, most)|;
    if |xs| % 4096 == 0 {
      CutsStart(xs, x, most);
    } else {
      CutsGoOn(xs, x, most);
    }
  }

  // An earlier page stays as it is.
  lemma SameCut<T>(xs: seq<T>, x: T, j: nat, most: nat)
    requires 4096 * j + 4096 <= |xs| < most
    ensures Cut(xs + [x], j, most) == Cut(xs, j, most) && IsFull(Cut(xs, j, most))
  {}

  lemma CutsStart<T>(xs: seq<T>, x: T, most: nat)
    requires |xs| < most && |xs| % 4096 == 0
    ensures Append(Queue(Cuts(xs, most), |xs|, false, most), x) ==
            Queue(Cuts(xs + [x], most), |xs| + 1, false, most)
  {
    var n := |xs| / 4096;
    var pages, more := Cuts(xs, most), Cuts(xs + [x], most);
    assert |pages| == n && |more| == n + 1;
    forall j | 0 <= j < n
      ensures more[j] == pages[j] && IsFull(pages[j])
    {
      SameCut(xs, x, j, most);
    }
    assert (xs + [x])[4096 * n..4096 * n + 1] == [x];
    assert more == pages + [Page([x], NewPage(Queue(pages, |xs|, false, most)))];
    hide Cuts;
  }

  lemma CutsGoOn<T>(xs: seq<T>, x: T, most: nat)
    requires |xs| < most && |xs| % 4096 != 0
    ensures Append(Queue(Cuts(xs, most), |xs|, false, most), x) ==
            Queue(Cuts(xs + [x], most), |xs| + 1, false, most)
  {
    var n := |xs| / 4096;
    var pages, more := Cuts(xs, most), Cuts(xs + [x], most);
    assert |pages| == |more| == n + 1;
    forall j | 0 <= j < n
      ensures more[j] == pages[j]
    {
      SameCut(xs, x, j, most);
    }
    assert pages[n].items == xs[4096 * n..] && !IsFull(pages[n]);
    assert more[n] == pages[n].(items := pages[n].items + [x]);
    assert more == pages[..n] + [pages[n].(items := pages[n].items + [x])];
    hide Cuts;
  }
}
