/** `BrowserEventStream`: a bounded history of numbered events, readers with cursors, and waiters. */
module EventStream {
  import opened Base

  datatype BrowserEvent = BrowserEvent(seqNo: nat, at: string, kind: string, url: Option<string>, data: Option<string>)

  /** No types means any type. */
  datatype Query = Query(after: Option<int>, types: seq<string>, limit: Option<int>)

  predicate Matches(e: BrowserEvent, q: Query) {
    && !(q.after.Some? && e.seqNo <= q.after.value)
    && !(q.types != [] && e.kind !in q.types)
  }

  function Matching(events: seq<BrowserEvent>, q: Query): seq<BrowserEvent> {
    if events == [] then []
    else
      var earlier := Matching(events[..|events| - 1], q);
      if Matches(events[|events| - 1], q) then earlier + [events[|events| - 1]] else earlier
  }

  /** Between 1 and 100, and 20 when none is asked for. */
  function Limit(q: Query): (n: nat)
    ensures 1 <= n <= 100
  {
    var asked := if q.limit.Some? then q.limit.value else 20;
    var capped := if asked < 100 then asked else 100;
    if capped < 1 then 1 else capped
  }

  function Taken(events: seq<BrowserEvent>, n: nat): seq<BrowserEvent> {
    if |events| <= n then events else events[..n]
  }

  /** `read`. */
  function Read(history: seq<BrowserEvent>, q: Query): seq<BrowserEvent> {
    Taken(Matching(history, q), Limit(q))
  }

  /** The last `keep` events; none when `keep` is negative. */
  function Window(all: seq<BrowserEvent>, keep: int): seq<BrowserEvent> {
    if keep <= 0 then [] else if |all| <= keep then all else all[|all| - keep..]
  }

  /** Events numbered from 1 on. */
  predicate NumberedFrom1(all: seq<BrowserEvent>) {
    forall i :: 0 <= i < |all| ==> all[i].seqNo == i + 1
  }

  predicate Ascending(events: seq<BrowserEvent>) {
    forall i, j :: 0 <= i < j < |events| ==> events[i].seqNo < events[j].seqNo
  }

  lemma WindowAscending(all: seq<BrowserEvent>, keep: int)
    requires NumberedFrom1(all)
    ensures Ascending(Window(all, keep))
    ensures forall e :: e in Window(all, keep) <==> e in all && e.seqNo > |all| - keep
  {
    var w := Window(all, keep);
    var cut := if keep <= 0 then |all| else if |all| <= keep then 0 else |all| - keep;
    forall e ensures e in w <==> e in all && e.seqNo > |all| - keep {
      if e in all {
        var i :| 0 <= i < |all| && all[i] == e;
        if i >= cut { assert w[i - cut] == e; }
      }
      if e in w {
        var i :| 0 <= i < |w| && w[i] == e;
        assert all[cut + i] == e;
      }
    }
  }

  lemma {:induction false} MatchingExact(events: seq<BrowserEvent>, q: Query)
    requires Ascending(events)
    ensures Ascending(Matching(events, q))
    ensures forall e :: e in Matching(events, q) <==> e in events && Matches(e, q)
  {
    hide Matches;
    if events != [] {
      var n := |events| - 1;
      MatchingExact(events[..n], q);
      var earlier := Matching(events[..n], q);
      assert forall e :: e in events <==> e in events[..n] || e == events[n];
      forall i | 0 <= i < |earlier| ensures earlier[i].seqNo < events[n].seqNo {
        assert earlier[i] in earlier;
        var k :| 0 <= k < n && events[k] == earlier[i];
      }
    }
  }

  /** A read of the history is the first matching events, without a gap: in ascending order, all of
      them matching, and nothing matching before the last one left out; and it is empty only if
      nothing matches. */
  lemma ReadExact(history: seq<BrowserEvent>, q: Query)
    requires Ascending(history)
    ensures var out := Read(history, q);
      && Ascending(out) && |out| <= Limit(q)
      && (forall e :: e in out ==> e in history && Matches(e, q))
      && (out == [] <==> forall e :: e in history ==> !Matches(e, q))
      && (out != [] ==> forall e :: e in history && Matches(e, q) && e.seqNo <= out[|out| - 1].seqNo ==> e in out)
      && (|out| < Limit(q) ==> forall e :: e in history && Matches(e, q) ==> e in out)
  {
    hide Matches;
    MatchingExact(history, q);
    var found, out := Matching(history, q), Read(history, q);
    assert forall e :: e in out ==> e in found;
    if out != [] {
      forall e | e in found && e.seqNo <= out[|out| - 1].seqNo ensures e in out {
        var i :| 0 <= i < |found| && found[i] == e;
        assert out[|out| - 1] == found[|out| - 1];
        if i >= |out| { assert false; }
        assert out[i] == e;
      }
    }
    if out == [] { assert found == []; } else { assert out[0] in found; }
  }

  /** A read in the fields of the query: it answers events after the given number and of the given types,
      at most twenty of them, or as many as asked for between one and a hundred; it leaves out an
      earlier such event never, and a later one only when it is full. */
  lemma ReadInFields(history: seq<BrowserEvent>, q: Query)
    requires Ascending(history)
    ensures var out := Read(history, q);
      var most := if q.limit.None? then 20 else if q.limit.value < 1 then 1
        else if q.limit.value > 100 then 100 else q.limit.value;
      && |out| <= most && Ascending(out)
      && (forall e :: e in out ==> e in history)
      && (forall e :: e in out ==>
            (q.after.Some? ==> e.seqNo > q.after.value) && (q.types == [] || e.kind in q.types))
      && forall e ::
        e in history && (q.after.Some? ==> e.seqNo > q.after.value) && (q.types == [] || e.kind in q.types) ==>
           e in out || (|out| == most && out[|out| - 1].seqNo < e.seqNo)
  {
    ReadExact(history, q);
  }

  /** What a waiter was answered. */
  datatype Delivery = Delivery(waiter: nat, events: seq<BrowserEvent>)

  /** `wait` answers at once, or registers a waiter. */
  datatype Wait = Ready(events: seq<BrowserEvent>) | Registered(waiter: nat)

  predicate HasAnswer(delivered: seq<Delivery>, w: nat) {
    exists i :: 0 <= i < |delivered| && delivered[i].waiter == w
  }

  /** Every waiter ever registered is registered still or has been answered, exactly once. */
  predicate OnceEach(delivered: seq<Delivery>, waiters: map<nat, Query>, next: nat) {
    && (forall i, j :: 0 <= i < j < |delivered| ==> delivered[i].waiter != delivered[j].waiter)
    && (forall i :: 0 <= i < |delivered| ==> delivered[i].waiter !in waiters && delivered[i].waiter < next)
    && (forall w :: w in waiters ==> w < next)
    && (forall w: nat :: w < next ==> w in waiters || HasAnswer(delivered, w))
  }

  lemma Deliver(delivered: seq<Delivery>, waiters: map<nat, Query>, next: nat, w: nat, events: seq<BrowserEvent>)
    requires OnceEach(delivered, waiters, next) && w in waiters
    ensures OnceEach(delivered + [Delivery(w, events)], waiters - {w}, next)
  {
    var delivered' := delivered + [Delivery(w, events)];
    forall v: nat | v < next ensures v in waiters - {w} || HasAnswer(delivered', v) {
      if v == w {
        assert delivered'[|delivered|].waiter == v;
      } else if v !in waiters {
        var i :| 0 <= i < |delivered| && delivered[i].waiter == v;
        assert delivered'[i].waiter == v;
      }
    }
  }

  class BrowserEventStream {
    const historyLimit: int
    var lastSeq: nat
    var history: seq<BrowserEvent>
    /** The registered waiters, each with its query, and the number of the next one. */
    var waiters: map<nat, Query>
    var nextWaiter: nat
    /** The promises resolved so far, in order. */
    var delivered: seq<Delivery>
    /** Every event ever recorded. */
    ghost var all: seq<BrowserEvent>

    /** History is the contiguous end of all events, no waiter has a retained match, and each
        waiter is answered at most once. */
    ghost predicate Valid()
      reads this
    {
      && lastSeq == |all| && NumberedFrom1(all) && history == Window(all, historyLimit)
      && (forall w :: w in waiters ==> Read(history, waiters[w]) == [])
      && OnceEach(delivered, waiters, nextWaiter)
    }

    constructor (historyLimit: int)
      ensures Valid() && this.historyLimit == historyLimit && all == [] && waiters == map[] && delivered == []
    {
      this.historyLimit := historyLimit;
      lastSeq, history, waiters, nextWaiter, delivered, all := 0, [], map[], 0, [], [];
    }

    /** `record`: number, keep, evict, and answer every waiter that now has a match. */
    method Record(at: string, kind: string, url: Option<string>, data: Option<string>) returns (event: BrowserEvent)
      requires Valid()
      modifies this
      ensures Valid()
      ensures event == BrowserEvent(|old(all)| + 1, at, kind, url, data) && all == old(all) + [event]
      ensures waiters == old(waiters) - (set w | w in old(waiters) && Matches(event, old(waiters)[w])
        && historyLimit > 0)
      ensures nextWaiter == old(nextWaiter) && Answers(old(delivered), delivered, old(waiters), waiters, event)
    {
      hide Read;
      hide Window;
      hide Matches;
      hide Answers;
      hide OnceEach;
      hide NumberedFrom1;
      event := BrowserEvent(lastSeq + 1, at, kind, url, data);
      WindowSnoc(all, event, historyLimit);
      WaitersSee(all, event, historyLimit, waiters);
      lastSeq := lastSeq + 1;
      all := all + [event];
      history := history + [event];
      if |history| > historyLimit {
        history := if historyLimit <= 0 then [] else history[|history| - historyLimit..];
      }
      Wake(event);
    }

    /** The loop over a snapshot of the waiters after an event was recorded. */
    method Wake(event: BrowserEvent)
      requires forall w :: w in waiters ==>
        Read(history, waiters[w]) == if Matches(event, waiters[w]) && historyLimit > 0 then [event] else []
      requires OnceEach(delivered, waiters, nextWaiter)
      modifies this`waiters, this`delivered
      ensures waiters == old(waiters) - (set w | w in old(waiters) && Matches(event, old(waiters)[w])
        && historyLimit > 0)
      ensures forall w :: w in waiters ==> Read(history, waiters[w]) == []
      ensures OnceEach(delivered, waiters, nextWaiter)
      ensures Answers(old(delivered), delivered, old(waiters), waiters, event)
    {
      hide Read;
      hide Matches;
      hide OnceEach;
      hide Answers;
      NoAnswers(delivered, waiters, event);
      var snapshot := waiters.Keys;
      while snapshot != {}
        invariant snapshot <= waiters.Keys && waiters.Keys <= old(waiters).Keys
        invariant forall w :: w in waiters ==> waiters[w] == old(waiters)[w]
        invariant forall w :: w in waiters && w !in snapshot ==> !(Matches(event, waiters[w]) && historyLimit > 0)
        invariant forall w :: w in old(waiters) && w !in waiters ==> Matches(event, old(waiters)[w]) && historyLimit > 0
        invariant OnceEach(delivered, waiters, nextWaiter)
        invariant Answers(old(delivered), delivered, old(waiters), waiters, event)
        decreases |snapshot|
      {
        var w :| w in snapshot;
        var ready := Read(history, waiters[w]);
        if ready != [] {
          Deliver(delivered, waiters, nextWaiter, w, ready);
          OneMoreAnswer(old(delivered), delivered, old(waiters), waiters, event, w);
          delivered := delivered + [Delivery(w, ready)];
          waiters := waiters - {w};
        }
        snapshot := snapshot - {w};
      }
    }

    /** `read`. */
    method ReadNow(q: Query) returns (events: seq<BrowserEvent>)
      requires Valid()
      ensures events == Read(history, q)
    {
      var found: seq<BrowserEvent> := [];
      for i := 0 to |history|
        invariant found == Matching(history[..i], q)
      {
        assert history[..i + 1][..i] == history[..i];
        if Matches(history[i], q) {
          found := found + [history[i]];
        }
      }
      assert history[..|history|] == history;
      events := Taken(found, Limit(q));
    }

    /** `cursor`. */
    method Cursor() returns (c: nat)
      requires Valid()
      ensures c == |all|
    {
      c := lastSeq;
    }

    /** `wait`: what is there already, or a waiter with a timer. */
    method Wait(q: Query) returns (r: Wait)
      requires Valid()
      modifies this
      ensures Valid() && all == old(all) && delivered == old(delivered)
      ensures match r
        case Ready(events) => events == Read(history, q) && events != [] && waiters == old(waiters)
        case Registered(w) => Read(history, q) == [] && w !in old(waiters) && waiters == old(waiters)[w := q]
    {
      var existing := ReadNow(q);
      if existing != [] {
        return Ready(existing);
      }
      r := Registered(nextWaiter);
      waiters := waiters[nextWaiter := q];
      nextWaiter := nextWaiter + 1;
    }

    /** The timer of a waiter that is still registered. */
    method TimeOut(w: nat)
      requires Valid() && w in waiters
      modifies this
      ensures Valid() && all == old(all)
      ensures waiters == old(waiters) - {w} && delivered == old(delivered) + [Delivery(w, [])]
    {
      Deliver(delivered, waiters, nextWaiter, w, []);
      delivered := delivered + [Delivery(w, [])];
      waiters := waiters - {w};
    }

    /** `close`: every waiter is answered with nothing. */
    method Close()
      requires Valid()
      modifies this
      ensures Valid() && all == old(all) && waiters == map[]
      ensures |delivered| == |old(delivered)| + |old(waiters)| && old(delivered) <= delivered
      ensures forall i :: |old(delivered)| <= i < |delivered| ==>
        delivered[i].waiter in old(waiters) && delivered[i].events == []
    {
      hide OnceEach;
      hide Read;
      hide Window;
      hide NumberedFrom1;
      while waiters != map[]
        invariant lastSeq == |all| && NumberedFrom1(all) && history == Window(all, historyLimit) && all == old(all)
        invariant forall w :: w in waiters ==> w in old(waiters) && Read(history, waiters[w]) == []
        invariant OnceEach(delivered, waiters, nextWaiter) && old(delivered) <= delivered
        invariant |delivered| + |waiters| == |old(delivered)| + |old(waiters)|
        invariant forall i :: |old(delivered)| <= i < |delivered| ==>
          delivered[i].waiter in old(waiters) && delivered[i].events == []
        decreases |waiters|
      {
        var w :| w in waiters;
        Deliver(delivered, waiters, nextWaiter, w, []);
        OneFewer(waiters, w);
        delivered := delivered + [Delivery(w, [])];
        waiters := waiters - {w};
      }
    }
  }

  lemma OneFewer(waiters: map<nat, Query>, w: nat)
    requires w in waiters
    ensures |waiters - {w}| == |waiters| - 1
  {
    assert waiters == (waiters - {w})[w := waiters[w]];
  }

  lemma WindowSnoc(all: seq<BrowserEvent>, e: BrowserEvent, keep: int)
    ensures var longer := Window(all, keep) + [e];
      Window(all + [e], keep) == if |longer| > keep then (if keep <= 0 then [] else longer[|longer| - keep..])
        else longer
  {
  }

  /** A waiter without a match finds, after one more event, that event or nothing. */
  lemma OnlyTheNew(all: seq<BrowserEvent>, e: BrowserEvent, keep: int, q: Query)
    requires NumberedFrom1(all) && e.seqNo == |all| + 1 && Read(Window(all, keep), q) == []
    ensures Read(Window(all + [e], keep), q) == if Matches(e, q) && keep > 0 then [e] else []
  {
    hide Matches;
    hide Read;
    var before, after := Window(all, keep), Window(all + [e], keep);
    WindowAscending(all, keep);
    WindowAscending(all + [e], keep);
    ReadExact(before, q);
    ReadExact(after, q);
    forall x | x in after && x != e ensures !Matches(x, q) {
      assert x in all + [e];
      assert x in before;
    }
    if keep > 0 {
      assert (all + [e])[|all|] == e;
      assert e in after;
      OnlyOne(Read(after, q), e);
    }
  }

  lemma WaitersSee(all: seq<BrowserEvent>, e: BrowserEvent, keep: int, waiters: map<nat, Query>)
    requires NumberedFrom1(all) && e.seqNo == |all| + 1
    requires forall w :: w in waiters ==> Read(Window(all, keep), waiters[w]) == []
    ensures NumberedFrom1(all + [e])
    ensures forall w :: w in waiters ==>
      Read(Window(all + [e], keep), waiters[w]) == if Matches(e, waiters[w]) && keep > 0 then [e] else []
  {
    hide Read;
    hide Window;
    hide Matches;
    forall w | w in waiters
      ensures Read(Window(all + [e], keep), waiters[w]) == if Matches(e, waiters[w]) && keep > 0 then [e] else [] {
      OnlyTheNew(all, e, keep, waiters[w]);
    }
  }

  lemma OnlyOne(out: seq<BrowserEvent>, e: BrowserEvent)
    requires Ascending(out) && forall x :: x in out ==> x == e
    ensures out == [] || out == [e]
  {
    forall i | 0 <= i < |out| ensures out[i] == e {
      assert out[i] in out;
    }
    if out != [] {
      assert 0 < |out| - 1 ==> out[0].seqNo < out[|out| - 1].seqNo;
    }
  }

  /** Each waiter that left was answered with the event, and no other was answered. */
  ghost predicate Answers(start: seq<Delivery>, now: seq<Delivery>, before: map<nat, Query>, left: map<nat, Query>,
                          event: BrowserEvent) {
    && start <= now
    && (forall i :: |start| <= i < |now| ==>
      now[i].waiter in before && now[i].waiter !in left && now[i].events == [event])
    && (forall w :: w in before && w !in left ==> exists i :: |start| <= i < |now| && now[i] == Delivery(w, [event]))
  }

  lemma NoAnswers(start: seq<Delivery>, waiters: map<nat, Query>, event: BrowserEvent)
    ensures Answers(start, start, waiters, waiters, event)
  {
  }

  lemma OneMoreAnswer(start: seq<Delivery>, now: seq<Delivery>, before: map<nat, Query>, left: map<nat, Query>,
                      event: BrowserEvent, w: nat)
    requires Answers(start, now, before, left, event) && w in before && w in left
    ensures Answers(start, now + [Delivery(w, [event])], before, left - {w}, event)
  {
    var now' := now + [Delivery(w, [event])];
    forall v | v in before && v !in left - {w}
      ensures exists i :: |start| <= i < |now'| && now'[i] == Delivery(v, [event]) {
      if v == w {
        assert now'[|now|] == Delivery(v, [event]);
      } else {
        var i :| |start| <= i < |now| && now[i] == Delivery(v, [event]);
        assert now'[i] == Delivery(v, [event]);
      }
    }
  }

  /** Where a reader's cursor stands after a read. */
  function Advanced(cursor: int, out: seq<BrowserEvent>): int {
    if out == [] then cursor else out[|out| - 1].seqNo
  }

  /** One read of a reader that follows the stream: all events recorded by then, and its limit. */
  datatype Poll = Poll(all: seq<BrowserEvent>, limit: Option<int>)

  function QueryAt(cursor: int, types: seq<string>, p: Poll): Query { Query(Some(cursor), types, p.limit) }

  /** The cursor after the polls. */
  function CursorAfter(polls: seq<Poll>, types: seq<string>, keep: int, start: int): int {
    if polls == [] then start
    else
      var c := CursorAfter(polls[..|polls| - 1], types, keep, start);
      Advanced(c, Read(Window(polls[|polls| - 1].all, keep), QueryAt(c, types, polls[|polls| - 1])))
  }

  /** What the polls returned, one after the other. */
  function Received(polls: seq<Poll>, types: seq<string>, keep: int, start: int): seq<BrowserEvent> {
    if polls == [] then []
    else
      var c := CursorAfter(polls[..|polls| - 1], types, keep, start);
      Received(polls[..|polls| - 1], types, keep, start)
      + Read(Window(polls[|polls| - 1].all, keep), QueryAt(c, types, polls[|polls| - 1]))
  }

  /** The stream only grows between the polls of a reader. */
  predicate Growing(polls: seq<Poll>) {
    && (forall i :: 0 <= i < |polls| ==> NumberedFrom1(polls[i].all))
    && (forall i, j :: 0 <= i < j < |polls| ==> polls[i].all <= polls[j].all)
  }

  /** An event of a wanted type. */
  predicate Wanted(e: BrowserEvent, types: seq<string>) { types == [] || e.kind in types }

  /** Poll `k` passed over the event: its cursor went from before it to it or beyond. */
  predicate PassedAt(polls: seq<Poll>, types: seq<string>, keep: int, start: int, k: nat, e: BrowserEvent)
    requires k < |polls|
  {
    CursorAfter(polls[..k], types, keep, start) < e.seqNo <= CursorAfter(polls[..k + 1], types, keep, start)
  }

  /** The event had been evicted when the poll that passed over it looked. */
  ghost predicate Evicted(polls: seq<Poll>, types: seq<string>, keep: int, start: int, e: BrowserEvent) {
    exists k :: 0 <= k < |polls| && PassedAt(polls, types, keep, start, k, e) && e !in Window(polls[k].all, keep)
  }

  /** What was received is in order and wanted, and every wanted event behind the cursor was
      received or had been evicted. */
  ghost predicate Accounted(polls: seq<Poll>, types: seq<string>, keep: int, start: int) {
    var got, c := Received(polls, types, keep, start), CursorAfter(polls, types, keep, start);
    && start <= c && Ascending(got)
    && (forall e :: e in got ==> start < e.seqNo <= c && Wanted(e, types))
    && (forall i, e :: 0 <= i < |polls| && e in polls[i].all && Wanted(e, types) && start < e.seqNo <= c ==>
          e in got || Evicted(polls, types, keep, start, e))
  }

  /** Reads driven by a cursor give every wanted event at most once and in order; and whatever
      wanted event lies behind the cursor was received, unless it had been evicted when the poll
      that passed over it looked. */
  lemma {:induction false} CursorReads(polls: seq<Poll>, types: seq<string>, keep: int, start: int)
    requires Growing(polls)
    ensures Accounted(polls, types, keep, start)
    decreases |polls|
  {
    hide Accounted;
    if polls == [] {
      NothingPolled(types, keep, start);
    } else {
      var n := |polls| - 1;
      CursorReads(polls[..n], types, keep, start);
      CursorStep(polls, types, keep, start, n);
    }
  }

  lemma NothingPolled(types: seq<string>, keep: int, start: int)
    ensures Accounted([], types, keep, start)
  {
  }

  lemma CursorStep(polls: seq<Poll>, types: seq<string>, keep: int, start: int, n: nat)
    requires Growing(polls) && |polls| == n + 1 && Accounted(polls[..n], types, keep, start)
    ensures Accounted(polls, types, keep, start)
  {
    hide Read;
    hide Window;
    hide Evicted;
    hide NumberedFrom1;
    var before := polls[..n];
    var got, c := Received(before, types, keep, start), CursorAfter(before, types, keep, start);
    var q, window := QueryAt(c, types, polls[n]), Window(polls[n].all, keep);
    var out := Read(window, q);
    ReadOfWindow(polls[n].all, keep, q);
    var c' := Advanced(c, out);
    assert Received(polls, types, keep, start) == got + out && CursorAfter(polls, types, keep, start) == c';
    Joined(got, c, window, q, out, types, start);
    forall i, e | 0 <= i < |polls| && e in polls[i].all && Wanted(e, types) && start < e.seqNo <= c'
      ensures e in got + out || Evicted(polls, types, keep, start, e) {
      if e.seqNo <= c {
        BehindBefore(polls, types, keep, start, n, i, e);
      } else if e !in window {
        EvictedNow(polls, types, keep, start, n, e);
      }
    }
  }

  /** What was received before the cursor and what is read after it stay in order. */
  lemma Joined(got: seq<BrowserEvent>, c: int, window: seq<BrowserEvent>, q: Query, out: seq<BrowserEvent>,
               types: seq<string>, start: int)
    requires start <= c && Ascending(got) && (forall e :: e in got ==> start < e.seqNo <= c && Wanted(e, types))
    requires q.after == Some(c) && q.types == types && CleanRead(window, q, out)
    ensures start <= Advanced(c, out) && c <= Advanced(c, out) && Ascending(got + out)
    ensures forall e :: e in got + out ==> start < e.seqNo <= Advanced(c, out) && Wanted(e, types)
  {
    forall j | 0 <= j < |out| ensures c < out[j].seqNo <= Advanced(c, out) && Wanted(out[j], types) {
      assert out[j] in out;
    }
    forall j | 0 <= j < |got| ensures got[j].seqNo <= c {
      assert got[j] in got;
    }
  }

  /** In order, from the window, matching, and without a gap up to its last event. */
  predicate CleanRead(window: seq<BrowserEvent>, q: Query, out: seq<BrowserEvent>) {
    && Ascending(out)
    && (forall e :: e in out ==> e in window && Matches(e, q))
    && (out != [] ==> forall e :: e in window && Matches(e, q) && e.seqNo <= out[|out| - 1].seqNo ==> e in out)
  }

  lemma ReadOfWindow(all: seq<BrowserEvent>, keep: int, q: Query)
    requires NumberedFrom1(all)
    ensures CleanRead(Window(all, keep), q, Read(Window(all, keep), q))
  {
    hide Read;
    hide Window;
    WindowAscending(all, keep);
    ReadExact(Window(all, keep), q);
  }

  lemma EvictedNow(polls: seq<Poll>, types: seq<string>, keep: int, start: int, n: nat, e: BrowserEvent)
    requires |polls| == n + 1 && e !in Window(polls[n].all, keep)
    requires CursorAfter(polls[..n], types, keep, start) < e.seqNo <= CursorAfter(polls, types, keep, start)
    ensures Evicted(polls, types, keep, start, e)
  {
    assert polls[..n + 1] == polls;
    assert PassedAt(polls, types, keep, start, n, e);
  }

  /** An event already behind the cursor was accounted for by the earlier polls. */
  lemma BehindBefore(polls: seq<Poll>, types: seq<string>, keep: int, start: int, n: nat, i: nat, e: BrowserEvent)
    requires Growing(polls) && |polls| == n + 1 && i < |polls| && e in polls[i].all && Wanted(e, types)
    requires start < e.seqNo <= CursorAfter(polls[..n], types, keep, start) && Accounted(polls[..n], types, keep, start)
    ensures e in Received(polls[..n], types, keep, start) || Evicted(polls, types, keep, start, e)
  {
    hide Window;
    hide Evicted;
    hide CursorAfter;
    hide Received;
    var before := polls[..n];
    var j := CursorSeen(before, types, keep, start, e.seqNo);
    SameEvent(polls, i, j, e);
    assert e in before[j].all;
    if e !in Received(before, types, keep, start) {
      EvictedEarlier(polls, types, keep, start, n, e);
    }
  }

  lemma EvictedEarlier(polls: seq<Poll>, types: seq<string>, keep: int, start: int, n: nat, e: BrowserEvent)
    requires n <= |polls| && Evicted(polls[..n], types, keep, start, e)
    ensures Evicted(polls, types, keep, start, e)
  {
    hide Window;
    hide CursorAfter;
    var before := polls[..n];
    var k :| 0 <= k < |before| && PassedAt(before, types, keep, start, k, e) && e !in Window(before[k].all, keep);
    assert before[..k] == polls[..k] && before[..k + 1] == polls[..k + 1] && before[k] == polls[k];
    assert PassedAt(polls, types, keep, start, k, e);
  }

  /** Numbers up to the cursor were recorded by some poll. */
  lemma {:induction false} CursorSeen(polls: seq<Poll>, types: seq<string>, keep: int, start: int, s: int)
    returns (j: nat)
    requires Growing(polls) && start < s <= CursorAfter(polls, types, keep, start)
    ensures j < |polls| && s <= |polls[j].all|
    decreases |polls|
  {
    var n := |polls| - 1;
    var c := CursorAfter(polls[..n], types, keep, start);
    if s <= c {
      j := CursorSeen(polls[..n], types, keep, start, s);
    } else {
      j := n;
      var window := Window(polls[n].all, keep);
      WindowAscending(polls[n].all, keep);
      ReadExact(window, QueryAt(c, types, polls[n]));
      var out := Read(window, QueryAt(c, types, polls[n]));
      assert out[|out| - 1] in out;
    }
  }

  lemma SameEvent(polls: seq<Poll>, i: nat, j: nat, e: BrowserEvent)
    requires Growing(polls) && i < |polls| && j < |polls| && e in polls[i].all && e.seqNo <= |polls[j].all|
    ensures e in polls[j].all
  {
    var k :| 0 <= k < |polls[i].all| && polls[i].all[k] == e;
    if i < j {
      assert polls[j].all[k] == e;
    } else if j < i {
      assert polls[i].all[k] == polls[j].all[k];
    }
  }
}
