/** The messaging queue that merges tasks with the same key: against the list of all outstanding calls
    it stands for. */
module CompactingQueues {
  import opened Prelude

  /** The function to run, named by the position of its call among all calls, and who waits for it. */
  datatype Entry = Entry(func: nat, futures: seq<nat>)

  datatype Queue = Queue(order: seq<string>, table: map<string, Entry>)

  datatype Call = Call(key: string, func: nat, futures: seq<nat>)

  /** How a future ended: with the result or the exception of a function, or cancelled by its waiter. */
  datatype Settlement = By(func: nat, failed: bool) | GivenUp

  const EMPTY := Queue([], map[])

  function Enqueue(q: Queue, c: Call, front: bool): Queue {
    if c.key in q.table then q.(table := q.table[c.key := Entry(c.func, q.table[c.key].futures + c.futures)])
    else Queue(if front then [c.key] + q.order else q.order + [c.key], q.table[c.key := Entry(c.func, c.futures)])
  }

  function Take(q: Queue): (Queue, Entry)
    requires q.order != [] && q.order[0] in q.table
  {
    (Queue(q.order[1..], q.table - {q.order[0]}), q.table[q.order[0]])
  }

  /** Only futures that are not done are touched. */
  function SettleAll(settled: map<nat, Settlement>, futures: seq<nat>, how: Settlement): map<nat, Settlement> {
    if futures == [] then settled
    else
      var before, last := SettleAll(settled, futures[..|futures| - 1], how), futures[|futures| - 1];
      if last in before then before else before[last := how]
  }

  class MessagingRateLimiter {
    var queueList: seq<string>
    var queueMap: map<string, Entry>
    var settled: map<nat, Settlement>

    ghost function View(): Queue
      reads this
    {
      Queue(queueList, queueMap)
    }

    constructor ()
      ensures View() == EMPTY && settled == map[]
    {
      queueList, queueMap, settled := [], map[], map[];
    }

    method EnqueueInternalMulti(func: nat, futures: seq<nat>, dedupKey: string, front: bool)
      modifies this`queueList, this`queueMap
      ensures View() == Enqueue(old(View()), Call(dedupKey, func, futures), front)
    {
      if dedupKey in queueMap {
        queueMap := queueMap[dedupKey := Entry(func, queueMap[dedupKey].futures + futures)];
      } else {
        queueMap := queueMap[dedupKey := Entry(func, futures)];
        if front {
          queueList := [dedupKey] + queueList;
        } else {
          queueList := queueList + [dedupKey];
        }
      }
    }

    /** The worker's locked step. */
    method TakeNext() returns (entry: Entry)
      requires queueList != [] && queueList[0] in queueMap
      modifies this`queueList, this`queueMap
      ensures (View(), entry) == Take(old(View()))
    {
      var key := queueList[0];
      queueList := queueList[1..];
      entry := queueMap[key];
      queueMap := queueMap - {key};
    }

    /** What the worker does once the function has returned or raised. */
    method Settle(entry: Entry, failed: bool)
      modifies this`settled
      ensures settled == SettleAll(old(settled), entry.futures, By(entry.func, failed))
    {
      for k := 0 to |entry.futures|
        invariant settled == SettleAll(old(settled), entry.futures[..k], By(entry.func, failed))
      {
        var f := entry.futures[k];
        assert entry.futures[..k + 1][..k] == entry.futures[..k];
        if f !in settled {
          settled := settled[f := By(entry.func, failed)];
        }
      }
      assert entry.futures[..|entry.futures|] == entry.futures;
    }
  }

  // ---------------------------------------------------------------------------------------------
  // The list of outstanding calls
  // ---------------------------------------------------------------------------------------------

  function Keys(calls: seq<Call>): seq<string> {
    if calls == [] then []
    else
      var front, key := Keys(calls[..|calls| - 1]), calls[|calls| - 1].key;
      if key in front then front else front + [key]
  }

  function OfKey(calls: seq<Call>, key: string): seq<Call> {
    if calls == [] then []
    else OfKey(calls[..|calls| - 1], key) + if calls[|calls| - 1].key == key then [calls[|calls| - 1]] else []
  }

  function NotOfKey(calls: seq<Call>, key: string): seq<Call> {
    if calls == [] then []
    else NotOfKey(calls[..|calls| - 1], key) + if calls[|calls| - 1].key != key then [calls[|calls| - 1]] else []
  }

  function FuturesOf(calls: seq<Call>): seq<nat> {
    if calls == [] then [] else FuturesOf(calls[..|calls| - 1]) + calls[|calls| - 1].futures
  }

  /** Many calls made one: the latest function, and everybody who waits. */
  function Joined(calls: seq<Call>): Entry
    requires calls != []
  {
    Entry(calls[|calls| - 1].func, FuturesOf(calls))
  }

  /** The queue is the list of outstanding calls with the calls of each key made one, in the place of
      the first of them. */
  ghost predicate StandsFor(q: Queue, calls: seq<Call>) {
    && q.order == Keys(calls)
    && (forall key :: key in q.table <==> OfKey(calls, key) != [])
    && (forall key | key in q.table :: q.table[key] == Joined(OfKey(calls, key)))
  }

  lemma {:induction false} KeysMeaning(calls: seq<Call>)
    ensures Distinct(Keys(calls))
    ensures forall key :: key in Keys(calls) <==> OfKey(calls, key) != []
  {
    if calls != [] {
      KeysMeaning(calls[..|calls| - 1]);
    }
  }

  /** The reference: with a new key the call joins at the end or, where asked, at the front; a call for
      a key that waits already joins at the end. */
  function Queued(calls: seq<Call>, c: Call, front: bool): seq<Call> {
    if front && c.key !in Keys(calls) then [c] + calls else calls + [c]
  }

  lemma {:induction false} KeysOfCons(c: Call, calls: seq<Call>)
    requires c.key !in Keys(calls)
    ensures Keys([c] + calls) == [c.key] + Keys(calls)
  {
    if calls == [] {
      assert ([c] + calls)[..0] == [];
    } else {
      assert ([c] + calls)[..|calls|] == [c] + calls[..|calls| - 1];
      KeysOfCons(c, calls[..|calls| - 1]);
    }
  }

  lemma {:induction false} OfKeyOfCons(c: Call, calls: seq<Call>, key: string)
    ensures OfKey([c] + calls, key) == (if c.key == key then [c] else []) + OfKey(calls, key)
  {
    if calls == [] {
      assert ([c] + calls)[..0] == [];
    } else {
      assert ([c] + calls)[..|calls|] == [c] + calls[..|calls| - 1];
      OfKeyOfCons(c, calls[..|calls| - 1], key);
    }
  }

  lemma OfKeyOfSnoc(calls: seq<Call>, c: Call, key: string)
    ensures OfKey(calls + [c], key) == OfKey(calls, key) + if c.key == key then [c] else []
    ensures Keys(calls + [c]) == Keys(calls) + if c.key in Keys(calls) then [] else [c.key]
  {
    assert (calls + [c])[..|calls|] == calls;
  }

  lemma JoinedSnoc(calls: seq<Call>, c: Call)
    ensures Joined(calls + [c]) == Entry(c.func, FuturesOf(calls) + c.futures)
  {
    assert (calls + [c])[..|calls|] == calls;
  }

  lemma JoinedOne(c: Call)
    ensures Joined([c]) == Entry(c.func, c.futures)
  {
    assert [c][..0] == [] && FuturesOf([]) + c.futures == c.futures;
  }

  lemma OfKeyInFront(q: Queue, calls: seq<Call>, c: Call, key: string)
    requires StandsFor(q, calls) && c.key !in q.table
    ensures OfKey([c] + calls, key) == if c.key == key then [c] else OfKey(calls, key)
  {
    OfKeyOfCons(c, calls, key);
    assert [c] + [] == [c] && [] + OfKey(calls, key) == OfKey(calls, key);
  }

  lemma FrontIsJoin(q: Queue, calls: seq<Call>, c: Call)
    requires StandsFor(q, calls) && c.key !in q.table
    ensures StandsFor(Enqueue(q, c, true), [c] + calls)
  {
    KeysMeaning(calls);
    KeysOfCons(c, calls);
    JoinedOne(c);
    var joined := [c] + calls;
    forall key
      ensures OfKey(joined, key) == if c.key == key then [c] else OfKey(calls, key) {
      OfKeyInFront(q, calls, c, key);
    }
  }

  lemma BackIsJoin(q: Queue, calls: seq<Call>, c: Call, front: bool)
    requires StandsFor(q, calls) && (front ==> c.key in q.table)
    ensures StandsFor(Enqueue(q, c, front), calls + [c])
  {
    KeysMeaning(calls);
    OfKeyOfSnoc(calls, c, c.key);
    JoinedSnoc(OfKey(calls, c.key), c);
    assert [] + c.futures == c.futures;
    forall key
      ensures OfKey(calls + [c], key) == if c.key == key then OfKey(calls, key) + [c] else OfKey(calls, key) {
      OfKeyOfSnoc(calls, c, key);
    }
  }

  /** Enqueueing on the merged queue is joining the list. */
  lemma EnqueueIsQueued(q: Queue, calls: seq<Call>, c: Call, front: bool)
    requires StandsFor(q, calls)
    ensures StandsFor(Enqueue(q, c, front), Queued(calls, c, front))
  {
    KeysMeaning(calls);
    if front && c.key !in Keys(calls) {
      FrontIsJoin(q, calls, c);
    } else {
      BackIsJoin(q, calls, c, front);
    }
  }

  lemma {:induction false} KeysWithout(calls: seq<Call>, key: string)
    requires Keys(calls) != [] && Keys(calls)[0] == key
    ensures Keys(NotOfKey(calls, key)) == Keys(calls)[1..]
  {
    var front, last := calls[..|calls| - 1], calls[|calls| - 1];
    KeysMeaning(front);
    if Keys(front) == [] {
      NoCalls(front);
      assert NotOfKey(calls, key) == NotOfKey([], key);
    } else {
      KeysWithout(front, key);
      if last.key == key {
        assert key in Keys(front) && NotOfKey(front, key) + [] == NotOfKey(front, key);
      } else {
        OfKeyOfSnoc(NotOfKey(front, key), last, last.key);
        InTail(Keys(front), last.key);
      }
    }
  }

  lemma InTail(keys: seq<string>, key: string)
    requires keys != [] && key != keys[0]
    ensures key in keys[1..] <==> key in keys
    ensures (keys + [key])[1..] == keys[1..] + [key]
  {
    assert keys == [keys[0]] + keys[1..];
  }

  lemma NoCalls(calls: seq<Call>)
    requires Keys(calls) == []
    ensures calls == []
  {
  }

  lemma OneMoreOfKey(front: seq<Call>, last: Call, key: string)
    ensures OfKey(front + [last], key) == if last.key == key then OfKey(front, key) + [last] else OfKey(front, key)
    ensures NotOfKey(front + [last], key) == if last.key == key then NotOfKey(front, key) else NotOfKey(front, key) + [last]
  {
    assert (front + [last])[..|front|] == front;
  }

  lemma {:induction false} OfKeyWithout(calls: seq<Call>, gone: string, key: string)
    ensures OfKey(NotOfKey(calls, gone), key) == if key == gone then [] else OfKey(calls, key)
  {
    if calls != [] {
      var front, last := calls[..|calls| - 1], calls[|calls| - 1];
      OfKeyWithout(front, gone, key);
      assert calls == front + [last];
      OneMoreOfKey(front, last, gone);
      OneMoreOfKey(front, last, key);
      OneMoreOfKey(NotOfKey(front, gone), last, key);
    }
  }

  lemma TableWithout(q: Queue, calls: seq<Call>, gone: string)
    requires StandsFor(q, calls) && gone in q.table
    ensures forall key :: key in q.table - {gone} <==> OfKey(NotOfKey(calls, gone), key) != []
    ensures forall key | key in q.table - {gone} :: (q.table - {gone})[key] == Joined(OfKey(NotOfKey(calls, gone), key))
  {
    forall key
      ensures OfKey(NotOfKey(calls, gone), key) == if key == gone then [] else OfKey(calls, key) {
      OfKeyWithout(calls, gone, key);
    }
  }

  /** Taking from the merged queue takes the oldest outstanding call with all others of its key: their
      latest function runs, for everybody who waits for one of them. */
  lemma TakeIsBatch(q: Queue, calls: seq<Call>)
    requires StandsFor(q, calls) && q.order != []
    ensures calls != [] && q.order[0] == calls[0].key && q.order[0] in q.table
    ensures var (rest, entry) := Take(q);
            && StandsFor(rest, NotOfKey(calls, calls[0].key))
            && OfKey(calls, calls[0].key) != [] && entry == Joined(OfKey(calls, calls[0].key))
  {
    KeysMeaning(calls);
    var key := q.order[0];
    assert key in q.order;
    FirstKey(calls);
    KeysWithout(calls, key);
    TableWithout(q, calls, key);
  }

  lemma {:induction false} FirstKey(calls: seq<Call>)
    requires calls != []
    ensures Keys(calls) != [] && Keys(calls)[0] == calls[0].key
  {
    var front := calls[..|calls| - 1];
    if front != [] {
      FirstKey(front);
    }
  }
}
