/**
 * The change tracker behind `sendOSC (address, value, dump)`: it remembers the
 * last value sent per address and passes a message on when `dump` is set or
 * when the value differs from the one last sent.
 */
module OscGate {
  import opened OscValues
  import opened OscAddress

  /** The tracker's state: the last value per address, and the messages sent so far. */
  datatype GateState = GateState(lastSent: map<string, Value>, queue: seq<Message>)

  /** Whether the gate passes `m` on. */
  predicate Emits(lastSent: map<string, Value>, m: Message, dump: bool) {
    dump || m.address !in lastSent || lastSent[m.address] != m.value
  }

  /** One `sendOSC` call. */
  function Step(g: GateState, m: Message, dump: bool): (r: GateState)
    ensures m.address in r.lastSent && r.lastSent[m.address] == m.value
    ensures forall a :: a != m.address && a in g.lastSent ==> a in r.lastSent && r.lastSent[a] == g.lastSent[a]
    ensures r.lastSent.Keys == g.lastSent.Keys + {m.address}
    ensures r.queue == g.queue || r.queue == g.queue + [m]
    ensures r.queue == g.queue + [m] <==>
      dump || m.address !in g.lastSent || g.lastSent[m.address] != m.value
  {
    GateState(g.lastSent[m.address := m.value], if Emits(g.lastSent, m, dump) then g.queue + [m] else g.queue)
  }

  /** A sequence of `sendOSC` calls with the same `dump` flag, in order. */
  function Run(g: GateState, ms: seq<Message>, dump: bool): (r: GateState)
    ensures |g.queue| <= |r.queue| <= |g.queue| + |ms|
    ensures r.queue[..|g.queue|] == g.queue
    ensures forall k :: 0 <= k < |ms| ==> ms[k].address in r.lastSent
    ensures g.lastSent.Keys <= r.lastSent.Keys
    decreases |ms|
  {
    if ms == [] then g
    else
      var n := |ms| - 1;
      var before := Run(g, ms[..n], dump);
      assert forall k :: 0 <= k < n ==> ms[..n][k] == ms[k];
      Step(before, ms[n], dump)
  }

  /** Every message of `ms` is already cached with its value. */
  predicate Cached(lastSent: map<string, Value>, ms: seq<Message>) {
    forall k :: 0 <= k < |ms| ==> ms[k].address in lastSent && lastSent[ms[k].address] == ms[k].value
  }

  /** A cached message's address holds its value. */
  lemma CachedMember(lastSent: map<string, Value>, ms: seq<Message>, m: Message)
    requires Cached(lastSent, ms) && m in ms
    ensures m.address in lastSent && lastSent[m.address] == m.value
  {
    var k :| 0 <= k < |ms| && ms[k] == m;
  }

  /** The messages of `ms` whose value differs from what `lastSent` holds (reference filter). */
  function Changed(lastSent: map<string, Value>, ms: seq<Message>): seq<Message>
    decreases |ms|
  {
    if ms == [] then []
    else
      var n := |ms| - 1;
      Changed(lastSent, ms[..n]) + if Emits(lastSent, ms[n], false) then [ms[n]] else []
  }

  /** Offering one more message is one more step. */
  lemma RunSnoc(g: GateState, ms: seq<Message>, m: Message, dump: bool)
    ensures Run(g, ms + [m], dump) == Step(Run(g, ms, dump), m, dump)
  {
    assert (ms + [m])[..|ms|] == ms;
  }

  lemma {:induction false} RunAppend(g: GateState, a: seq<Message>, b: seq<Message>, dump: bool)
    ensures Run(g, a + b, dump) == Run(Run(g, a, dump), b, dump)
    decreases |b|
  {
    if b == [] {
      assert a + b == a;
    } else {
      var n := |b| - 1;
      assert a + b == (a + b[..n]) + [b[n]];
      assert b == b[..n] + [b[n]];
      RunSnoc(g, a + b[..n], b[n], dump);
      RunAppend(g, a, b[..n], dump);
      RunSnoc(Run(g, a, dump), b[..n], b[n], dump);
    }
  }

  /** A dump sends every offered message, in order. */
  lemma {:induction false} RunDump(g: GateState, ms: seq<Message>)
    ensures Run(g, ms, true).queue == g.queue + ms
    decreases |ms|
  {
    if ms != [] {
      var n := |ms| - 1;
      RunDump(g, ms[..n]);
      assert ms == ms[..n] + [ms[n]];
    }
  }

  /** Offering values the cache already holds changes nothing and, without dump, sends nothing. */
  lemma {:induction false} RunCachedQuiet(g: GateState, ms: seq<Message>, dump: bool)
    requires Cached(g.lastSent, ms)
    ensures Run(g, ms, dump).lastSent == g.lastSent
    ensures !dump ==> Run(g, ms, dump).queue == g.queue
    decreases |ms|
  {
    if ms != [] {
      var n := |ms| - 1;
      assert Cached(g.lastSent, ms[..n]);
      RunCachedQuiet(g, ms[..n], dump);
      var before := Run(g, ms[..n], dump);
      assert before.lastSent[ms[n].address := ms[n].value] == before.lastSent;
    }
  }

  /** After a run over distinct addresses, the cache holds every offered value. */
  lemma {:induction false} RunCaches(g: GateState, ms: seq<Message>, dump: bool)
    requires Unique(ms)
    ensures Cached(Run(g, ms, dump).lastSent, ms)
    decreases |ms|
  {
    if ms != [] {
      var n := |ms| - 1;
      assert Unique(ms[..n]);
      RunCaches(g, ms[..n], dump);
      var before := Run(g, ms[..n], dump);
      var after := Step(before, ms[n], dump);
      assert Run(g, ms, dump) == after;
      forall k | 0 <= k < |ms|
        ensures ms[k].address in after.lastSent && after.lastSent[ms[k].address] == ms[k].value
      {
        if k < n {
          assert ms[..n][k] == ms[k];
          assert ms[k].address != ms[n].address;
        }
      }
    }
  }

  /** After a run over distinct addresses, each offered message's address holds its value. */
  lemma RunHolds(g: GateState, ms: seq<Message>, dump: bool, m: Message)
    requires Unique(ms) && m in ms
    ensures m.address in Run(g, ms, dump).lastSent && Run(g, ms, dump).lastSent[m.address] == m.value
  {
    RunCaches(g, ms, dump);
    CachedMember(Run(g, ms, dump).lastSent, ms, m);
  }

  /** Offering the same distinct-address messages a second time, without dump, sends nothing. */
  lemma SecondRunQuiet(g: GateState, ms: seq<Message>, dump: bool)
    requires Unique(ms)
    ensures Run(Run(g, ms, dump), ms, false).queue == Run(g, ms, dump).queue
    ensures Run(Run(g, ms, dump), ms, false).lastSent == Run(g, ms, dump).lastSent
  {
    RunCaches(g, ms, dump);
    RunCachedQuiet(Run(g, ms, dump), ms, false);
  }

  /** Before the k-th message of a distinct-address run, its address still holds the value from the start. */
  lemma {:induction false} RunKeepsUntouched(g: GateState, ms: seq<Message>, dump: bool, a: string)
    requires forall k :: 0 <= k < |ms| ==> ms[k].address != a
    ensures a in Run(g, ms, dump).lastSent <==> a in g.lastSent
    ensures a in g.lastSent ==> Run(g, ms, dump).lastSent[a] == g.lastSent[a]
    decreases |ms|
  {
    if ms != [] {
      var n := |ms| - 1;
      RunKeepsUntouched(g, ms[..n], dump, a);
    }
  }

  /**
   * Without dump, a run over distinct addresses sends exactly the messages
   * whose value differs from the cache at the start, in order.
   */
  lemma {:induction false} RunSendsChanged(g: GateState, ms: seq<Message>)
    requires Unique(ms)
    ensures Run(g, ms, false).queue == g.queue + Changed(g.lastSent, ms)
    decreases |ms|
  {
    if ms != [] {
      var n := |ms| - 1;
      assert Unique(ms[..n]);
      RunSendsChanged(g, ms[..n]);
      RunKeepsUntouched(g, ms[..n], false, ms[n].address);
    }
  }
}
