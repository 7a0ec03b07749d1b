/**
 Where locals purges come from: beginPurgeLocals starts a timer, and every tick of it queues
 the purge of the next prefix, from 000 to fff (whip/VFSBackend.cpp).
 */
module PurgeTimer {
  const PREFIXES: nat := 0x1000

  datatype Timer = Timer(
    purging: bool,          // _isPurgingLocals
    index: nat,             // _currentLocalsPurgeIndex
    armed: nat,             // waits on _purgeLocalsTimer
    queued: seq<nat>)       // history: the prefixes whose purge was queued

  datatype Event = Begin | Tick

  function ApplyBegin(t: Timer): Timer {
    if t.purging then t else t.(purging := true, index := 0, armed := t.armed + 1)
  }

  function ApplyTick(t: Timer): Timer
    requires t.armed > 0
  {
    var t1 := t.(index := t.index + 1, queued := t.queued + [t.index]);
    if t1.index <= 0xfff then t1 else t1.(purging := false, armed := t.armed - 1)
  }

  predicate Possible(t: Timer, events: seq<Event>)
    decreases |events|
  {
    events == [] || ((events[0] == Tick ==> t.armed > 0) && Possible(Apply(t, events[0]), events[1..]))
  }

  function Apply(t: Timer, e: Event): Timer
    requires e == Tick ==> t.armed > 0
  {
    match e
    case Begin => ApplyBegin(t)
    case Tick => ApplyTick(t)
  }

  function Run(t: Timer, events: seq<Event>): Timer
    requires Possible(t, events)
    decreases |events|
  {
    if events == [] then t else Run(Apply(t, events[0]), events[1..])
  }

  const STOPPED := Timer(false, 0, 0, [])

  /** One wait on the timer while purging, and the prefixes come in turn. */
  ghost predicate TimerInv(t: Timer) {
    && t.armed == (if t.purging then 1 else 0)
    && (if t.purging then t.index < PREFIXES && |t.queued| % PREFIXES == t.index else |t.queued| % PREFIXES == 0)
    && (forall k :: 0 <= k < |t.queued| ==> t.queued[k] == k % PREFIXES)
  }

  lemma TickKeepsInv(t: Timer)
    requires TimerInv(t) && t.armed > 0
    ensures TimerInv(ApplyTick(t))
  {
    NextPlace(|t.queued|);
  }

  lemma NextPlace(n: nat)
    ensures (n + 1) % PREFIXES == if n % PREFIXES == PREFIXES - 1 then 0 else n % PREFIXES + 1
  {
  }

  lemma {:induction false} RunKeepsInv(t: Timer, events: seq<Event>)
    requires TimerInv(t) && Possible(t, events)
    ensures TimerInv(Run(t, events))
    decreases |events|
  {
    if events == [] {
    } else {
      if events[0] == Tick { TickKeepsInv(t); }
      RunKeepsInv(Apply(t, events[0]), events[1..]);
    }
  }

  /** Between two purges of a prefix every other prefix has had its turn. */
  lemma PrefixesComeRound(events: seq<Event>, i: nat, j: nat, other: nat) returns (k: nat)
    requires Possible(STOPPED, events) && i < j < |Run(STOPPED, events).queued| && other < PREFIXES
    requires var queued := Run(STOPPED, events).queued; queued[i] == queued[j] && queued[i] != other
    ensures i < k < j && Run(STOPPED, events).queued[k] == other
  {
    RunKeepsInv(STOPPED, events);
    var queued := Run(STOPPED, events).queued;
    hide Run, Possible;
    var p := queued[i];
    k := i + if other > p then other - p else PREFIXES + other - p;
    SamePlace(i, j);
    Offset(i, k - i, other);
  }

  lemma SamePlace(i: nat, j: nat)
    requires i < j && i % PREFIXES == j % PREFIXES
    ensures j - i >= PREFIXES
  {
  }

  lemma Offset(i: nat, d: nat, other: nat)
    requires other < PREFIXES && d < PREFIXES
    requires d == (if other > i % PREFIXES then other - i % PREFIXES else PREFIXES + other - i % PREFIXES)
    ensures (i + d) % PREFIXES == other
  {
    var q, r := i / PREFIXES, i % PREFIXES;
    assert i == q * PREFIXES + r;
    assert i + d == (if other > r then q else q + 1) * PREFIXES + other;
  }

  class PurgeLocalsTimer {
    var isPurgingLocals: bool
    var currentLocalsPurgeIndex: nat
    var armed: nat
    var queued: seq<nat>

    ghost function View(): Timer
      reads this
    {
      Timer(isPurgingLocals, currentLocalsPurgeIndex, armed, queued)
    }

    constructor ()
      ensures View() == STOPPED
    {
      isPurgingLocals, currentLocalsPurgeIndex, armed, queued := false, 0, 0, [];
    }

    method BeginPurgeLocals()
      modifies this
      ensures View() == ApplyBegin(old(View()))
      ensures old(TimerInv(View())) ==> TimerInv(View())
    {
      if !isPurgingLocals {
        isPurgingLocals := true;
        currentLocalsPurgeIndex := 0;
        armed := armed + 1;
      }
    }

    method OnPurgeTimer()
      requires armed > 0
      modifies this
      ensures View() == ApplyTick(old(View()))
      ensures old(TimerInv(View())) ==> TimerInv(View())
    {
      if TimerInv(View()) { TickKeepsInv(View()); }
      armed := armed - 1;
      queued := queued + [currentLocalsPurgeIndex];
      currentLocalsPurgeIndex := currentLocalsPurgeIndex + 1;
      if currentLocalsPurgeIndex <= 0xfff {
        armed := armed + 1;
      } else {
        isPurgingLocals := false;
      }
    }
  }
}
