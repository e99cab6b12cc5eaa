/** The virtual keyboard as the interpreter sees it: every call it makes
    (press, release, synchronize) may fail, and what reaches the outside world
    is recorded as a trace of events. Pauses and warnings are recorded in the
    same trace by the interpreter, so that the trace is the whole observable
    order of what one session does. */
module Device {
  import opened Keys

  /** One observable event. Press, Release and Sync are the three device calls
      (main.rs:36-72); Sleep is a timed pause of the interpreter, in
      milliseconds (main.rs:389, 393, 406, 419, 440, 444), and Warn a warning
      on the diagnostic stream, with its text after the "WARNING: " prefix. */
  datatype Event = Press(key: KeyId) | Release(key: KeyId) | Sync | Sleep(ms: nat) | Warn(message: string)

  /** What running a planned sequence of device calls leaves behind: the events
      emitted, the number of the next call, and whether the whole plan ran. */
  datatype Attempt = Attempt(events: seq<Event>, next: nat, ok: bool)

  /** Running `plan` from call number `from` the way a chain of `?` does in the
      source: each call in turn, stopping at the first one that fails. A failed
      call emits nothing, and nothing after it is attempted. */
  function Perform(plan: seq<Event>, from: nat, failing: set<nat>): Attempt
    decreases |plan|
  {
    if plan == [] then Attempt([], from, true)
    else if from in failing then Attempt([], from + 1, false)
    else
      var rest := Perform(plan[1..], from + 1, failing);
      Attempt([plan[0]] + rest.events, rest.next, rest.ok)
  }

  /** The meaning of Perform: the plan runs to the end exactly when none of its
      calls fails; otherwise the events are the part of the plan before the
      first failing call, and the next call number is the one after it. */
  lemma {:induction false} PerformStopsAtFirstFailure(plan: seq<Event>, from: nat, failing: set<nat>)
    ensures var a := Perform(plan, from, failing);
      && (a.ok <==> forall i :: from <= i < from + |plan| ==> i !in failing)
      && a.events <= plan
      && (forall i :: from <= i < from + |a.events| ==> i !in failing)
      && (a.ok ==> a.events == plan && a.next == from + |plan|)
      && (!a.ok ==> from + |a.events| in failing && a.next == from + |a.events| + 1)
    decreases |plan|
  {
    if plan != [] && from !in failing {
      PerformStopsAtFirstFailure(plan[1..], from + 1, failing);
      var a, r := Perform(plan, from, failing), Perform(plan[1..], from + 1, failing);
      assert plan == [plan[0]] + plan[1..];
      if !a.ok {
        var j := from + 1 + |r.events|;
        assert from + 1 <= j < from + 1 + |plan[1..]| && j in failing;
      }
    }
  }

  /** Running `a + b` is running `a` and, only if all of it succeeded, running
      `b` from the call after it. */
  lemma {:induction false} PerformAppend(a: seq<Event>, b: seq<Event>, from: nat, failing: set<nat>)
    ensures var pa := Perform(a, from, failing);
      var pb := Perform(b, pa.next, failing);
      Perform(a + b, from, failing) == if pa.ok then Attempt(a + pb.events, pb.next, pb.ok) else pa
    decreases |a|
  {
    var pa := Perform(a, from, failing);
    var pb := Perform(b, pa.next, failing);
    if a == [] {
      assert a + b == b;
    } else if from in failing {
      assert a + b != [];
    } else {
      var pa' := Perform(a[1..], from + 1, failing);
      assert a + b != [];
      assert (a + b)[0] == a[0] && (a + b)[1..] == a[1..] + b;
      var pab' := Perform(a[1..] + b, from + 1, failing);
      assert Perform(a + b, from, failing) == Attempt([a[0]] + pab'.events, pab'.next, pab'.ok);
      PerformAppend(a[1..], b, from + 1, failing);
      if pa.ok {
        assert [a[0]] + (a[1..] + pb.events) == a + pb.events;
      }
    }
  }

  /** One more call after a run: it is attempted only if the run succeeded,
      and it emits its event only if it succeeds itself. */
  lemma PerformSnoc(done: seq<Event>, e: Event, from: nat, failing: set<nat>)
    ensures var a := Perform(done, from, failing);
      Perform(done + [e], from, failing) ==
        if !a.ok then a
        else if a.next in failing then Attempt(a.events, a.next + 1, false)
        else Attempt(a.events + [e], a.next + 1, true)
  {
    var a := Perform(done, from, failing);
    PerformAppend(done, [e], from, failing);
    var p := Perform([e], a.next, failing);
    assert [e][1..] == [];
    assert Perform([], a.next + 1, failing) == Attempt([], a.next + 1, true);
    assert [e] + [] == [e];
    assert p == if a.next in failing then Attempt([], a.next + 1, false) else Attempt([e], a.next + 1, true);
    if a.ok {
      PerformStopsAtFirstFailure(done, from, failing);
    }
  }

  /** A call that is made only when `made` holds (a modifier flag, say). */
  lemma PerformSnocIf(done: seq<Event>, made: bool, e: Event, from: nat, failing: set<nat>)
    ensures var a := Perform(done, from, failing);
      Perform(done + (if made then [e] else []), from, failing) ==
        if !made || !a.ok then a
        else if a.next in failing then Attempt(a.events, a.next + 1, false)
        else Attempt(a.events + [e], a.next + 1, true)
  {
    if made {
      PerformSnoc(done, e, from, failing);
    } else {
      assert done + [] == done;
    }
  }

  /** The uinput device. Calls are numbered in the order they are made, and
      `failing` says which of them fail: it stands for whatever makes a real
      write to the device fail. */
  class Device {
    var trace: seq<Event>
    var calls: nat
    const failing: set<nat>

    constructor (failing: set<nat>)
      ensures this.failing == failing && trace == [] && calls == 0
    {
      this.failing := failing;
      trace := [];
      calls := 0;
    }

    /** device.press(key) */
    method Press(key: KeyId) returns (ok: bool)
      modifies this
      ensures calls == old(calls) + 1
      ensures ok <==> old(calls) !in failing
      ensures trace == old(trace) + if ok then [Event.Press(key)] else []
    {
      ok := calls !in failing;
      if ok {
        trace := trace + [Event.Press(key)];
      }
      calls := calls + 1;
    }

    /** device.release(key) */
    method Release(key: KeyId) returns (ok: bool)
      modifies this
      ensures calls == old(calls) + 1
      ensures ok <==> old(calls) !in failing
      ensures trace == old(trace) + if ok then [Event.Release(key)] else []
    {
      ok := calls !in failing;
      if ok {
        trace := trace + [Event.Release(key)];
      }
      calls := calls + 1;
    }

    /** device.synchronize() */
    method Synchronize() returns (ok: bool)
      modifies this
      ensures calls == old(calls) + 1
      ensures ok <==> old(calls) !in failing
      ensures trace == old(trace) + if ok then [Sync] else []
    {
      ok := calls !in failing;
      if ok {
        trace := trace + [Sync];
      }
      calls := calls + 1;
    }

    /** thread::sleep, recorded where it happens; it is not a device call. */
    method Pause(ms: nat)
      modifies this
      ensures calls == old(calls)
      ensures trace == old(trace) + [Sleep(ms)]
    {
      trace := trace + [Sleep(ms)];
    }

    /** warn(message), recorded where it happens; it is not a device call. */
    method Report(message: string)
      modifies this
      ensures calls == old(calls)
      ensures trace == old(trace) + [Warn(message)]
    {
      trace := trace + [Warn(message)];
    }
  }
}
