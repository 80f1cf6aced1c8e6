/** The in-memory copies a controller pass works on, edited in place and lost when the pass fails. */
module Live {
  import opened Types
  import opened Conditions

  // ---- finalizer lists ----

  /** The list without any occurrence of `s`, order kept. */
  function Without(fs: seq<string>, s: string): (r: seq<string>)
    ensures s !in r
    ensures forall x :: x in r <==> x in fs && x != s
  {
    if fs == [] then [] else (if fs[0] == s then [] else [fs[0]]) + Without(fs[1..], s)
  }

  lemma {:induction false} WithoutSnoc(fs: seq<string>, x: string, s: string)
    ensures Without(fs + [x], s) == Without(fs, s) + if x == s then [] else [x]
    decreases |fs|
  {
    if fs != [] {
      assert (fs + [x])[1..] == fs[1..] + [x];
      WithoutSnoc(fs[1..], x, s);
    }
  }

  lemma {:induction false} WithoutAbsent(fs: seq<string>, s: string)
    requires s !in fs
    ensures Without(fs, s) == fs
    decreases |fs|
  {
    if fs != [] {
      WithoutAbsent(fs[1..], s);
    }
  }

  /** Adding a finalizer and removing it again gives the list back. */
  lemma AddThenRemove(fs: seq<string>, s: string)
    requires s !in fs
    ensures Without(fs + [s], s) == fs
  {
    WithoutSnoc(fs, s, s);
    WithoutAbsent(fs, s);
  }

  /** The controllers' removal loop. */
  method Strip(fs: seq<string>, s: string) returns (r: seq<string>)
    ensures r == Without(fs, s)
  {
    r := [];
    for i := 0 to |fs|
      invariant r == Without(fs[..i], s)
    {
      WithoutSnoc(fs[..i], fs[i], s);
      assert fs[..i] + [fs[i]] == fs[..i + 1];
      if fs[i] != s {
        r := r + [fs[i]];
      }
    }
    assert fs[..|fs|] == fs;
  }

  // ---- status edits ----

  function TruthOf(b: bool): Truth {
    if b then True else False
  }

  function ReadyPut(st: ServerStatus, ready: bool, reason: string, message: string, now: nat): ServerStatus {
    st.(conditions := Put(st.conditions,
                          Condition("Ready", TruthOf(ready), reason, message, st.observedGeneration, now)),
        ready := ready)
  }

  function FleetPut(st: FleetStatus, kind: string, t: Truth, reason: string, message: string, now: nat): FleetStatus {
    st.(conditions := Put(st.conditions, Condition(kind, t, reason, message, st.observedGeneration, now)))
  }

  class LiveServer {
    var o: GameServer

    constructor (gs: GameServer)
      ensures o == gs
    {
      o := gs;
    }

    method SetPhase(phase: ServerPhase)
      modifies this
      ensures o == old(o).(status := old(o).status.(phase := phase))
    {
      o := o.(status := o.status.(phase := phase));
    }

    method SetCondition(kind: string, t: Truth, reason: string, message: string, now: nat)
      modifies this
      ensures o == old(o).(status := old(o).status.(conditions := Put(old(o).status.conditions,
                     Condition(kind, t, reason, message, old(o).status.observedGeneration, now))))
    {
      var cs := SetIn(o.status.conditions, Condition(kind, t, reason, message, o.status.observedGeneration, now));
      o := o.(status := o.status.(conditions := cs));
    }

    method SetReady(ready: bool, reason: string, message: string, now: nat)
      modifies this
      ensures o == old(o).(status := ReadyPut(old(o).status, ready, reason, message, now))
    {
      SetCondition("Ready", if ready then True else False, reason, message, now);
      o := o.(status := o.status.(ready := ready));
    }
  }

  class LiveFleet {
    var o: Fleet

    constructor (fleet: Fleet)
      ensures o == fleet
    {
      o := fleet;
    }

    method SetCondition(kind: string, t: Truth, reason: string, message: string, now: nat)
      modifies this
      ensures o == old(o).(status := FleetPut(old(o).status, kind, t, reason, message, now))
    {
      var cs := SetIn(o.status.conditions, Condition(kind, t, reason, message, o.status.observedGeneration, now));
      o := o.(status := o.status.(conditions := cs));
    }
  }
}
