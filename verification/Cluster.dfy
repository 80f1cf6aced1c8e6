/** The running system as a controller sees it: a store behind calls that may fail, with others acting
    between them. The ghost half records every action since the beginning. */
module Cluster {
  import opened Types
  import opened Store
  import opened TemplateHash
  import opened Actions
  import opened Invariants
  import opened Preservation
  import opened Rely
  import opened Traces

  type Log = Trace<State, Action>

  /** The store was `w` at some time since state `from`. */
  ghost predicate Saw(path: seq<State>, from: nat, w: World) {
    exists m :: from <= m < |path| && path[m].w == w
  }

  lemma SawLast(path: seq<State>, from: nat, w: World)
    requires from < |path| && path[|path| - 1].w == w
    ensures Saw(path, from, w)
  {
    assert path[|path| - 1].w == w;
  }

  lemma SawStill(path: seq<State>, longer: seq<State>, from: nat, since: nat, w: World)
    requires Saw(path, from, w) && path <= longer && since <= from
    ensures Saw(longer, since, w)
  {
    var m :| from <= m < |path| && path[m].w == w;
    assert longer[m].w == w;
  }

  /** What becomes of a call: it is answered, it never arrives, or it takes effect and the answer is lost. */
  datatype Fault = Delivered | Dropped | AnswerLost

  class Cluster {
    const cfg: Config
    var world: World
    ghost var ledger: Ledger
    ghost var path: seq<State>
    ghost var run: seq<Action>
    ghost var quiet: bool  // for the time being every call gets through and nobody else acts; no controller can set it

    ghost function Here(): State
      reads this`world, this`ledger
    {
      State(world, ledger)
    }

    ghost function Past(): Log
      reads this`path, this`run
    {
      Trace(path, run)
    }

    /** Everything stored came about by the recorded run. */
    ghost predicate Valid()
      reads this`world, this`ledger, this`path, this`run
    {
      Runs(cfg, path, run) && Inv(cfg, path[0]) && path[|run|] == Here()
    }

    /** The recorded run of a valid cluster keeps the invariants, so they hold here. */
    lemma Reachable()
      requires Valid()
      ensures Inv(cfg, Here())
    {
      hide Inv, Step;
      RunKeeps(cfg, path, run, |run|);
    }

    /** The recorded path ends in the present. */
    lemma Now()
      requires Valid()
      ensures path != [] && path[|path| - 1] == Here()
    {
      hide Inv, Step;
    }

    constructor (c: Config)
      ensures Valid() && cfg == c && Here() == START && run == [] && !quiet
    {
      cfg := c;
      world := START.w;
      ledger := START.l;
      path := [START];
      run := [];
      quiet := false;
      new;
      Initially(c);
    }

    /** Times change: from now on the system is quiet, or no longer. */
    ghost method Turn(q: bool)
      modifies this`quiet
      ensures quiet == q
    {
      quiet := q;
    }

    /** Others act: any number of their actions, none by the controller `me`. Callers know no more than this
        contract; the body shows the quiet case. */
    method Others(ghost me: Actor)
      requires Valid()
      modifies this`world, this`ledger, this`path, this`run
      ensures Valid() && old(run) <= run && old(path) <= path && NoneOf(Of(me), run[|old(run)|..])
      ensures quiet ==> run == old(run) && Here() == old(Here())
    {
    }

    /** The network: any call may meet any fault. Callers know no more than this contract. */
    method Weather() returns (fault: Fault)
      ensures quiet ==> fault == Delivered
    {
      fault := Delivered;
    }

    /** A read: the error, if the call did not get through. */
    method Reach() returns (err: Option<Error>)
      ensures err == None || err == Some(Unavailable)
      ensures quiet ==> err == None
    {
      var fault := Weather();
      err := if fault == Delivered then None else Some(Unavailable);
    }

    /** A write by the controller `me`: `r` is what the store makes of the call, `act` the action it is when it takes
        effect. The store answers with `r`'s verdict; or the call fails, having taken effect (`took`) or not. */
    method Write(r: Reply, ghost me: Actor, ghost act: Action, ghost l: Ledger)
      returns (err: Option<Error>, ghost took: bool)
      requires Valid() && SameController(me, act)
      requires if r.err == None then Step(cfg, Here(), act, State(r.world, l)) else r.world == world
      modifies this`world, this`ledger, this`path, this`run
      ensures Valid() && Did(Of(me), quiet, old(Past()), Past(), if took then [act] else [])
      ensures if took then r.err == None && Here() == State(r.world, l) && path == old(path) + [Here()]
              else Here() == old(Here()) && path == old(path)
      ensures err == r.err || err == Some(Unavailable)
      ensures err == None ==> took
      ensures quiet ==> err == r.err && (took <==> err == None)
    {
      hide Inv, Step;
      var fault := Weather();
      took := fault != Dropped && r.err == None;
      if fault != Dropped && r.err == None {
        world := r.world;
        ledger := l;
        path := path + [State(world, ledger)];
        run := run + [act];
        RunsGrow(cfg, old(path), old(run), act, State(world, ledger));
        DidOne(Of(me), quiet, old(Past()), Past(), act);
      } else {
        DidNothing(Of(me), quiet, Past());
      }
      err := if fault == Delivered then r.err else Some(Unavailable);
    }

    /** Bookkeeping that touches nothing stored. */
    ghost method Note(me: Actor, act: Action, l: Ledger)
      requires Valid() && SameController(me, act) && Step(cfg, Here(), act, State(world, l))
      modifies this`ledger, this`path, this`run
      ensures Valid() && ledger == l && Did(Of(me), quiet, old(Past()), Past(), [act])
    {
      hide Inv, Step;
      ledger := l;
      path := path + [State(world, ledger)];
      run := run + [act];
      RunsGrow(cfg, old(path), old(run), act, State(world, ledger));
      DidOne(Of(me), quiet, old(Past()), Past(), act);
    }
  }
}
