/** What one controller has done within a recorded run in which others act too. */
module Traces {

  /** What has happened so far: the states, and the actions between them. */
  datatype Trace<S, A> = Trace(path: seq<S>, run: seq<A>)

  /** The actions of interest among `acts`, in order. */
  function Only<A>(mine: A -> bool, acts: seq<A>): seq<A> {
    if acts == [] then []
    else
      var k := |acts| - 1;
      Only(mine, acts[..k]) + if mine(acts[k]) then [acts[k]] else []
  }

  lemma {:induction false} OnlyJoin<A>(mine: A -> bool, a: seq<A>, b: seq<A>)
    ensures Only(mine, a + b) == Only(mine, a) + Only(mine, b)
    decreases |b|
  {
    if b == [] {
      assert a + b == a;
    } else {
      var k := |b| - 1;
      assert (a + b)[..|a + b| - 1] == a + b[..k];
      OnlyJoin(mine, a, b[..k]);
    }
  }

  ghost predicate NoneOf<A>(mine: A -> bool, acts: seq<A>) {
    forall i :: 0 <= i < |acts| ==> !mine(acts[i])
  }

  lemma {:induction false} OnlyNone<A>(mine: A -> bool, acts: seq<A>)
    requires NoneOf(mine, acts)
    ensures Only(mine, acts) == []
    decreases |acts|
  {
    if acts != [] {
      OnlyNone(mine, acts[..|acts| - 1]);
    }
  }

  /** From trace `x` to trace `y` nothing recorded was lost; the actions `mine` are exactly `own`, whatever others did
      in between; and in quiet times nobody else did anything. */
  ghost predicate Did<S, A>(mine: A -> bool, quiet: bool, x: Trace<S, A>, y: Trace<S, A>, own: seq<A>) {
    && x.run <= y.run && x.path <= y.path
    && Only(mine, y.run[|x.run|..]) == own
    && (quiet ==> y.run == x.run + own)
  }

  lemma DidThen<S, A>(mine: A -> bool, quiet: bool, x: Trace<S, A>, y: Trace<S, A>, z: Trace<S, A>, a: seq<A>,
                      b: seq<A>)
    requires Did(mine, quiet, x, y, a) && Did(mine, quiet, y, z, b)
    ensures Did(mine, quiet, x, z, a + b)
  {
    assert z.run[|x.run|..] == y.run[|x.run|..] + z.run[|y.run|..];
    OnlyJoin(mine, y.run[|x.run|..], z.run[|y.run|..]);
  }

  lemma DidNothing<S, A>(mine: A -> bool, quiet: bool, x: Trace<S, A>)
    ensures Did(mine, quiet, x, x, [])
  {
  }

  lemma OthersDid<S, A>(mine: A -> bool, quiet: bool, x: Trace<S, A>, y: Trace<S, A>)
    requires x.run <= y.run && x.path <= y.path && NoneOf(mine, y.run[|x.run|..]) && (quiet ==> y.run == x.run)
    ensures Did(mine, quiet, x, y, [])
  {
    OnlyNone(mine, y.run[|x.run|..]);
  }

  lemma DidOne<S, A>(mine: A -> bool, quiet: bool, x: Trace<S, A>, y: Trace<S, A>, a: A)
    requires mine(a) && y.run == x.run + [a] && x.path <= y.path
    ensures Did(mine, quiet, x, y, [a])
  {
    assert y.run[|x.run|..] == [a] && [a][..0] == [];
  }
}
