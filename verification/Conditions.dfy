/** A condition list read as a finite map from condition type to condition. The operator has three
    setters of this shape: for GameServers, for fleets and for backups. */
module Conditions {
  import opened Types

  function Find(cs: seq<Condition>, kind: string): Option<Condition> {
    if cs == [] then None else if cs[0].kind == kind then Some(cs[0]) else Find(cs[1..], kind)
  }

  ghost predicate Unique(cs: seq<Condition>) {
    forall i, j :: 0 <= i < j < |cs| ==> cs[i].kind != cs[j].kind
  }

  /** The specification of the setters: overwrite the first entry of the type, else append. */
  function Put(cs: seq<Condition>, c: Condition): seq<Condition> {
    if cs == [] then [c] else if cs[0].kind == c.kind then [c] + cs[1..] else [cs[0]] + Put(cs[1..], c)
  }

  /** The setters' loop: search by type, overwrite in place and stop, or fall through and append. */
  method SetIn(cs: seq<Condition>, c: Condition) returns (r: seq<Condition>)
    ensures r == Put(cs, c)
  {
    for i := 0 to |cs|
      invariant forall j :: 0 <= j < i ==> cs[j].kind != c.kind
    {
      if cs[i].kind == c.kind {
        PutAt(cs, c, i);
        return cs[i := c];
      }
    }
    PutAbsent(cs, c);
    r := cs + [c];
  }

  lemma {:induction false} PutAt(cs: seq<Condition>, c: Condition, i: nat)
    requires i < |cs| && cs[i].kind == c.kind
    requires forall j :: 0 <= j < i ==> cs[j].kind != c.kind
    ensures Put(cs, c) == cs[i := c]
    decreases i
  {
    if i != 0 {
      PutAt(cs[1..], c, i - 1);
      assert cs[i := c] == [cs[0]] + cs[1..][i - 1 := c];
    } else {
      assert cs[0 := c] == [c] + cs[1..];
    }
  }

  lemma {:induction false} PutAbsent(cs: seq<Condition>, c: Condition)
    requires forall j :: 0 <= j < |cs| ==> cs[j].kind != c.kind
    ensures Put(cs, c) == cs + [c]
    decreases |cs|
  {
    if cs != [] {
      PutAbsent(cs[1..], c);
      assert cs + [c] == [cs[0]] + (cs[1..] + [c]);
    }
  }

  /** A setter is a map update: the written type reads back, every other type is untouched. */
  lemma {:induction false} PutIsMapUpdate(cs: seq<Condition>, c: Condition, kind: string)
    ensures Find(Put(cs, c), kind) == if kind == c.kind then Some(c) else Find(cs, kind)
    decreases |cs|
  {
    if cs != [] {
      if cs[0].kind == c.kind {
        assert ([c] + cs[1..])[1..] == cs[1..];
      } else {
        PutIsMapUpdate(cs[1..], c, kind);
        assert ([cs[0]] + Put(cs[1..], c))[1..] == Put(cs[1..], c);
      }
    }
  }

  /** Position by position: the list only grows at its end, entries of other types keep their place
      and value, and types stay unique. */
  lemma {:induction false} PutKeepsOrder(cs: seq<Condition>, c: Condition)
    ensures |cs| <= |Put(cs, c)| <= |cs| + 1
    ensures forall i :: 0 <= i < |cs| ==> Put(cs, c)[i].kind == cs[i].kind
    ensures forall i :: 0 <= i < |cs| && cs[i].kind != c.kind ==> Put(cs, c)[i] == cs[i]
    ensures |Put(cs, c)| == |cs| + 1 ==> Put(cs, c)[|cs|] == c && forall i :: 0 <= i < |cs| ==> cs[i].kind != c.kind
    ensures Unique(cs) ==> Unique(Put(cs, c))
    decreases |cs|
  {
    if i: nat :| i < |cs| && cs[i].kind == c.kind && forall j :: 0 <= j < i ==> cs[j].kind != c.kind {
      PutAt(cs, c, i);
    } else {
      NoFirst(cs, c.kind, |cs|);
      PutAbsent(cs, c);
    }
  }

  lemma {:induction false} NoFirst(cs: seq<Condition>, kind: string, n: nat)
    requires n <= |cs|
    requires !exists i: nat :: i < |cs| && cs[i].kind == kind && forall j :: 0 <= j < i ==> cs[j].kind != kind
    ensures forall j :: 0 <= j < n ==> cs[j].kind != kind
  {
    if n != 0 {
      NoFirst(cs, kind, n - 1);
    }
  }

  lemma {:induction false} PutEntries(cs: seq<Condition>, c: Condition, i: nat)
    requires i < |Put(cs, c)|
    ensures Put(cs, c)[i] == c || (i < |cs| && Put(cs, c)[i] == cs[i])
    decreases |cs|
  {
    if cs != [] && cs[0].kind != c.kind && i > 0 {
      PutEntries(cs[1..], c, i - 1);
    }
  }
}
