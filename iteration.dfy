/**
 * The order in which the agent walks a set or a dictionary: any order, each
 * element once.
 */
module Iteration {
  import opened AgentState

  /** Binding one more port adds its OpenFlow port to the set. */
  lemma OfportSetAdd(vifPorts: map<PortId, VifPort>, id: PortId, port: VifPort)
    requires id !in vifPorts
    ensures OfportSet(vifPorts[id := port]) == OfportSet(vifPorts) + {port.ofport}
  {
    var after := vifPorts[id := port];
    forall o | o in OfportSet(after) ensures o in OfportSet(vifPorts) + {port.ofport} {
      var i :| i in after && after[i].ofport == o;
      if i != id {
        assert i in vifPorts;
      }
    }
    forall o | o in OfportSet(vifPorts) ensures o in OfportSet(after) {
      var i :| i in vifPorts && vifPorts[i].ofport == o;
      assert i in after && after[i].ofport == o;
    }
    assert id in after;
  }

  /** Appending an element adds it to the elements. */
  lemma ElementsSnoc(r: seq<int>, x: int)
    ensures Elements(r + [x]) == Elements(r) + {x}
  {
    assert forall y :: y in r + [x] <==> y in r || y == x;
  }

  /** Visiting one more element of a set moves it from the rest to the visited part. */
  lemma VisitNext<T>(all: set<T>, rest: set<T>, x: T)
    requires rest <= all && x in rest
    ensures all - (rest - {x}) == (all - rest) + {x}
  {
  }

  /** A non-empty set of integers has an element. */
  lemma NonEmptyHasElement(s: set<int>)
    requires s != {}
    ensures exists x :: x in s
  {
    if forall x: int :: x !in s {
      assert false;
    }
  }

  /** Some element of a non-empty set: the one an iteration (or set.pop) visits first. */
  method Choose(s: set<int>) returns (x: int)
    requires s != {}
    ensures x in s
  {
    NonEmptyHasElement(s);
    x :| x in s;
  }

  /** Some key of a non-empty set of VIF ids. */
  method ChooseId(s: set<PortId>) returns (id: PortId)
    requires s != {}
    ensures id in s
  {
    id :| id in s;
  }

  /** The ports of a set in the order an iteration over it visits them, each once. */
  method IterationOrder(s: set<int>) returns (r: seq<int>)
    ensures Elements(r) == s && |r| == |s|
  {
    var rest := s;
    r := [];
    while rest != {}
      invariant rest <= s
      invariant Elements(r) == s - rest && |r| + |rest| == |s|
      decreases |rest|
    {
      var x := Choose(rest);
      ElementsSnoc(r, x);
      r := r + [x];
      rest := rest - {x};
    }
  }

  /** The OpenFlow ports of the bound VIF ports, one per port, in the order the ports are visited. */
  method VifOfports(vifPorts: map<PortId, VifPort>) returns (r: seq<int>)
    ensures Elements(r) == OfportSet(vifPorts) && |r| == |vifPorts|
  {
    var rest := vifPorts.Keys;
    ghost var seen: map<PortId, VifPort> := map[];
    r := [];
    while rest != {}
      invariant rest <= vifPorts.Keys
      invariant seen.Keys == vifPorts.Keys - rest
      invariant forall id :: id in seen ==> seen[id] == vifPorts[id]
      invariant Elements(r) == OfportSet(seen)
      invariant |r| + |rest| == |vifPorts|
      decreases |rest|
    {
      var id := ChooseId(rest);
      OfportSetAdd(seen, id, vifPorts[id]);
      ElementsSnoc(r, vifPorts[id].ofport);
      r := r + [vifPorts[id].ofport];
      seen := seen[id := vifPorts[id]];
      rest := rest - {id};
    }
    assert seen == vifPorts;
  }
}
