/** The freeze-time check that the loop edges of a workflow form no cycle. */
module LoopCycles {
  type Agent = string

  datatype EdgeKind = Ask | Send | Loop
  datatype Edge = Edge(to: Agent, kind: EdgeKind)

  /** Declared agents and their outgoing edges; an edge may name an agent that is not declared. */
  type Agents = map<Agent, seq<Edge>>

  /** One reported issue: the agent whose edges close the cycle, and the cycle from it back to itself. */
  datatype Issue = Issue(agent: Agent, cycle: seq<Agent>)

  ghost predicate LoopEdge(agents: Agents, a: Agent, b: Agent) {
    a in agents && Edge(b, Loop) in agents[a]
  }

  ghost predicate Path(agents: Agents, p: seq<Agent>) {
    forall i :: 0 <= i < |p| - 1 ==> LoopEdge(agents, p[i], p[i + 1])
  }

  ghost predicate Cycle(agents: Agents, p: seq<Agent>) {
    |p| >= 2 && p[0] == p[|p| - 1] && Path(agents, p)
  }

  ghost predicate Acyclic(agents: Agents) { forall p :: !Cycle(agents, p) }

  /** Everything an edge can lead to, and everything declared. */
  function Universe(agents: Agents): set<Agent> {
    agents.Keys + set a, e | a in agents && e in agents[a] :: e.to
  }

  function Elements(s: seq<Agent>): set<Agent> { set a | a in s }

  ghost predicate Distinct(s: seq<Agent>) { forall i, j :: 0 <= i < j < |s| ==> s[i] != s[j] }

  /** Every loop edge out of a listed agent leads to one listed earlier. */
  ghost predicate Topological(agents: Agents, order: seq<Agent>) {
    forall i, b :: 0 <= i < |order| && LoopEdge(agents, order[i], b) ==> b in order[..i]
  }

  /** The stack is a path without repeats, apart from what is finished; issues are cycles; without one, finishing order is topological. */
  ghost predicate Sound(agents: Agents, visiting: seq<Agent>, done: set<Agent>, issues: seq<Issue>, order: seq<Agent>) {
    && Path(agents, visiting) && Distinct(visiting)
    && Elements(visiting) !! done && Elements(visiting) <= Universe(agents)
    && Elements(order) == done
    && Reported(agents, issues)
    && (issues == [] ==> Topological(agents, order))
  }

  /** Every issue is a real cycle, reported at the agent it starts from. */
  ghost predicate Reported(agents: Agents, issues: seq<Issue>) {
    forall k :: 0 <= k < |issues| ==> Cycle(agents, issues[k].cycle) && issues[k].agent == issues[k].cycle[0]
  }

  ghost function Left(agents: Agents, visiting: seq<Agent>, done: set<Agent>): nat {
    |Universe(agents) - done - Elements(visiting)|
  }

  /** `validate_loop_cycles`: the walk from every declared agent, sharing the stack, the finished set and
      the issues it adds. */
  class Walker {
    const agents: Agents
    var visiting: seq<Agent>
    var done: set<Agent>
    var issues: seq<Issue>
    /** The finished agents, in the order they finished. */
    ghost var order: seq<Agent>

    constructor (agents: Agents)
      ensures this.agents == agents && visiting == [] && done == {} && issues == [] && order == [] && Valid()
    {
      this.agents := agents;
      visiting, done, issues, order := [], {}, [], [];
    }

    ghost predicate Valid()
      reads this
    {
      Sound(agents, visiting, done, issues, order)
    }

    /** `walk_loops`: closes a cycle when `at` is on the stack, skips what is finished, and otherwise walks its loop edges. */
    method Walk(at: Agent)
      requires Valid() && at in Universe(agents)
      requires visiting != [] ==> LoopEdge(agents, visiting[|visiting| - 1], at)
      modifies this
      ensures Valid() && visiting == old(visiting) && old(done) <= done && old(issues) <= issues
      ensures at in old(visiting) ==> |issues| == |old(issues)| + 1
      ensures at in done || (at in visiting && issues != [])
      ensures Left(agents, visiting, done) <= old(Left(agents, visiting, done))
      decreases Left(agents, visiting, done)
    {
      hide Sound, Left;
      if at in visiting {
        Close(at);
        return;
      }
      if at in done { return; }
      ghost var stack, before := visiting, Left(agents, visiting, done);
      LeftShrinks(agents, visiting, done, at);
      SoundEnter(agents, visiting, done, issues, order, at);
      visiting := visiting + [at];
      if at in agents {
        var edges := agents[at];
        for k := 0 to |edges|
          invariant Valid() && visiting == stack + [at] && old(done) <= done && old(issues) <= issues
          invariant Left(agents, visiting, done) < before
          invariant issues == [] ==> forall j :: 0 <= j < k && edges[j].kind == Loop ==> edges[j].to in done
        {
          if edges[k].kind == Loop {
            EdgeTarget(agents, at, k);
            Walk(edges[k].to);
          }
        }
      }
      SoundLeave(agents, stack, done, issues, order, at);
      visiting := visiting[..|visiting| - 1];
      done := done + {at};
      order := order + [at];
    }

    method Close(at: Agent)
      requires Valid() && at in visiting && LoopEdge(agents, visiting[|visiting| - 1], at)
      modifies this`issues
      ensures Valid() && |issues| == |old(issues)| + 1 && old(issues) <= issues
    {
      hide Sound;
      var pos := 0;
      while visiting[pos] != at
        invariant pos < |visiting| && at in visiting[pos..]
        decreases |visiting| - pos
      {
        pos := pos + 1;
      }
      SoundClose(agents, visiting, done, issues, order, at, pos);
      issues := issues + [Issue(visiting[pos], visiting[pos..] + [at])];
    }

    /** The check adds no issue exactly when the loop edges are acyclic, and what it reports are real cycles. */
    method Validate(keys: seq<Agent>)
      requires Valid() && visiting == [] && issues == [] && Elements(keys) == agents.Keys
      modifies this
      ensures issues == [] <==> Acyclic(agents)
      ensures Reported(agents, issues)
    {
      hide Sound, Acyclic, Reported, Universe, Elements;
      for k := 0 to |keys|
        invariant Valid() && visiting == [] && forall j :: 0 <= j < k ==> keys[j] in done
      {
        if keys[k] !in done {
          KeyInUniverse(agents, keys, k);
          Walk(keys[k]);
        }
      }
      AllDone(keys, done);
      Verdict(agents, visiting, done, issues, order);
    }
  }

  lemma KeyInUniverse(agents: Agents, keys: seq<Agent>, k: nat)
    requires Elements(keys) == agents.Keys && k < |keys|
    ensures keys[k] in Universe(agents)
  {
    assert keys[k] in Elements(keys);
  }

  lemma AllDone(keys: seq<Agent>, done: set<Agent>)
    requires forall j :: 0 <= j < |keys| ==> keys[j] in done
    ensures Elements(keys) <= done
  {
  }

  lemma SoundEnter(agents: Agents, visiting: seq<Agent>, done: set<Agent>, issues: seq<Issue>, order: seq<Agent>, at: Agent)
    requires Sound(agents, visiting, done, issues, order) && at in Universe(agents) && at !in visiting && at !in done
    requires visiting != [] ==> LoopEdge(agents, visiting[|visiting| - 1], at)
    ensures Sound(agents, visiting + [at], done, issues, order)
  {
    hide Universe, Cycle, Topological;
    PathExtends(agents, visiting, at);
    ElementsAppend(visiting, at);
  }

  /** `at` is finished: off the stack, and after everything it leads to. */
  lemma SoundLeave(agents: Agents, stack: seq<Agent>, done: set<Agent>, issues: seq<Issue>, order: seq<Agent>, at: Agent)
    requires Sound(agents, stack + [at], done, issues, order)
    requires issues == [] ==> forall b :: LoopEdge(agents, at, b) ==> b in done
    ensures Sound(agents, stack, done + {at}, issues, order + [at])
    ensures (stack + [at])[..|stack|] == stack
    ensures Left(agents, stack, done + {at}) == Left(agents, stack + [at], done)
  {
    hide Universe, Cycle;
    ElementsAppend(stack, at);
    ElementsAppend(order, at);
    var longer := stack + [at];
    assert Universe(agents) - done - Elements(longer) == Universe(agents) - (done + {at}) - Elements(stack);
    assert forall i :: 0 <= i < |stack| ==> longer[i] == stack[i];
    assert Path(agents, stack) by {
      forall i | 0 <= i < |stack| - 1 ensures LoopEdge(agents, stack[i], stack[i + 1]) {
        assert LoopEdge(agents, longer[i], longer[i + 1]);
      }
    }
    assert at !in Elements(stack) by { assert longer[|stack|] == at; }
    if issues == [] { TopologicalAppend(agents, order, at); }
  }

  lemma SoundClose(agents: Agents, visiting: seq<Agent>, done: set<Agent>, issues: seq<Issue>, order: seq<Agent>, at: Agent, pos: nat)
    requires Sound(agents, visiting, done, issues, order) && pos < |visiting| && visiting[pos] == at
    requires LoopEdge(agents, visiting[|visiting| - 1], at)
    ensures Sound(agents, visiting, done, issues + [Issue(visiting[pos], visiting[pos..] + [at])], order)
  {
    CycleClosed(agents, visiting, at, pos);
    hide Universe, Cycle, Topological, Path, Distinct, Elements;
  }

  lemma ElementsAppend(s: seq<Agent>, at: Agent)
    ensures Elements(s + [at]) == Elements(s) + {at}
  {
  }

  lemma Verdict(agents: Agents, visiting: seq<Agent>, done: set<Agent>, issues: seq<Issue>, order: seq<Agent>)
    requires Sound(agents, visiting, done, issues, order) && agents.Keys <= done
    ensures Reported(agents, issues) && (issues == [] <==> Acyclic(agents))
  {
    if issues == [] {
      OrderedIsAcyclic(agents, order);
    } else {
      assert Cycle(agents, issues[0].cycle);
    }
  }

  lemma CycleClosed(agents: Agents, visiting: seq<Agent>, at: Agent, pos: nat)
    requires Path(agents, visiting) && pos < |visiting| && visiting[pos] == at
    requires LoopEdge(agents, visiting[|visiting| - 1], at)
    ensures Cycle(agents, visiting[pos..] + [at])
  {
    var p := visiting[pos..] + [at];
    forall i | 0 <= i < |p| - 1 ensures LoopEdge(agents, p[i], p[i + 1]) {
      if i + 1 < |p| - 1 { assert LoopEdge(agents, visiting[pos + i], visiting[pos + i + 1]); }
    }
  }

  lemma EdgeTarget(agents: Agents, at: Agent, k: nat)
    requires at in agents && k < |agents[at]| && agents[at][k].kind == Loop
    ensures LoopEdge(agents, at, agents[at][k].to) && agents[at][k].to in Universe(agents)
  {
    assert agents[at][k] == Edge(agents[at][k].to, Loop);
  }

  lemma PathExtends(agents: Agents, visiting: seq<Agent>, at: Agent)
    requires Path(agents, visiting) && (visiting != [] ==> LoopEdge(agents, visiting[|visiting| - 1], at))
    ensures Path(agents, visiting + [at])
  {
  }

  lemma LeftShrinks(agents: Agents, visiting: seq<Agent>, done: set<Agent>, at: Agent)
    requires at in Universe(agents) && at !in visiting && at !in done
    ensures Left(agents, visiting + [at], done) < Left(agents, visiting, done)
  {
    hide Universe;
    ElementsAppend(visiting, at);
    var left := Universe(agents) - done - Elements(visiting);
    assert Universe(agents) - done - Elements(visiting + [at]) == left - {at};
  }

  lemma TopologicalAppend(agents: Agents, order: seq<Agent>, at: Agent)
    requires Topological(agents, order) && forall b :: LoopEdge(agents, at, b) ==> b in order
    ensures Topological(agents, order + [at])
  {
    var next := order + [at];
    forall i, b | 0 <= i < |next| && LoopEdge(agents, next[i], b) ensures b in next[..i] {
      if i < |order| { assert next[..i] == order[..i]; } else { assert next[..i] == order; }
    }
  }

  /** Along a path through an ordered graph the position drops, so a path cannot come back. */
  lemma {:induction false} PathDescends(agents: Agents, order: seq<Agent>, p: seq<Agent>, i: nat) returns (j: nat)
    requires Topological(agents, order) && Path(agents, p) && |p| >= 2 && i < |order| && order[i] == p[0]
    ensures j < i && order[j] == p[|p| - 1]
    decreases |p|
  {
    assert LoopEdge(agents, p[0], p[1]);
    var k :| 0 <= k < i && order[k] == p[1];
    if |p| == 2 {
      j := k;
    } else {
      var rest := p[1..];
      assert Path(agents, rest) by {
        forall m | 0 <= m < |rest| - 1 ensures LoopEdge(agents, rest[m], rest[m + 1]) {
          assert LoopEdge(agents, p[m + 1], p[m + 2]);
        }
      }
      j := PathDescends(agents, order, rest, k);
    }
  }

  /** A cycle would give ever smaller positions for its first agent. */
  lemma {:induction false} NoCycleAt(agents: Agents, order: seq<Agent>, p: seq<Agent>, i: nat)
    requires Topological(agents, order) && i < |order| && |p| >= 2 && order[i] == p[0]
    ensures !Cycle(agents, p)
    decreases i
  {
    if Cycle(agents, p) {
      var j := PathDescends(agents, order, p, i);
      NoCycleAt(agents, order, p, j);
    }
  }

  lemma OrderedIsAcyclic(agents: Agents, order: seq<Agent>)
    requires Topological(agents, order) && agents.Keys <= Elements(order)
    ensures Acyclic(agents)
  {
    forall p ensures !Cycle(agents, p) {
      if Cycle(agents, p) {
        assert LoopEdge(agents, p[0], p[1]);
        var i :| 0 <= i < |order| && order[i] == p[0];
        NoCycleAt(agents, order, p, i);
      }
    }
  }
}
