/** The three-colour depth-first search that rejects cyclic host dependencies at configuration time. */
module CycleCheck {
  import opened Graph
  import opened Hosts

  datatype Mark = Visiting | Visited

  class Checker {
    const graph: DependencyGraph
    var marks: map<string, Mark>        // an absent key is an unvisited node
    var stack: seq<string>
    var problems: seq<seq<string>>      // every reported cycle, as the path that is printed
    ghost var finished: seq<string>     // nodes in the order they became Visited

    ghost predicate Valid()
      reads this
    {
      && Distinct(stack) && Walk(graph, stack)
      && (forall id :: id in stack <==> id in marks && marks[id] == Visiting)
      && marks.Keys <= graph.Keys
      && Distinct(finished)
      && (forall id :: id in finished <==> id in marks && marks[id] == Visited)
      && (forall c :: c in problems ==> ClosedWalk(graph, c))
      && (problems == [] ==> DependenciesFirst(graph, finished))
    }

    constructor (g: DependencyGraph)
      ensures Valid() && graph == g && stack == [] && problems == [] && finished == []
    {
      graph, marks, stack, problems, finished := g, map[], [], [], [];
    }

    /** Reports the part of the stack that closes at `id`. */
    method ReportCycle(id: string)
      requires Valid() && id in stack && Edge(graph, stack[|stack| - 1], id)
      modifies this`problems
      ensures Valid() && |problems| == |old(problems)| + 1 && old(problems) <= problems
    {
      var start := 0;
      for i := 0 to |stack|
        invariant start == 0
        invariant id !in stack[..i]
      {
        if stack[i] == id {
          start := i;
          break;
        }
      }
      var cycle := stack[start..] + [id];
      forall i | 0 <= i < |cycle| - 1 ensures Edge(graph, cycle[i], cycle[i + 1]) {
        assert cycle[i] == stack[start + i];
        if i < |cycle| - 2 {
          assert cycle[i + 1] == stack[start + i + 1];
        }
      }
      problems := problems + [cycle];
    }

    method Enter(id: string)
      requires Valid() && id in graph && id !in marks
      requires stack != [] ==> Edge(graph, stack[|stack| - 1], id)
      modifies this`marks, this`stack
      ensures Valid() && stack == old(stack) + [id] && marks == old(marks)[id := Visiting]
    {
      assert id !in stack && id !in finished;
      marks := marks[id := Visiting];
      stack := stack + [id];
    }

    /** All dependencies of the top of the stack are settled: it becomes the newest finished node. */
    method Leave(id: string)
      requires Valid() && stack != [] && stack[|stack| - 1] == id && id in graph
      requires problems == [] ==> forall d :: d in graph && d in graph[id] ==> d in finished
      modifies this`marks, this`stack, this`finished
      ensures Valid() && stack == old(stack)[..|old(stack)| - 1]
      ensures marks == old(marks)[id := Visited] && finished == old(finished) + [id]
    {
      assert id in stack && id !in finished;
      ghost var settled := finished;
      stack := stack[..|stack| - 1];
      marks := marks[id := Visited];
      finished := finished + [id];
      forall i, d | problems == [] && 0 <= i < |finished| && Edge(graph, finished[i], d)
        ensures d in finished[..i]
      {
        if i < |settled| {
          assert finished[..i] == settled[..i];
        } else {
          assert finished[..i] == settled;
        }
      }
    }

    method Visit(id: string)
      requires Valid() && id in graph
      requires stack != [] ==> Edge(graph, stack[|stack| - 1], id)
      requires id in stack ==> stack != []
      modifies this
      ensures Valid() && stack == old(stack)
      ensures old(marks.Keys) <= marks.Keys && old(finished) <= finished && old(problems) <= problems
      ensures id in marks
      ensures problems == [] ==> id in finished
      decreases graph.Keys - marks.Keys
    {
      if id in marks {
        if marks[id] == Visiting {
          ReportCycle(id);
        }
        return;
      }
      Enter(id);
      ghost var entered := stack;
      var deps := graph[id];
      for i := 0 to |deps|
        invariant Valid() && stack == entered
        invariant old(marks.Keys) + {id} <= marks.Keys
        invariant old(finished) <= finished && old(problems) <= problems
        invariant problems == [] ==> forall j :: 0 <= j < i && deps[j] in graph ==> deps[j] in finished
      {
        if deps[i] in graph {
          Visit(deps[i]);
        }
      }
      Leave(id);
    }
  }

  /** Visits every node, in whatever order the graph's keys happen to be enumerated. */
  method ValidateHostDependencyCycles(hosts: seq<HostConfig>) returns (problems: seq<seq<string>>)
    ensures problems == [] <==> !Cyclic(GraphOf(hosts))
    ensures forall c :: c in problems ==> ClosedWalk(GraphOf(hosts), c)
  {
    var graph: DependencyGraph := map[];
    for i := 0 to |hosts|
      invariant graph == GraphOf(hosts[..i])
    {
      assert hosts[..i + 1][..i] == hosts[..i];
      graph := graph[hosts[i].id := hosts[i].dependsOn];
    }
    assert hosts[..|hosts|] == hosts;
    var checker := new Checker(graph);
    var pending := graph.Keys;
    while pending != {}
      invariant checker.Valid() && checker.graph == graph && checker.stack == []
      invariant pending <= graph.Keys
      invariant forall id :: id in graph && id !in pending ==> id in checker.marks
      decreases pending
    {
      var id :| id in pending;
      pending := pending - {id};
      if id !in checker.marks {
        checker.Visit(id);
      }
    }
    problems := checker.problems;
    if problems == [] {
      OrderedIsAcyclic(graph, checker.finished);
    } else {
      assert problems[0] in problems;
    }
  }
}
