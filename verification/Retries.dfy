/** An approval on a retried stretch, parked twice. */
module Retries {
  // A graph the validator accepts on which one approval comes to be parked at two iterations, which one
  // decision then settles alike.

  import opened Graphs
  import opened DepthFirst
  import opened Interpreter
  import opened Walk
  import opened FlowRun
  import opened RunMachine
  import opened RunHistory
  import opened Validator
  import opened LoopOrder

  const P := Id("p")
  const NP := Plain(P, Approval, "apf_1")
  const AP := Edge(Id("pa"), A, P, "")
  const LINKS := [TA, AC, CA, AP]

  /** trigger -> action -> control, the control's retry edge back to the action, and action -> approval. */
  const RETRIED := Graph([NA, NT, NC, NP], LINKS)

  lemma Names()
    ensures P != T && P != A && P != C && T != A && A != C && T != C
    ensures AP.id != TA.id && AP.id != AC.id && AP.id != CA.id
  {
    DistinctIds();
    assert P.name[0] == 'p' && AP.id.name[0] == 'p' && T.name[0] == 't' && A.name[0] == 'a' && C.name[0] == 'c';
    assert TA.id.name[0] == 't' && AC.id.name[0] == 'a' && CA.id.name[0] == 'c';
  }

  lemma UniqueIds()
    ensures UniqueNodeIds(RETRIED.nodes) && UniqueEdgeIds(LINKS)
  {
    Names();
    DistinctIds();
    assert forall i :: 0 <= i < 4 ==> Nth(RETRIED.nodes, i) == RETRIED.nodes[i];
    assert forall i :: 0 <= i < 4 ==> Nth(LINKS, i) == LINKS[i];
  }

  lemma Found(n: Node)
    requires n in RETRIED.nodes
    ensures HasNode(RETRIED, n.id) && KindOf(RETRIED, n.id) == n.kind
  {
    UniqueIds();
    NodeByIdUnique(RETRIED.nodes, n);
    HasNodeIff(RETRIED, n.id);
  }

  lemma RetriedKinds()
    ensures HasNode(RETRIED, T) && HasNode(RETRIED, A) && HasNode(RETRIED, C) && HasNode(RETRIED, P)
    ensures KindOf(RETRIED, T) == Trigger && KindOf(RETRIED, A) == Action
    ensures KindOf(RETRIED, C) == Control && KindOf(RETRIED, P) == Approval
  {
    var nodes := RETRIED.nodes;
    assert nodes == [NA, NT, NC, NP] && NT in nodes && NA in nodes && NC in nodes && NP in nodes;
    Found(NT);
    Found(NA);
    Found(NC);
    Found(NP);
  }

  lemma RetriedWellFormed()
    ensures WellFormed(RETRIED)
  {
    UniqueIds();
    RetriedKinds();
  }

  lemma RetryEdgeIsBack()
    ensures CA in LoopEdges(RETRIED)
  {
    RetriedWellFormed();
    assert NodeIds(RETRIED.nodes) == [CA.to] + [T, C, P];
    assert CA in LINKS && AC in LINKS;
    ReachEdge(EdgeSet(LINKS), AC);
    EnteredFirst(RETRIED, CA, [T, C, P]);
  }

  lemma OffTheCycle()
    ensures !Reach(EdgeSet(LINKS), A, T) && !Reach(EdgeSet(LINKS), P, A) && !Reach(EdgeSet([TA, AC, AP]), C, A)
  {
    Names();
    NoWayBack(LINKS, [A, C, P], A, T);
    NoWayBack(LINKS, [P], P, A);
    NoWayBack([TA, AC, AP], [C], C, A);
  }

  /** The retry edge is the one loop edge. */
  lemma RetriedLoops()
    ensures LoopEdges(RETRIED) == {CA}
  {
    var ids := NodeIds(RETRIED.nodes);
    RetriedWellFormed();
    WellFormedFromNodes(RETRIED);
    RetryEdgeIsBack();
    OffTheCycle();
    forall e | e in LoopEdges(RETRIED)
      ensures e == CA
    {
      LoopEdgeOnCycle(RETRIED, e);
      assert e == TA || e == AC || e == CA || e == AP;
      if e == AC {
        BackClosesCycle(ids, LINKS, AC);
        assert ForwardSet(ids, LINKS) <= EdgeSet([TA, AC, AP]);
        ReachMono(ForwardSet(ids, LINKS), EdgeSet([TA, AC, AP]), C, A);
      }
    }
  }

  lemma RetriedNodesFit()
    ensures NodesFit(RETRIED)
  {
    AllNodesFit();
    NotSpace("p");
    NotSpace("apf_1");
    assert NT in ACTION_FIRST.nodes && NA in ACTION_FIRST.nodes && NC in ACTION_FIRST.nodes;
    assert NodeFits(NP);
  }

  lemma RetriedEdgeNamed(e: Edge)
    requires e in LINKS
    ensures !IsBlank(e.id.name) && e.from != e.to
  {
    Names();
    NotSpace(e.id.name);
  }

  lemma RetriedEdgeFits(e: Edge)
    requires e in LINKS
    ensures EdgeFits(RETRIED, e)
  {
    RetriedEdgeNamed(e);
    RetriedKinds();
    NotSpace("retry");
  }

  lemma RetriedReached(n: Node)
    requires n in RETRIED.nodes
    ensures ReachedFromTrigger(RETRIED, n.id)
  {
    var es := EdgeSet(LINKS);
    assert NT in RETRIED.nodes;
    assert TA in LINKS && AC in LINKS && AP in LINKS;
    ReachRefl(es, T);
    ReachEdge(es, TA);
    ReachEdge(es, AC);
    ReachEdge(es, AP);
    ReachTrans(es, T, A, C);
    ReachTrans(es, T, A, P);
  }

  lemma RetriedFits()
    ensures EdgesFit(RETRIED) && AllReached(RETRIED)
  {
    forall e | e in LINKS
      ensures EdgeFits(RETRIED, e)
    {
      RetriedEdgeFits(e);
    }
    forall n | n in RETRIED.nodes
      ensures ReachedFromTrigger(RETRIED, n.id)
    {
      RetriedReached(n);
    }
  }

  lemma RetriedGuarded()
    ensures LoopDiscipline(RETRIED) && HasTrigger(RETRIED)
  {
    RetriedLoops();
    RetriedKinds();
    assert NT in RETRIED.nodes && NT.kind == Trigger;
  }

  lemma RetriedAccepted()
    ensures Accepts(RETRIED)
  {
    RetriedWellFormed();
    RetriedNodesFit();
    RetriedFits();
    RetriedGuarded();
  }

  // ---- what can run on it ----

  lemma RetriedFeeds(e: Edge, src: Key, k: Key)
    requires Feeds(RETRIED, e, src, k)
    ensures || (e == TA && src.id == T && k == Key(A, src.iter)) || (e == CA && src.id == C && k == Key(A, src.iter + 1))
            || (e == AC && src.id == A && k == Key(C, src.iter)) || (e == AP && src.id == A && k == Key(P, src.iter))
  {
    RetriedLoops();
    DistinctIds();
    assert e == TA || e == AC || e == CA || e == AP;
  }

  lemma OneTrigger(rows: Rows, k: Key)
    requires Reached(RETRIED, rows, k) && k.id == T
    ensures k.iter == 0
  {
    Names();
    if !Seed(RETRIED, rows, k) {
      var e, src := ReachedFrom(RETRIED, rows, k);
      RetriedFeeds(e, src, k);
    }
  }

  predicate Retry(rows: Rows, iter: nat) {
    Done(rows, Key(C, iter)) && Field(rows[Key(C, iter)].result, "port") == "retry"
  }

  /** What has to have run before a key. */
  predicate Prepared(rows: Rows, k: Key) {
    if k.id == A then k.iter == 0 || Retry(rows, k.iter - 1)
    else (k.id == C || k.id == P) && Done(rows, Key(A, k.iter))
  }

  lemma TakenMeans(rows: Rows, iter: nat)
    ensures Taken(RETRIED, rows, TA, iter) <==> Done(rows, Key(T, iter))
    ensures Taken(RETRIED, rows, CA, iter) <==> Retry(rows, iter)
    ensures Taken(RETRIED, rows, AC, iter) <==> Done(rows, Key(A, iter))
    ensures Taken(RETRIED, rows, AP, iter) <==> Done(rows, Key(A, iter))
  {
    RetriedKinds();
  }

  lemma LeadsWhere(iter: nat)
    ensures Feeds(RETRIED, TA, Key(T, iter), Key(A, iter)) && Feeds(RETRIED, CA, Key(C, iter), Key(A, iter + 1))
    ensures Feeds(RETRIED, AC, Key(A, iter), Key(C, iter)) && Feeds(RETRIED, AP, Key(A, iter), Key(P, iter))
  {
    RetriedLoops();
    Names();
    DistinctIds();
    assert TA in LINKS && AC in LINKS && CA in LINKS && AP in LINKS;
  }

  /** A key that can run was reached over an edge that is open. */
  lemma PassedIsPrepared(rows: Rows, e: Edge, src: Key, k: Key)
    requires Ready(RETRIED, rows, k) && Reached(RETRIED, rows, src) && Feeds(RETRIED, e, src, k) && Passes(RETRIED, rows, e, src.iter)
    ensures Prepared(rows, k)
  {
    Names();
    RetriedFeeds(e, src, k);
    RetriedLoops();
    if e == TA {
      OneTrigger(rows, src);
    } else if e == CA {
      TakenMeans(rows, src.iter);
    } else {
      assert LiveIn(RETRIED, rows, e, src, k);
    }
  }

  lemma ReadyIsPrepared(rows: Rows, k: Key)
    requires Ready(RETRIED, rows, k)
    ensures Prepared(rows, k) && k !in rows
  {
    var e, src := ReachedFrom(RETRIED, rows, k);
    PassedIsPrepared(rows, e, src, k);
  }

  lemma TakenReached(rows: Rows, e: Edge, src: Key, k: Key)
    requires Sound(RETRIED, T, rows) && Feeds(RETRIED, e, src, k) && Taken(RETRIED, rows, e, src.iter)
    ensures Reached(RETRIED, rows, k) && LiveIn(RETRIED, rows, e, src, k)
  {
    assert Key(e.from, src.iter) == src;
    assert TakenLink(RETRIED, rows, src, k);
    TakenIsCommitted(RETRIED, T, rows, src, k);
    assert Committed(RETRIED, rows, src);
    CommittedIsReached(RETRIED, rows, src);
  }

  /** The edge a key that is prepared is reached over, and what it comes from. */
  lemma PreparedTaken(rows: Rows, k: Key) returns (e: Edge, src: Key)
    requires Done(rows, Key(T, 0)) && Prepared(rows, k)
    ensures Feeds(RETRIED, e, src, k) && Taken(RETRIED, rows, e, src.iter)
  {
    Names();
    LeadsWhere(k.iter);
    TakenMeans(rows, k.iter);
    if k.id == A && k.iter == 0 {
      e, src := TA, Key(T, 0);
    } else if k.id == A {
      LeadsWhere(k.iter - 1);
      TakenMeans(rows, k.iter - 1);
      e, src := CA, Key(C, k.iter - 1);
    } else {
      e, src := if k.id == C then AC else AP, Key(A, k.iter);
    }
  }

  lemma PreparedReached(rows: Rows, k: Key) returns (e: Edge, src: Key)
    requires Sound(RETRIED, T, rows) && Prepared(rows, k)
    ensures Reached(RETRIED, rows, k) && LiveIn(RETRIED, rows, e, src, k)
  {
    e, src := PreparedTaken(rows, k);
    TakenReached(rows, e, src, k);
  }

  lemma PreparedSource(rows: Rows, k: Key, src: Key)
    requires Prepared(rows, k)
    requires (src.id == C && k == Key(A, src.iter + 1)) || (src.id == A && (k == Key(C, src.iter) || k == Key(P, src.iter)))
    ensures Done(rows, src)
  {
    Names();
    if src.id == C {
      assert Retry(rows, src.iter) && src == Key(C, src.iter);
    } else {
      assert src == Key(A, k.iter);
    }
  }

  lemma PreparedWaitsForNothing(rows: Rows, k: Key, e: Edge, src: Key)
    requires Done(rows, Key(T, 0)) && Prepared(rows, k) && Feeds(RETRIED, e, src, k) && Reached(RETRIED, rows, src)
    ensures Done(rows, src)
  {
    RetriedFeeds(e, src, k);
    if src.id == T {
      OneTrigger(rows, src);
    } else {
      PreparedSource(rows, k, src);
    }
  }

  lemma PreparedIsReady(rows: Rows, k: Key)
    requires Sound(RETRIED, T, rows) && Prepared(rows, k) && k !in rows
    ensures Ready(RETRIED, rows, k)
  {
    Names();
    RetriedKinds();
    var e, src := PreparedReached(rows, k);
    forall e, src | LiveIn(RETRIED, rows, e, src, k)
      ensures Done(rows, src)
    {
      PreparedWaitsForNothing(rows, k, e, src);
    }
  }

  lemma RetriedWithinCap(rows: Rows)
    requires forall k :: k in rows ==> k.iter <= 1
    ensures WithinCap(RETRIED, rows)
  {
    RetriedLoops();
  }

  /** One key, or the control and the approval of one iteration. */
  predicate Sortable(ready: seq<Key>) {
    |ready| <= 1 || (|ready| == 2 && ready[0].id == C && ready[1] == Key(P, ready[0].iter))
  }

  lemma Listed()
    ensures FindNode(RETRIED.nodes, C) == 2 && FindNode(RETRIED.nodes, P) == 3
  {
    Names();
    var nodes := RETRIED.nodes;
    assert nodes[0].id == A && nodes[1].id == T && nodes[2].id == C && nodes[3].id == P;
    var i, j := FindNode(nodes, C), FindNode(nodes, P);
    assert i == 0 || i == 1 || i == 2 || i == 3;
    assert j == 0 || j == 1 || j == 2 || j == 3;
  }

  lemma RetriedOrdered(ready: seq<Key>)
    requires Sortable(ready)
    ensures Ordered(RETRIED, ready)
  {
    Listed();
    if |ready| == 2 {
      assert Before(RETRIED, ready[0], ready[1]);
    }
    assert forall i :: 0 <= i < |ready| ==> Nth(ready, i) == ready[i];
  }

  lemma RetriedBatch(rows: Rows, ready: seq<Key>)
    requires Sound(RETRIED, T, rows) && Sortable(ready)
    requires forall k {:trigger Prepared(rows, k)} :: k in ready <==> Prepared(rows, k) && k !in rows
    requires forall i :: 0 <= i < |ready| ==> ready[i].iter <= 1
    ensures Batch(RETRIED, rows, ready)
  {
    RetriedOrdered(ready);
    forall k
      ensures k in ready <==> Ready(RETRIED, rows, k)
    {
      assert k in ready <==> Prepared(rows, k) && k !in rows;
      if Ready(RETRIED, rows, k) {
        ReadyIsPrepared(rows, k);
      } else if k in ready {
        PreparedIsReady(rows, k);
      }
    }
  }

  // ---- the history ----

  /** The control retries once; the approval is answered differently at the two iterations. */
  function Answers(): World {
    (k: Key) =>
      if k.id == C then map["port" := if k.iter == 0 then "retry" else "stop"]
      else if k.id == P then Decision(if k.iter == 0 then "yes" else "no", "")
      else map[]
  }

  function RetriedPlan(): Plan {
    Plan(RETRIED, T, Answers())
  }

  const NONE: map<string, string> := map[]
  const WAITS := Row(Parked, NONE)
  const RAN := Row(Completed, NONE)

  const SEEDED: Rows := map[Key(T, 0) := RAN]
  const ONCE: Rows := SEEDED[Key(A, 0) := RAN]
  const CHOSEN: Rows := ONCE[Key(C, 0) := Row(Completed, map["port" := "retry"])]
  const PARKED: Rows := CHOSEN[Key(P, 0) := WAITS]
  const AGAIN: Rows := PARKED[Key(A, 1) := RAN]
  const STOPPED: Rows := AGAIN[Key(C, 1) := Row(Completed, map["port" := "stop"])]
  /** The action has run twice, by the control's choice, and the approval waits at both iterations. */
  const TWICE: Rows := STOPPED[Key(P, 1) := WAITS]

  lemma RetriedRunnable()
    ensures Runnable(RetriedPlan())
  {
    RetriedWellFormed();
    RetriedKinds();
  }

  lemma RetriedStarts() returns (steps: seq<Step>)
    ensures Leads(RetriedPlan(), steps, Ran(SEEDED, Walking(SEEDED)))
  {
    var p := RetriedPlan();
    Names();
    RetriedRunnable();
    assert Seeded(p) == Ran(SEEDED, Off);
    assert Leads(p, [], Seeded(p));
    steps := LoadThen(p, [], SEEDED);
  }

  lemma LedToSound(steps: seq<Step>, m: Machine)
    requires Leads(RetriedPlan(), steps, m)
    ensures Sound(RETRIED, T, m.rows)
  {
    EndOf(RetriedPlan(), steps);
  }

  lemma FirstPrepared(k: Key)
    ensures k in [Key(A, 0)] <==> Prepared(SEEDED, k) && k !in SEEDED
  {
    Names();
  }

  lemma SecondPrepared(k: Key)
    ensures k in [Key(C, 0), Key(P, 0)] <==> Prepared(ONCE, k) && k !in ONCE
  {
    Names();
  }

  lemma ThirdPrepared(k: Key)
    ensures k in [Key(A, 1)] <==> Prepared(PARKED, k) && k !in PARKED
  {
    Names();
  }

  lemma FourthPrepared(k: Key)
    ensures k in [Key(C, 1), Key(P, 1)] <==> Prepared(AGAIN, k) && k !in AGAIN
  {
    Names();
  }

  lemma NothingPrepared(k: Key)
    ensures !(Prepared(TWICE, k) && k !in TWICE)
  {
    Names();
  }

  lemma EarlyRows()
    ensures forall k :: k in TWICE ==> k.iter <= 1
    ensures forall k :: k in AGAIN ==> k.iter <= 1
    ensures forall k :: k in PARKED ==> k.iter <= 1
    ensures forall k :: k in ONCE ==> k.iter <= 1
    ensures forall k :: k in SEEDED ==> k.iter <= 1
  {
  }

  lemma RowsOf(iter: nat)
    ensures NodeRow(RETRIED, Answers(), false, Key(A, iter)) == RAN
    ensures NodeRow(RETRIED, Answers(), false, Key(C, iter)) == Row(Completed, map["port" := if iter == 0 then "retry" else "stop"])
    ensures NodeRow(RETRIED, Answers(), false, Key(P, iter)) == WAITS
  {
    Names();
    RetriedKinds();
  }

  lemma RetriedFinds(steps: seq<Step>, rows: Rows, ready: seq<Key>)
    requires Leads(RetriedPlan(), steps, Ran(rows, Walking(rows))) && forall k :: k in rows ==> k.iter <= 1
    requires Sortable(ready)
    requires forall k {:trigger Prepared(rows, k)} :: k in ready <==> Prepared(rows, k) && k !in rows
    requires forall i :: 0 <= i < |ready| ==> ready[i].iter <= 1
    ensures WithinCap(RETRIED, rows) && Batch(RETRIED, rows, ready)
  {
    LedToSound(steps, Ran(rows, Walking(rows)));
    RetriedBatch(rows, ready);
    RetriedWithinCap(rows);
  }

  /** A batch of the action alone. */
  lemma ActionRuns(steps0: seq<Step>, rows: Rows, k: Key) returns (steps: seq<Step>)
    requires Leads(RetriedPlan(), steps0, Ran(rows, Walking(rows))) && forall k :: k in rows ==> k.iter <= 1
    requires k.id == A && k.iter <= 1 && k !in rows
    requires forall x {:trigger Prepared(rows, x)} :: x in [k] <==> Prepared(rows, x) && x !in rows
    ensures Leads(RetriedPlan(), steps, Ran(rows[k := RAN], Walking(rows[k := RAN])))
  {
    RowsOf(k.iter);
    RetriedFinds(steps0, rows, [k]);
    steps := OneRuns(RetriedPlan(), steps0, rows, k, RAN);
  }

  /** A batch of the control and the approval. */
  lemma ChoiceRuns(steps0: seq<Step>, rows: Rows, c: Key, q: Key, row: Row) returns (steps: seq<Step>)
    requires Leads(RetriedPlan(), steps0, Ran(rows, Walking(rows))) && forall k :: k in rows ==> k.iter <= 1
    requires c.id == C && q == Key(P, c.iter) && c.iter <= 1 && c !in rows && q !in rows
    requires forall x {:trigger Prepared(rows, x)} :: x in [c, q] <==> Prepared(rows, x) && x !in rows
    requires row == Row(Completed, map["port" := if c.iter == 0 then "retry" else "stop"])
    ensures Leads(RetriedPlan(), steps, Ran(rows[c := row][q := WAITS], Walking(rows[c := row][q := WAITS])))
  {
    RetriedFinds(steps0, rows, [c, q]);
    assert c != q by {
      Names();
    }
    RowsOf(c.iter);
    steps := OneRunsOneParks(RetriedPlan(), steps0, rows, c, row, q, WAITS);
  }

  lemma NotYet()
    ensures Key(A, 0) !in SEEDED && Key(C, 0) !in ONCE && Key(P, 0) !in ONCE
    ensures Key(A, 1) !in PARKED && Key(C, 1) !in AGAIN && Key(P, 1) !in AGAIN
  {
    Names();
  }

  lemma FirstTurns() returns (steps: seq<Step>)
    ensures Leads(RetriedPlan(), steps, Ran(PARKED, Walking(PARKED)))
  {
    EarlyRows();
    NotYet();
    steps := RetriedStarts();
    forall k ensures k in [Key(A, 0)] <==> Prepared(SEEDED, k) && k !in SEEDED { FirstPrepared(k); }
    steps := ActionRuns(steps, SEEDED, Key(A, 0));
    forall k ensures k in [Key(C, 0), Key(P, 0)] <==> Prepared(ONCE, k) && k !in ONCE { SecondPrepared(k); }
    steps := ChoiceRuns(steps, ONCE, Key(C, 0), Key(P, 0), Row(Completed, map["port" := "retry"]));
  }

  lemma RetriedWalks() returns (steps: seq<Step>)
    ensures Leads(RetriedPlan(), steps, Ran(TWICE, Walking(TWICE)))
  {
    EarlyRows();
    NotYet();
    steps := FirstTurns();
    forall k ensures k in [Key(A, 1)] <==> Prepared(PARKED, k) && k !in PARKED { ThirdPrepared(k); }
    steps := ActionRuns(steps, PARKED, Key(A, 1));
    forall k ensures k in [Key(C, 1), Key(P, 1)] <==> Prepared(AGAIN, k) && k !in AGAIN { FourthPrepared(k); }
    steps := ChoiceRuns(steps, AGAIN, Key(C, 1), Key(P, 1), Row(Completed, map["port" := "stop"]));
  }

  lemma TwiceParked()
    ensures TWICE[Key(P, 0)] == WAITS && TWICE[Key(P, 1)] == WAITS && HasRow(TWICE, Parked) && HasParked(TWICE, P)
  {
    Names();
    assert Key(P, 1) in TWICE;
  }

  lemma AnswersDiffer(answer: map<string, string>)
    ensures Answers()(Key(P, 0)) != answer || Answers()(Key(P, 1)) != answer
  {
    Names();
    assert Answers()(Key(P, 0))["decision"] != Answers()(Key(P, 1))["decision"];
  }

  lemma NoAnswerForBoth(decision: string, reason: string)
    requires Follows(TWICE, Answers())
    ensures !Agrees(RetriedPlan(), Ran(TWICE, Off), Decide(P, decision, reason))
    ensures !Follows(ResolveParked(TWICE, P, Row(Completed, Decision(decision, reason))), Answers())
  {
    TwiceParked();
    AnswersDiffer(Decision(decision, reason));
    DecisionFollows(TWICE, P, Decision(decision, reason), Answers());
  }

  /** An undisturbed history that parks one approval at two iterations, on a graph the validator accepts.
      The run answers them differently, so no decision agrees with its results: whichever is made settles
      both rows alike. */
  lemma OneDecisionForTwo(decision: string, reason: string) returns (steps: seq<Step>)
    ensures Accepts(RETRIED) && Leads(RetriedPlan(), steps, Ran(TWICE, Off))
    ensures TWICE[Key(P, 0)] == WAITS && TWICE[Key(P, 1)] == WAITS
    ensures !Agrees(RetriedPlan(), Ran(TWICE, Off), Decide(P, decision, reason))
    ensures !Follows(ResolveParked(TWICE, P, Row(Completed, Decision(decision, reason))), Answers())
  {
    RetriedAccepted();
    EarlyRows();
    TwiceParked();
    steps := RetriedWalks();
    forall k ensures k in [] <==> Prepared(TWICE, k) && k !in TWICE { NothingPrepared(k); }
    RetriedFinds(steps, TWICE, []);
    steps := TurnThen(RetriedPlan(), steps, TWICE, []);
    steps := WaitThen(RetriedPlan(), steps, TWICE);
    EndOf(RetriedPlan(), steps);
    NoAnswerForBoth(decision, reason);
  }
}
