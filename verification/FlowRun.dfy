/** A run's rows. */
module FlowRun {
  // The updates of the node table, the batches of a drive, and what each of them keeps.

  import opened Graphs
  import opened Interpreter
  import opened Walk

  /** A kill settles what is parked as failed, so that no dead approval lingers. */
  function SweepParked(rows: Rows): (r: Rows)
    ensures NoParkedRow(r)
    ensures forall k :: k in r <==> k in rows
    ensures forall k :: k in rows ==> r[k] == if rows[k].status == Parked then Row(Failed, rows[k].result) else rows[k]
  {
    map k | k in rows :: if rows[k].status == Parked then Row(Failed, rows[k].result) else rows[k]
  }

  /** What executing a node records: approvals park, unknown kinds fail, the rest complete. */
  function NodeRow(g: Graph, world: World, fails: bool, k: Key): (row: Row)
    ensures row.status == Completed <==> !fails && !KindOf(g, k.id).Other? && KindOf(g, k.id) != Approval
    ensures row.status == Parked <==> !fails && KindOf(g, k.id) == Approval
    ensures row.status == Completed ==> row.result == world(k)
  {
    var kind := KindOf(g, k.id);
    if fails || kind.Other? then Row(Failed, map[])
    else if kind == Approval then Row(Parked, map[])
    else Row(Completed, world(k))
  }

  /** Insert under the (node, iteration) uniqueness constraint: the first writer wins. */
  function InsertOnce(rows: Rows, k: Key, row: Row): (r: Rows)
    ensures forall x :: x in rows ==> x in r && r[x] == rows[x]
    ensures forall x :: x in r ==> x in rows || x == k
    ensures k in r && (k !in rows ==> r[k] == row)
  {
    if k in rows then rows else rows[k := row]
  }

  function Decision(decision: string, reason: string): map<string, string> {
    map["decision" := decision, "reason" := reason]
  }

  /** Settle every parked row of a node: the update is keyed by node, not by iteration. */
  function ResolveParked(rows: Rows, nodeId: Id, row: Row): (r: Rows)
    ensures forall k :: k in r <==> k in rows
    ensures forall k :: k in rows && k.id == nodeId && rows[k].status == Parked ==> r[k] == row
    ensures forall k :: k in rows && !(k.id == nodeId && rows[k].status == Parked) ==> r[k] == rows[k]
  {
    map k | k in rows :: if k.id == nodeId && rows[k].status == Parked then row else rows[k]
  }

  function WithoutFailed(rows: Rows): (r: Rows)
    ensures NoFailedRow(r)
    ensures forall k :: k in r <==> k in rows && rows[k].status != Failed
    ensures forall k :: k in r ==> r[k] == rows[k]
  {
    map k | k in rows && rows[k].status != Failed :: rows[k]
  }

  ghost predicate HasRow(rows: Rows, status: Status) {
    exists k :: k in rows && rows[k].status == status
  }

  /** A drive only adds rows. */
  ghost predicate Kept(rows: Rows, rows': Rows) {
    forall k :: k in rows ==> k in rows' && rows'[k] == rows[k]
  }

  ghost predicate Grew(rows: Rows, rows': Rows) {
    exists k :: k in rows' && k !in rows
  }

  /** The keys the run could still record. */
  ghost predicate IsRoom(g: Graph, rows: Rows, room: set<Key>) {
    forall k {:trigger k in room} :: k in room <==> HasNode(g, k.id) && k.iter <= MAX_ITERATIONS && k !in rows
  }

  lemma RoomAtStart(g: Graph, rows: Rows) returns (room: set<Key>)
    ensures IsRoom(g, rows, room)
  {
    room := Universe(g) - rows.Keys;
  }

  lemma RoomShrinks(g: Graph, rows: Rows, rows': Rows, room: set<Key>) returns (room': set<Key>)
    requires Kept(rows, rows') && IsRoom(g, rows, room)
    requires forall k :: k in rows' ==> HasNode(g, k.id) && k.iter <= MAX_ITERATIONS
    ensures IsRoom(g, rows', room') && room' <= room && (Grew(rows, rows') ==> room' < room)
  {
    room' := Universe(g) - rows'.Keys;
    if Grew(rows, rows') {
      var k :| k in rows' && k !in rows;
      assert k in room && k !in room';
    }
  }

  // ---- one batch ----

  /** The keys a batch runs: exactly those ready at its start, in canonical order. */
  ghost predicate Batch(g: Graph, rows: Rows, ready: seq<Key>) {
    && Ordered(g, ready)
    && (forall k {:trigger Ready(g, rows, k)} :: k in ready <==> Ready(g, rows, k))
    && (forall i :: 0 <= i < |ready| ==> ready[i].iter <= MAX_ITERATIONS)
  }

  /** The first `i` keys of the batch, and no others, have been recorded. */
  ghost predicate Covers(rows: Rows, rows': Rows, ready: seq<Key>, i: nat) {
    i <= |ready| && forall k {:trigger k in rows'} :: k in rows' <==> k in rows || k in ready[..i]
  }

  ghost predicate OnlyParkedSince(rows: Rows, rows': Rows) {
    forall k :: k in rows' && k !in rows ==> rows'[k].status == Parked
  }

  lemma BatchKeyFresh(g: Graph, rows0: Rows, rows: Rows, ready: seq<Key>, i: nat)
    requires Batch(g, rows0, ready) && i < |ready| && Covers(rows0, rows, ready, i)
    ensures ready[i] !in rows && Ready(g, rows0, ready[i])
  {
    var k := ready[i];
    assert Ready(g, rows0, k);
    forall j | 0 <= j < i ensures ready[j] != k {
      OrderedAt(g, ready, j, i);
    }
  }

  lemma CoversNext(rows0: Rows, rows: Rows, ready: seq<Key>, i: nat, row: Row)
    requires Covers(rows0, rows, ready, i) && i < |ready|
    ensures Covers(rows0, InsertOnce(rows, ready[i], row), ready, i + 1)
  {
    assert ready[..i + 1] == ready[..i] + [ready[i]];
  }

  /** The two tables agree on every completed row and on the seeds. */
  ghost predicate SameDecisions(g: Graph, rows: Rows, rows': Rows) {
    && RecordOnce(rows, rows') && RecordOnce(rows', rows)
    && (forall k :: Seed(g, rows, k) <==> Seed(g, rows', k))
  }

  lemma SameLink(g: Graph, rows: Rows, rows': Rows, k: Key, k': Key)
    requires SameDecisions(g, rows, rows') && Link(g, rows, k, k')
    ensures Link(g, rows', k, k')
  {
    var e :| e in g.edges && e.from == k.id && Passes(g, rows, e, k.iter) && k' == Landing(g, e, k.iter);
    assert Done(rows, Key(e.from, k.iter)) <==> Done(rows', Key(e.from, k.iter));
    assert Passes(g, rows', e, k.iter);
  }

  lemma {:induction false} SameReachedIn(g: Graph, rows: Rows, rows': Rows, n: nat, k: Key)
    requires SameDecisions(g, rows, rows') && ReachedIn(g, rows, n, k)
    ensures ReachedIn(g, rows', n, k)
  {
    if n > 0 {
      var src :| ReachedIn(g, rows, n - 1, src) && Link(g, rows, src, k);
      SameReachedIn(g, rows, rows', n - 1, src);
      SameLink(g, rows, rows', src, k);
    }
  }

  lemma SameReached(g: Graph, rows: Rows, rows': Rows, k: Key)
    requires SameDecisions(g, rows, rows') && Reached(g, rows, k)
    ensures Reached(g, rows', k)
  {
    var n: nat :| ReachedIn(g, rows, n, k);
    SameReachedIn(g, rows, rows', n, k);
  }

  lemma SameLiveIn(g: Graph, rows: Rows, rows': Rows, e: Edge, src: Key, k: Key)
    requires SameDecisions(g, rows, rows') && LiveIn(g, rows, e, src, k)
    ensures LiveIn(g, rows', e, src, k) && (Done(rows', src) <==> Done(rows, src))
  {
    SameReached(g, rows, rows', src);
    assert Done(rows, Key(e.from, src.iter)) <==> Done(rows', Key(e.from, src.iter));
  }

  /** Parking changes nothing about what is in play, so it readies nothing: a driver that yields
      after a batch of approvals leaves nothing runnable behind. */
  lemma ParkReadiesNothing(g: Graph, rows: Rows, rows': Rows, k: Key)
    requires SameDecisions(g, rows, rows') && (forall x :: x in rows ==> x in rows')
    requires Ready(g, rows', k)
    ensures Ready(g, rows, k)
  {
    SameReached(g, rows', rows, k);
    var e, src :| LiveIn(g, rows', e, src, k);
    SameLiveIn(g, rows', rows, e, src, k);
    forall e, src | LiveIn(g, rows, e, src, k) ensures Done(rows, src) {
      SameLiveIn(g, rows, rows', e, src, k);
    }
  }

  /** A batch that only parked leaves nothing ready. */
  lemma ParkedLeavesNothing(g: Graph, rows: Rows, rows': Rows, ready: seq<Key>)
    requires Batch(g, rows, ready) && Kept(rows, rows') && OnlyParkedSince(rows, rows') && Covers(rows, rows', ready, |ready|)
    ensures NothingReady(g, rows')
  {
    assert ready[..|ready|] == ready;
    forall k | Seed(g, rows', k) ensures Seed(g, rows, k) {
      assert Ready(g, rows, k) <==> k in ready;
    }
    forall k ensures !Ready(g, rows', k) {
      assert Ready(g, rows, k) <==> k in ready;
      if Ready(g, rows', k) {
        ParkReadiesNothing(g, rows, rows', k);
      }
    }
  }

  lemma ReadyAlike(g: Graph, rows: Rows, rows': Rows, k: Key)
    requires SameDecisions(g, rows, rows') && Ready(g, rows, k) && k !in rows'
    ensures Ready(g, rows', k)
  {
    SameReached(g, rows, rows', k);
    var e, src :| LiveIn(g, rows, e, src, k);
    SameLiveIn(g, rows, rows', e, src, k);
    forall e, src | LiveIn(g, rows', e, src, k)
      ensures Done(rows', src)
    {
      SameLiveIn(g, rows', rows, e, src, k);
    }
  }

  lemma SeedIsEntry(g: Graph, entry: Id, rows: Rows, k: Key)
    requires Sound(g, entry, rows)
    ensures Seed(g, rows, k) <==> k == Key(entry, 0)
  {
  }

  lemma SeedsSurvive(g: Graph, entry: Id, rows: Rows, rows': Rows)
    requires Sound(g, entry, rows) && RecordOnce(rows, rows') && forall k :: k in rows' ==> k in rows
    ensures forall x :: Seed(g, rows, x) <==> Seed(g, rows', x)
  {
    forall x
      ensures Seed(g, rows, x) <==> Seed(g, rows', x)
    {
      SeedIsEntry(g, entry, rows, x);
    }
  }

  lemma ClearingSameDecisions(g: Graph, entry: Id, rows: Rows, k: Key)
    requires Sound(g, entry, rows) && k in rows && rows[k].status == Failed
    ensures SameDecisions(g, WithoutFailed(rows), rows - {k})
  {
    SeedsSurvive(g, entry, rows, WithoutFailed(rows));
    SeedsSurvive(g, entry, rows, rows - {k});
  }

  /** After a replay has cleared the failed rows a failed key can run again exactly when it could if it alone
      had no row. */
  lemma ClearedRunsAgain(g: Graph, entry: Id, rows: Rows, k: Key)
    requires Sound(g, entry, rows) && k in rows && rows[k].status == Failed
    ensures Ready(g, WithoutFailed(rows), k) <==> Ready(g, rows - {k}, k)
  {
    ClearingSameDecisions(g, entry, rows, k);
    if Ready(g, WithoutFailed(rows), k) {
      ReadyAlike(g, WithoutFailed(rows), rows - {k}, k);
    }
    if Ready(g, rows - {k}, k) {
      ReadyAlike(g, rows - {k}, WithoutFailed(rows), k);
    }
  }

  // ---- what recording a row keeps ----

  lemma ReadyIsCommitted(g: Graph, entry: Id, rows: Rows, k: Key)
    requires Sound(g, entry, rows) && Ready(g, rows, k)
    ensures Committed(g, rows, k)
  {
    var e, src :| LiveIn(g, rows, e, src, k);
    assert Key(e.from, src.iter) == src;
    assert Taken(g, rows, e, src.iter);
    assert TakenLink(g, rows, src, k);
    CommittedStep(g, rows, src, k);
  }

  lemma GrowKeepsSound(g: Graph, entry: Id, rows: Rows, rows': Rows, k: Key)
    requires Sound(g, entry, rows) && RecordOnce(rows, rows')
    requires forall x :: x in rows' ==> x in rows || x == k
    requires HasNode(g, k.id) && k.iter <= MAX_ITERATIONS && KindOf(g, k.id) != Trigger
    requires k in rows' ==> Committed(g, rows', k)
    ensures Sound(g, entry, rows')
  {
    forall x | x in rows' ensures Committed(g, rows', x) {
      if x != k {
        assert Committed(g, rows, x);
        CommittedMono(g, rows, rows', x);
      }
    }
  }

  /** Recording a key that was ready earlier in the batch keeps the table sound, even though
      other rows have been recorded since. */
  lemma RecordKeepsSound(g: Graph, entry: Id, rows0: Rows, rows: Rows, k: Key, row: Row)
    requires Sound(g, entry, rows0) && Ready(g, rows0, k) && k.iter <= MAX_ITERATIONS
    requires Sound(g, entry, rows) && RecordOnce(rows0, rows)
    ensures Sound(g, entry, InsertOnce(rows, k, row))
  {
    var rows' := InsertOnce(rows, k, row);
    ReadyIsCommitted(g, entry, rows0, k);
    CommittedMono(g, rows0, rows', k);
    GrowKeepsSound(g, entry, rows, rows', k);
  }

  /** Settling parked rows and clearing failed ones touch no completed row. */
  lemma ShrinkKeepsSound(g: Graph, entry: Id, rows: Rows, rows': Rows)
    requires Sound(g, entry, rows) && RecordOnce(rows, rows')
    requires forall x :: x in rows' ==> x in rows
    ensures Sound(g, entry, rows')
  {
    forall x | x in rows' ensures Committed(g, rows', x) {
      assert Committed(g, rows, x);
      CommittedMono(g, rows, rows', x);
    }
  }
}
