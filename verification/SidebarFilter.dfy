/** The live filter of the sidebar's rows. */
module SidebarFilter {
  // Rows nested in rows, rows in types, types in sections.

  import opened Graphs

  /** The rendered tree in document order: for each row the text searched, the row it is nested in and
      its type; for each type its section, if the group it comes from has a label. */
  datatype Tree = Tree(hay: seq<string>, parent: seq<Option<nat>>, typeOf: seq<nat>, sectionOf: seq<Option<nat>>, sections: nat)

  /** What rendering guarantees: a row comes after the row it is nested in, and shares its type. */
  predicate Rendered(t: Tree) {
    && |t.parent| == |t.hay| == |t.typeOf|
    && (forall i :: 0 <= i < |t.hay| ==> t.typeOf[i] < |t.sectionOf|)
    && (forall i :: 0 <= i < |t.hay| && t.parent[i].Some? ==>
          t.parent[i].value < i && t.typeOf[t.parent[i].value] == t.typeOf[i])
    && (forall k :: 0 <= k < |t.sectionOf| && t.sectionOf[k].Some? ==> t.sectionOf[k].value < t.sections)
  }

  predicate OccursAt(q: string, s: string, k: nat) {
    k + |q| <= |s| && s[k..k + |q|] == q
  }

  predicate Matches(t: Tree, q: string, i: nat)
    requires i < |t.hay|
  {
    exists k :: 0 <= k <= |t.hay[i]| && OccursAt(q, t.hay[i], k)
  }

  /** Some text before it, the query, some text after it. */
  lemma MatchesMeans(t: Tree, q: string, i: nat)
    requires i < |t.hay|
    ensures Matches(t, q, i) <==> exists a: string, b: string :: t.hay[i] == a + q + b
  {
    var s := t.hay[i];
    if a: string, b: string :| s == a + q + b {
      assert OccursAt(q, s, |a|);
    }
    if k :| 0 <= k <= |s| && OccursAt(q, s, k) {
      assert s == s[..k] + q + s[k + |q|..];
    }
  }

  /** The row and every row it is nested in, the climb of the parent loop. */
  function Chain(t: Tree, i: nat): (c: set<nat>)
    requires Rendered(t) && i < |t.hay|
    ensures i in c && forall k :: k in c ==> k <= i && t.typeOf[k] == t.typeOf[i]
  {
    if t.parent[i].None? then {i} else {i} + Chain(t, t.parent[i].value)
  }

  /** From row `i`, step by step to the row it is nested in, one comes to row `k`. */
  predicate Nested(t: Tree, steps: seq<nat>, i: nat, k: nat)
    decreases |steps|
  {
    if steps == [] then i == k
    else i < |t.parent| && t.parent[i] == Some(steps[0]) && Nested(t, steps[1..], steps[0], k)
  }

  /** Row `i` is row `k`, or nested in it at some depth. */
  ghost predicate Inside(t: Tree, i: nat, k: nat) {
    exists steps: seq<nat> :: Nested(t, steps, i, k)
  }

  lemma {:induction false} ChainHolds(t: Tree, steps: seq<nat>, i: nat, k: nat)
    requires Rendered(t) && i < |t.hay| && Nested(t, steps, i, k)
    ensures k in Chain(t, i)
    decreases |steps|
  {
    if steps != [] {
      ChainHolds(t, steps[1..], steps[0], k);
    }
  }

  lemma {:induction false} ChainSteps(t: Tree, i: nat, k: nat) returns (steps: seq<nat>)
    requires Rendered(t) && i < |t.hay| && k in Chain(t, i)
    ensures Nested(t, steps, i, k)
    decreases i
  {
    if k == i {
      steps := [];
    } else {
      var rest := ChainSteps(t, t.parent[i].value, k);
      steps := [t.parent[i].value] + rest;
      assert steps[1..] == rest;
    }
  }

  /** The climb from a row finds exactly what it is nested in. */
  lemma ChainIsAncestry(t: Tree, i: nat, k: nat)
    requires Rendered(t) && i < |t.hay|
    ensures k in Chain(t, i) <==> Inside(t, i, k)
  {
    if k in Chain(t, i) {
      var steps := ChainSteps(t, i, k);
      assert Nested(t, steps, i, k);
    }
    if Inside(t, i, k) {
      var steps: seq<nat> :| Nested(t, steps, i, k);
      ChainHolds(t, steps, i, k);
    }
  }

  /** What a climb standing at `at` still has before it. */
  function Above(t: Tree, at: Option<nat>): set<nat>
    requires Rendered(t) && (at.Some? ==> at.value < |t.hay|)
  {
    if at.None? then {} else Chain(t, at.value)
  }

  /** Some row among the first `n` matches inside the subtree of `k`. */
  ghost predicate HitBelow(t: Tree, q: string, n: nat, k: nat)
    requires Rendered(t) && n <= |t.hay|
  {
    exists j: nat {:trigger Chain(t, j)} :: j < n && Matches(t, q, j) && k in Chain(t, j)
  }

  ghost predicate Hit(t: Tree, q: string, k: nat)
    requires Rendered(t)
  {
    HitBelow(t, q, |t.hay|, k)
  }

  /** A match among the first `n` rows of the type, or of the section. */
  ghost predicate TypeHitBelow(t: Tree, q: string, n: nat, k: nat)
    requires Rendered(t) && n <= |t.hay|
  {
    exists j: nat {:trigger t.typeOf[j]} :: j < n && Matches(t, q, j) && t.typeOf[j] == k
  }

  ghost predicate SectionHitBelow(t: Tree, q: string, n: nat, k: nat)
    requires Rendered(t) && n <= |t.hay|
  {
    exists j: nat {:trigger t.typeOf[j]} :: j < n && Matches(t, q, j) && t.sectionOf[t.typeOf[j]] == Some(k)
  }

  /** Which blocks are displayed and which are unfolded. */
  datatype Face = Face(row: seq<bool>, rowOpen: seq<bool>, type_: seq<bool>, typeOpen: seq<bool>, section: seq<bool>, sectionOpen: seq<bool>)

  predicate Fits(t: Tree, f: Face) {
    && |f.row| == |f.rowOpen| == |t.hay|
    && |f.type_| == |f.typeOpen| == |t.sectionOf|
    && |f.section| == |f.sectionOpen| == t.sections
  }

  /** On screen: displayed, as is everything it is nested in, and everything around it is unfolded. */
  predicate OnScreen(t: Tree, f: Face, i: nat)
    requires Rendered(t) && Fits(t, f) && i < |t.hay|
  {
    var k := t.typeOf[i];
    && (forall a :: a in Chain(t, i) ==> f.row[a] && (a != i ==> f.rowOpen[a]))
    && f.type_[k] && f.typeOpen[k]
    && (t.sectionOf[k].Some? ==> f.section[t.sectionOf[k].value] && f.sectionOpen[t.sectionOf[k].value])
  }

  /** Row by row: at the top by its type and section, further down by the row it is nested in. */
  lemma OnScreenByParent(t: Tree, f: Face, i: nat)
    requires Rendered(t) && Fits(t, f) && i < |t.hay|
    ensures OnScreen(t, f, i) <==>
            f.row[i] &&
            match t.parent[i]
            case Some(p) => f.rowOpen[p] && OnScreen(t, f, p)
            case None =>
              var k := t.typeOf[i];
              f.type_[k] && f.typeOpen[k] && (t.sectionOf[k].Some? ==> f.section[t.sectionOf[k].value] && f.sectionOpen[t.sectionOf[k].value])
  {
    if t.parent[i].Some? {
      var p := t.parent[i].value;
      assert p in Chain(t, p);
    }
  }

  /** What the filter is for. */
  ghost predicate Filtered(t: Tree, q: string, before: Face, after: Face)
    requires Rendered(t) && Fits(t, before) && Fits(t, after)
  {
    && (forall i {:trigger after.row[i]} :: 0 <= i < |t.hay| ==> (after.row[i] <==> q == "" || Hit(t, q, i)))
    && (forall i {:trigger after.rowOpen[i]} :: 0 <= i < |t.hay| ==> (after.rowOpen[i] <==> before.rowOpen[i] || (q != "" && Hit(t, q, i))))
    && (forall k {:trigger after.type_[k]} :: 0 <= k < |t.sectionOf| ==> (after.type_[k] <==> q == "" || TypeHitBelow(t, q, |t.hay|, k)))
    && (forall k {:trigger after.typeOpen[k]} :: 0 <= k < |t.sectionOf| ==>
          (after.typeOpen[k] <==> before.typeOpen[k] || (q != "" && TypeHitBelow(t, q, |t.hay|, k))))
    && (forall k {:trigger after.section[k]} :: 0 <= k < t.sections ==> (after.section[k] <==> q == "" || SectionHitBelow(t, q, |t.hay|, k)))
    && (forall k {:trigger after.sectionOpen[k]} :: 0 <= k < t.sections ==>
          (after.sectionOpen[k] <==> before.sectionOpen[k] || (q != "" && SectionHitBelow(t, q, |t.hay|, k))))
  }

  lemma {:induction false} ChainNests(t: Tree, a: nat, b: nat, i: nat)
    requires Rendered(t) && i < |t.hay| && b in Chain(t, i) && a in Chain(t, b)
    ensures a in Chain(t, i)
    decreases i
  {
    if b != i {
      ChainNests(t, a, b, t.parent[i].value);
    }
  }

  /** With a query, a row that is displayed has the row it is nested in displayed and unfolded: no match is
      inside a hidden block. */
  lemma ParentShown(t: Tree, q: string, before: Face, after: Face, i: nat, p: nat)
    requires Rendered(t) && Fits(t, before) && Fits(t, after) && Filtered(t, q, before, after)
    requires q != "" && i < |t.hay| && t.parent[i] == Some(p) && after.row[i]
    ensures after.row[p] && after.rowOpen[p]
  {
    var j: nat :| j < |t.hay| && Matches(t, q, j) && i in Chain(t, j);
    assert p in Chain(t, p) && p in Chain(t, i);
    ChainNests(t, p, i, j);
    assert Hit(t, q, p);
  }

  /** A row is displayed exactly when some row inside it, or itself, contains the query. */
  lemma HitIsMatchInside(t: Tree, q: string, k: nat)
    requires Rendered(t)
    ensures Hit(t, q, k) <==> exists j: nat :: j < |t.hay| && Matches(t, q, j) && Inside(t, j, k)
  {
    forall j: nat | j < |t.hay|
      ensures k in Chain(t, j) <==> Inside(t, j, k)
    {
      ChainIsAncestry(t, j, k);
    }
  }

  /** With a query, a row is on screen exactly when some row in its subtree matches. */
  lemma OnScreenIffHit(t: Tree, q: string, before: Face, after: Face, i: nat)
    requires Rendered(t) && Fits(t, before) && Fits(t, after) && Filtered(t, q, before, after)
    requires q != "" && i < |t.hay|
    ensures OnScreen(t, after, i) <==> Hit(t, q, i)
  {
    if Hit(t, q, i) {
      var j: nat :| j < |t.hay| && Matches(t, q, j) && i in Chain(t, j);
      forall a | a in Chain(t, i)
        ensures after.row[a] && after.rowOpen[a]
      {
        ChainNests(t, a, i, j);
      }
      assert t.typeOf[j] == t.typeOf[i];
      assert TypeHitBelow(t, q, |t.hay|, t.typeOf[i]);
      if t.sectionOf[t.typeOf[i]].Some? {
        assert SectionHitBelow(t, q, |t.hay|, t.sectionOf[t.typeOf[i]].value);
      }
    } else {
      assert i in Chain(t, i);
    }
  }

  /** What is displayed after any number of queries is what the last one alone decides; what has been
      unfolded along the way stays so. */
  lemma DisplayedByLastQuery(t: Tree, q: string, one: Face, other: Face, a: Face, b: Face)
    requires Rendered(t) && Fits(t, one) && Fits(t, other) && Fits(t, a) && Fits(t, b)
    requires Filtered(t, q, one, a) && Filtered(t, q, other, b)
    ensures a.row == b.row && a.type_ == b.type_ && a.section == b.section
    ensures forall i :: 0 <= i < |t.hay| && one.rowOpen[i] ==> a.rowOpen[i]
  {
    forall i | 0 <= i < |t.hay|
      ensures a.row[i] == b.row[i]
    {
    }
    forall k | 0 <= k < |t.sectionOf|
      ensures a.type_[k] == b.type_[k]
    {
    }
    forall k | 0 <= k < t.sections
      ensures a.section[k] == b.section[k]
    {
    }
  }

  // ---- the three passes ----

  lemma HitStep(t: Tree, q: string, n: nat)
    requires Rendered(t) && n < |t.hay|
    ensures forall k: nat :: HitBelow(t, q, n + 1, k) <==> HitBelow(t, q, n, k) || (Matches(t, q, n) && k in Chain(t, n))
    ensures forall k: nat :: TypeHitBelow(t, q, n + 1, k) <==> TypeHitBelow(t, q, n, k) || (Matches(t, q, n) && t.typeOf[n] == k)
    ensures forall k: nat :: SectionHitBelow(t, q, n + 1, k) <==>
                        SectionHitBelow(t, q, n, k) || (Matches(t, q, n) && t.sectionOf[t.typeOf[n]] == Some(k))
  {
    forall k: nat
      ensures TypeHitBelow(t, q, n + 1, k) <==> TypeHitBelow(t, q, n, k) || (Matches(t, q, n) && t.typeOf[n] == k)
    {
      if TypeHitBelow(t, q, n + 1, k) {
        var j: nat :| j < n + 1 && Matches(t, q, j) && t.typeOf[j] == k;
        assert j < n || j == n;
      }
    }
  }

  lemma TypeShownIffHit(t: Tree, q: string, row: seq<bool>, k: nat)
    requires Rendered(t) && |row| == |t.hay| && k < |t.sectionOf|
    requires forall i :: 0 <= i < |row| ==> (row[i] <==> q == "" || Hit(t, q, i))
    ensures q != "" ==> ((exists i :: 0 <= i < |t.hay| && t.typeOf[i] == k && row[i]) <==> TypeHitBelow(t, q, |t.hay|, k))
  {
    if q != "" && TypeHitBelow(t, q, |t.hay|, k) {
      var j: nat :| j < |t.hay| && Matches(t, q, j) && t.typeOf[j] == k;
      assert j in Chain(t, j) && row[j];
    }
  }

  lemma SectionShownIffHit(t: Tree, q: string, row: seq<bool>, k: nat)
    requires Rendered(t) && |row| == |t.hay| && k < t.sections
    requires forall i :: 0 <= i < |row| ==> (row[i] <==> q == "" || Hit(t, q, i))
    ensures q != "" ==>
              ((exists i :: 0 <= i < |t.hay| && t.sectionOf[t.typeOf[i]] == Some(k) && row[i]) <==> SectionHitBelow(t, q, |t.hay|, k))
  {
    if q != "" && SectionHitBelow(t, q, |t.hay|, k) {
      var j: nat :| j < |t.hay| && Matches(t, q, j) && t.sectionOf[t.typeOf[j]] == Some(k);
      assert j in Chain(t, j) && row[j];
    }
  }

  class Sidebar {
    const tree: Tree
    var row: seq<bool>
    var rowOpen: seq<bool>
    var type_: seq<bool>
    var typeOpen: seq<bool>
    var section: seq<bool>
    var sectionOpen: seq<bool>

    function State(): Face
      reads this
    {
      Face(row, rowOpen, type_, typeOpen, section, sectionOpen)
    }

    ghost predicate Valid()
      reads this
    {
      Rendered(tree) && Fits(tree, State())
    }

    constructor (t: Tree, face: Face)
      requires Rendered(t) && Fits(t, face)
      ensures Valid() && tree == t && State() == face
    {
      tree := t;
      row, rowOpen, type_, typeOpen, section, sectionOpen :=
        face.row, face.rowOpen, face.type_, face.typeOpen, face.section, face.sectionOpen;
    }

    /** Each row by its own text. */
    method ShowMatches(q: string)
      requires Valid()
      modifies `row
      ensures Valid()
      ensures forall i :: 0 <= i < |row| ==> (row[i] <==> q == "" || Matches(tree, q, i))
    {
      for i := 0 to |tree.hay|
        invariant |row| == |tree.hay|
        invariant forall k :: 0 <= k < i ==> (row[k] <==> q == "" || Matches(tree, q, k))
      {
        row := row[i := q == "" || Matches(tree, q, i)];
      }
    }

    /** From a matching row up: everything it is nested in is displayed and unfolded. */
    method Climb(from: nat)
      requires Valid() && from < |tree.hay|
      modifies `row, `rowOpen
      ensures Valid()
      ensures forall k :: 0 <= k < |row| ==> (row[k] <==> old(row)[k] || k in Chain(tree, from))
      ensures forall k :: 0 <= k < |row| ==> (rowOpen[k] <==> old(rowOpen)[k] || k in Chain(tree, from))
    {
      var at: Option<nat> := Some(from);
      while at.Some?
        invariant |row| == |rowOpen| == |tree.hay|
        invariant at.Some? ==> at.value < |tree.hay|
        invariant Above(tree, at) <= Chain(tree, from)
        invariant forall k :: 0 <= k < |row| ==> (row[k] <==> old(row)[k] || k in Chain(tree, from) - Above(tree, at))
        invariant forall k :: 0 <= k < |row| ==> (rowOpen[k] <==> old(rowOpen)[k] || k in Chain(tree, from) - Above(tree, at))
        decreases if at.Some? then at.value + 1 else 0
      {
        row, rowOpen := row[at.value := true], rowOpen[at.value := true];
        at := tree.parent[at.value];
      }
    }

    /** Every matching row is climbed from, and its type and its section unfolded. */
    method ShowAncestors(q: string)
      requires Valid()
      requires forall i :: 0 <= i < |row| ==> (row[i] <==> Matches(tree, q, i))
      modifies `row, `rowOpen, `typeOpen, `sectionOpen
      ensures Valid()
      ensures forall k :: 0 <= k < |row| ==> (row[k] <==> Hit(tree, q, k))
      ensures forall k :: 0 <= k < |row| ==> (rowOpen[k] <==> old(rowOpen)[k] || Hit(tree, q, k))
      ensures forall k :: 0 <= k < |typeOpen| ==> (typeOpen[k] <==> old(typeOpen)[k] || TypeHitBelow(tree, q, |tree.hay|, k))
      ensures forall k :: 0 <= k < |sectionOpen| ==>
                (sectionOpen[k] <==> old(sectionOpen)[k] || SectionHitBelow(tree, q, |tree.hay|, k))
    {
      for i := 0 to |tree.hay|
        invariant Valid()
        invariant forall k :: 0 <= k < |row| ==> (row[k] <==> Matches(tree, q, k) || HitBelow(tree, q, i, k))
        invariant forall k :: 0 <= k < |row| ==> (rowOpen[k] <==> old(rowOpen)[k] || HitBelow(tree, q, i, k))
        invariant forall k :: 0 <= k < |typeOpen| ==> (typeOpen[k] <==> old(typeOpen)[k] || TypeHitBelow(tree, q, i, k))
        invariant forall k :: 0 <= k < |sectionOpen| ==>
                    (sectionOpen[k] <==> old(sectionOpen)[k] || SectionHitBelow(tree, q, i, k))
      {
        HitStep(tree, q, i);
        if Matches(tree, q, i) {
          Climb(i);
          var k := tree.typeOf[i];
          typeOpen := typeOpen[k := true];
          if tree.sectionOf[k].Some? {
            sectionOpen := sectionOpen[tree.sectionOf[k].value := true];
          }
        }
      }
      forall k: nat | k < |row|
        ensures Matches(tree, q, k) ==> Hit(tree, q, k)
      {
        assert k in Chain(tree, k);
      }
    }

    method HideEmptyTypes(q: string)
      requires Valid()
      requires forall k :: 0 <= k < |row| ==> (row[k] <==> q == "" || Hit(tree, q, k))
      modifies `type_
      ensures Valid()
      ensures forall k :: 0 <= k < |type_| ==> (type_[k] <==> q == "" || TypeHitBelow(tree, q, |tree.hay|, k))
    {
      for k := 0 to |type_|
        invariant |type_| == |tree.sectionOf|
        invariant forall l :: 0 <= l < k ==> (type_[l] <==> q == "" || TypeHitBelow(tree, q, |tree.hay|, l))
      {
        var shown := exists i :: 0 <= i < |tree.hay| && tree.typeOf[i] == k && row[i];
        TypeShownIffHit(tree, q, row, k);
        type_ := type_[k := q == "" || shown];
      }
    }

    method HideEmptySections(q: string)
      requires Valid()
      requires forall k :: 0 <= k < |row| ==> (row[k] <==> q == "" || Hit(tree, q, k))
      modifies `section
      ensures Valid()
      ensures forall k :: 0 <= k < |section| ==> (section[k] <==> q == "" || SectionHitBelow(tree, q, |tree.hay|, k))
    {
      for k := 0 to |section|
        invariant |section| == tree.sections
        invariant forall l :: 0 <= l < k ==> (section[l] <==> q == "" || SectionHitBelow(tree, q, |tree.hay|, l))
      {
        var shown := exists i :: 0 <= i < |tree.hay| && tree.sectionOf[tree.typeOf[i]] == Some(k) && row[i];
        SectionShownIffHit(tree, q, row, k);
        section := section[k := q == "" || shown];
      }
    }

    method ApplyFilter(q: string)
      requires Valid()
      modifies this
      ensures Valid() && Filtered(tree, q, old(State()), State())
      ensures q != "" ==> forall i, p :: 0 <= i < |tree.hay| && row[i] && tree.parent[i] == Some(p) ==> row[p] && rowOpen[p]
    {
      ghost var before := State();
      ShowMatches(q);
      if q != "" {
        ShowAncestors(q);
      }
      HideEmptyTypes(q);
      HideEmptySections(q);
      if q != "" {
        forall i, p | 0 <= i < |tree.hay| && row[i] && tree.parent[i] == Some(p)
          ensures row[p] && rowOpen[p]
        {
          ParentShown(tree, q, before, State(), i, p);
        }
      }
    }
  }
}
