/** The evidence trace rail: a symmetric index built from a report, a run trace and a funnel, and the
    walk that lights everything connected to the selection. */
module TraceRail {
  import opened Domain

  /** A node. The printed key `kind:id` determines the target, since no kind contains a colon. */
  datatype Target =
    | ClaimNode(id: string)
    | EvidenceNode(id: string)
    | ToolNode(id: string)
    | HypothesisNode(id: string)
    | StageNode(id: string)

  datatype ClaimRow = ClaimRow(id: string, evidenceCodes: seq<string>)
  datatype EvidenceRow = EvidenceRow(code: string, toolExecutionId: string, stage: Option<string>)
  datatype ToolRow = ToolRow(id: string, callId: string, name: string)
  datatype HypothesisRow = HypothesisRow(
    id: string, supporting: seq<string>, conflicting: seq<string>, requiredNextTool: Option<string>)
  datatype Trace = Trace(evidence: seq<EvidenceRow>, tools: seq<ToolRow>, hypotheses: seq<HypothesisRow>)

  type Adjacency = map<Target, set<Target>>
  type Edge = (Target, Target)

  function Neighbours(adj: Adjacency, a: Target): set<Target> {
    if a in adj then adj[a] else {}
  }

  ghost predicate Symmetric(adj: Adjacency) {
    forall a, b :: b in Neighbours(adj, a) ==> a in Neighbours(adj, b)
  }

  // ----- Lookups the builder uses --------------------------------------------------------------

  /** `new Map(rows)` keeps the last row of a key. */
  function LastByCode(rows: seq<EvidenceRow>, code: string): Option<EvidenceRow> {
    if rows == [] then None
    else if rows[|rows| - 1].code == code then Some(rows[|rows| - 1])
    else LastByCode(rows[..|rows| - 1], code)
  }

  function LastToolById(rows: seq<ToolRow>, id: string): Option<ToolRow> {
    if rows == [] then None
    else if rows[|rows| - 1].id == id then Some(rows[|rows| - 1])
    else LastToolById(rows[..|rows| - 1], id)
  }

  /** `rows.find(...)` returns the first match. */
  function FirstByCode(rows: seq<EvidenceRow>, code: string): Option<EvidenceRow> {
    if rows == [] then None else if rows[0].code == code then Some(rows[0]) else FirstByCode(rows[1..], code)
  }

  function FirstToolByName(rows: seq<ToolRow>, name: string): Option<ToolRow> {
    if rows == [] then None else if rows[0].name == name then Some(rows[0]) else FirstToolByName(rows[1..], name)
  }

  /** The stages the first `n` codes' records report, without repeats, in order of appearance. */
  function StagesOf(codes: seq<string>, rows: seq<EvidenceRow>, n: nat): (stages: seq<string>)
    requires n <= |codes|
    ensures forall s :: s in stages <==> exists i :: 0 <= i < n && StageOfCode(rows, codes[i]) == Some(s)
  {
    if n == 0 then []
    else
      var before := StagesOf(codes, rows, n - 1);
      var stage := StageOfCode(rows, codes[n - 1]);
      if stage.Some? && stage.value !in before then before + [stage.value] else before
  }

  function StageOfCode(rows: seq<EvidenceRow>, code: string): Option<string> {
    match FirstByCode(rows, code)
    case Some(row) => row.stage
    case None => None
  }

  function ToolOfCode(t: Trace, code: string): Option<ToolRow> {
    match LastByCode(t.evidence, code)
    case Some(row) => LastToolById(t.tools, row.toolExecutionId)
    case None => None
  }

  // ----- The edges a trace stands for ------------------------------------------------------------

  /** A citing claim is tied to the code, to the call that produced it and to the stage it reports. */
  predicate ClaimEdge(t: Trace, claim: ClaimRow, a: Target, b: Target) {
    && a == ClaimNode(claim.id)
    && (Cites(t, claim, b) || ReportsStage(t, claim, b))
  }

  predicate Cites(t: Trace, claim: ClaimRow, b: Target) {
    exists code :: code in claim.evidenceCodes && CitationTie(t, code, b)
  }

  predicate ReportsStage(t: Trace, claim: ClaimRow, b: Target) {
    b.StageNode? && exists code :: code in claim.evidenceCodes && StageOfCode(t.evidence, code) == Some(b.id)
  }

  predicate CitationTie(t: Trace, code: string, b: Target) {
    || b == EvidenceNode(code)
    || (ToolOfCode(t, code).Some? && b == ToolNode(ToolOfCode(t, code).value.callId))
  }

  /** A hypothesis is tied to the evidence gathered for and against it and to the call of its probe. */
  predicate HypothesisEdge(t: Trace, h: HypothesisRow, a: Target, b: Target) {
    && a == HypothesisNode(h.id)
    && ((b.EvidenceNode? && (b.id in h.supporting || b.id in h.conflicting))
        || (h.requiredNextTool.Some? && FirstToolByName(t.tools, h.requiredNextTool.value).Some?
            && b == ToolNode(FirstToolByName(t.tools, h.requiredNextTool.value).value.callId)))
  }

  ghost predicate TraceEdge(claims: seq<ClaimRow>, t: Trace, a: Target, b: Target) {
    || (exists claim :: claim in claims && ClaimEdge(t, claim, a, b))
    || (exists h :: h in t.hypotheses && HypothesisEdge(t, h, a, b))
  }

  /** The last evidence row with a code. */
  predicate LastRowOf(rows: seq<EvidenceRow>, code: string, i: int) {
    0 <= i < |rows| && rows[i].code == code && forall j :: i < j < |rows| ==> rows[j].code != code
  }

  /** The first evidence row with a code. */
  predicate FirstRowOf(rows: seq<EvidenceRow>, code: string, i: int) {
    0 <= i < |rows| && rows[i].code == code && forall j :: 0 <= j < i ==> rows[j].code != code
  }

  predicate LastToolOf(rows: seq<ToolRow>, id: string, i: int) {
    0 <= i < |rows| && rows[i].id == id && forall j :: i < j < |rows| ==> rows[j].id != id
  }

  predicate FirstToolNamed(rows: seq<ToolRow>, name: string, i: int) {
    0 <= i < |rows| && rows[i].name == name && forall j :: 0 <= j < i ==> rows[j].name != name
  }

  lemma {:induction false} LastRowIsFound(rows: seq<EvidenceRow>, code: string) returns (i: int)
    ensures LastByCode(rows, code).Some? ==> LastRowOf(rows, code, i) && rows[i] == LastByCode(rows, code).value
    ensures LastByCode(rows, code).None? ==> forall j :: 0 <= j < |rows| ==> rows[j].code != code
  {
    i := |rows| - 1;
    if rows != [] && rows[i].code != code {
      i := LastRowIsFound(rows[..|rows| - 1], code);
    }
  }

  lemma {:induction false} FirstRowIsFound(rows: seq<EvidenceRow>, code: string) returns (i: int)
    ensures FirstByCode(rows, code).Some? ==> FirstRowOf(rows, code, i) && rows[i] == FirstByCode(rows, code).value
    ensures FirstByCode(rows, code).None? ==> forall j :: 0 <= j < |rows| ==> rows[j].code != code
  {
    i := 0;
    if rows != [] && rows[0].code != code {
      var k := FirstRowIsFound(rows[1..], code);
      i := k + 1;
    }
  }

  lemma {:induction false} LastToolIsFound(rows: seq<ToolRow>, id: string) returns (i: int)
    ensures LastToolById(rows, id).Some? ==> LastToolOf(rows, id, i) && rows[i] == LastToolById(rows, id).value
    ensures LastToolById(rows, id).None? ==> forall j :: 0 <= j < |rows| ==> rows[j].id != id
  {
    i := |rows| - 1;
    if rows != [] && rows[i].id != id {
      i := LastToolIsFound(rows[..|rows| - 1], id);
    }
  }

  lemma {:induction false} FirstToolIsFound(rows: seq<ToolRow>, name: string) returns (i: int)
    ensures FirstToolByName(rows, name).Some? ==>
              FirstToolNamed(rows, name, i) && rows[i] == FirstToolByName(rows, name).value
    ensures FirstToolByName(rows, name).None? ==> forall j :: 0 <= j < |rows| ==> rows[j].name != name
  {
    i := 0;
    if rows != [] && rows[0].name != name {
      var k := FirstToolIsFound(rows[1..], name);
      i := k + 1;
    }
  }

  /** The call whose row is the last with the execution id on the last evidence row of a code. */
  ghost predicate TiedToCall(t: Trace, code: string, b: Target) {
    exists i, k ::
      LastRowOf(t.evidence, code, i) && LastToolOf(t.tools, t.evidence[i].toolExecutionId, k)
      && b == ToolNode(t.tools[k].callId)
  }

  /** The stage on the first evidence row of a code. */
  ghost predicate TiedToStage(t: Trace, code: string, b: Target) {
    exists i :: FirstRowOf(t.evidence, code, i) && b.StageNode? && t.evidence[i].stage == Some(b.id)
  }

  ghost predicate TiedTo(t: Trace, code: string, b: Target) {
    b == EvidenceNode(code) || TiedToCall(t, code, b) || TiedToStage(t, code, b)
  }

  /** A claim's neighbours, in rows of the trace: each code it cites, and its call and stage. */
  lemma ClaimEdgesExactly(t: Trace, claim: ClaimRow, a: Target, b: Target)
    ensures ClaimEdge(t, claim, a, b) <==>
            a == ClaimNode(claim.id) && exists code :: code in claim.evidenceCodes && TiedTo(t, code, b)
  {
    forall code ensures TiedTo(t, code, b) <==>
                        CitationTie(t, code, b) || (b.StageNode? && StageOfCode(t.evidence, code) == Some(b.id))
    {
      ToolTieExactly(t, code, b);
      StageTieExactly(t, code, b);
    }
    if Cites(t, claim, b) {
      var code :| code in claim.evidenceCodes && CitationTie(t, code, b);
      assert TiedTo(t, code, b);
    }
    if ReportsStage(t, claim, b) {
      var code :| code in claim.evidenceCodes && StageOfCode(t.evidence, code) == Some(b.id);
      assert TiedTo(t, code, b);
    }
  }

  lemma ToolTieExactly(t: Trace, code: string, b: Target)
    ensures (ToolOfCode(t, code).Some? && b == ToolNode(ToolOfCode(t, code).value.callId)) <==> TiedToCall(t, code, b)
  {
    var i := LastRowIsFound(t.evidence, code);
    if LastByCode(t.evidence, code).Some? {
      var k := LastToolIsFound(t.tools, t.evidence[i].toolExecutionId);
    }
  }

  lemma StageTieExactly(t: Trace, code: string, b: Target)
    ensures (b.StageNode? && StageOfCode(t.evidence, code) == Some(b.id)) <==> TiedToStage(t, code, b)
  {
    var i := FirstRowIsFound(t.evidence, code);
  }

  /** A hypothesis' neighbours: the codes for and against it, and the first call of the tool it waits for. */
  lemma HypothesisEdgesExactly(t: Trace, h: HypothesisRow, a: Target, b: Target)
    ensures HypothesisEdge(t, h, a, b) <==>
              a == HypothesisNode(h.id) &&
              (|| (exists code :: (code in h.supporting || code in h.conflicting) && b == EvidenceNode(code))
               || (exists name, k :: h.requiredNextTool == Some(name) && FirstToolNamed(t.tools, name, k)
                     && b == ToolNode(t.tools[k].callId)))
  {
    if h.requiredNextTool.Some? {
      var k := FirstToolIsFound(t.tools, h.requiredNextTool.value);
    }
  }

  // ----- Building the index ------------------------------------------------------------------------

  ghost predicate Represents(adj: Adjacency, edges: set<Edge>) {
    forall a, b :: b in Neighbours(adj, a) <==> (a, b) in edges || (b, a) in edges
  }

  function WithNode(adj: Adjacency, a: Target): (adj': Adjacency)
    ensures a in adj' && adj'.Keys == adj.Keys + {a}
    ensures forall x, y :: y in Neighbours(adj', x) <==> y in Neighbours(adj, x)
  {
    if a in adj then adj else adj[a := {}]
  }

  function WithNeighbour(adj: Adjacency, a: Target, b: Target): (adj': Adjacency)
    requires a in adj
    ensures adj'.Keys == adj.Keys
    ensures forall x, y :: y in Neighbours(adj', x) <==> y in Neighbours(adj, x) || (x == a && y == b)
  {
    adj[a := adj[a] + {b}]
  }

  function Linked(adj: Adjacency, a: Target, b: Target): (adj': Adjacency)
    ensures adj'.Keys == adj.Keys + {a, b}
    ensures forall x, y :: y in Neighbours(adj', x) <==>
              y in Neighbours(adj, x) || (x == a && y == b) || (x == b && y == a)
  {
    WithNeighbour(WithNeighbour(WithNode(WithNode(adj, a), b), a, b), b, a)
  }

  class Index {
    var adj: Adjacency
    ghost var edges: set<Edge>  // every pair `link` was called with

    ghost predicate Valid()
      reads this
    {
      Represents(adj, edges)
    }

    constructor ()
      ensures Valid() && adj == map[] && edges == {}
    {
      adj, edges := map[], {};
    }

    method Link(a: Target, b: Target)
      requires Valid()
      modifies this
      ensures Valid() && edges == old(edges) + {(a, b)}
    {
      adj := Linked(adj, a, b);
      edges := edges + {(a, b)};
    }

    /** A node may exist without an edge. */
    method AddNode(a: Target)
      requires Valid()
      modifies this`adj
      ensures Valid() && adj.Keys == old(adj.Keys) + {a}
    {
      adj := WithNode(adj, a);
    }
  }

  method LinkClaim(index: Index, t: Trace, claim: ClaimRow)
    requires index.Valid()
    modifies index
    ensures index.Valid()
    ensures forall e :: e in index.edges <==> e in old(index.edges) || ClaimEdge(t, claim, e.0, e.1)
  {
    LinkCitations(index, t, claim);
    LinkStages(index, t, claim);
  }

  method LinkCitations(index: Index, t: Trace, claim: ClaimRow)
    requires index.Valid()
    modifies index
    ensures index.Valid()
    ensures forall e :: e in index.edges <==>
              (e in old(index.edges) || (e.0 == ClaimNode(claim.id) && Cites(t, claim, e.1)))
  {
    var key := ClaimNode(claim.id);
    var codes := claim.evidenceCodes;
    for j := 0 to |codes|
      invariant index.Valid()
      invariant forall e :: e in index.edges <==>
                  e in old(index.edges) || (e.0 == key && exists i :: 0 <= i < j && CitationTie(t, codes[i], e.1))
    {
      LinkCitation(index, t, key, codes[j]);
    }
    forall b | Cites(t, claim, b) ensures (key, b) in index.edges {
      var code :| code in codes && CitationTie(t, code, b);
      var i :| 0 <= i < |codes| && codes[i] == code;
    }
  }

  method LinkCitation(index: Index, t: Trace, key: Target, code: string)
    requires index.Valid()
    modifies index
    ensures index.Valid()
    ensures forall e :: e in index.edges <==> (e in old(index.edges) || (e.0 == key && CitationTie(t, code, e.1)))
  {
    index.Link(key, EvidenceNode(code));
    var tool := ToolOfCode(t, code);
    if tool.Some? {
      index.Link(key, ToolNode(tool.value.callId));
    }
  }

  method LinkStages(index: Index, t: Trace, claim: ClaimRow)
    requires index.Valid()
    modifies index
    ensures index.Valid()
    ensures forall e :: e in index.edges <==>
              (e in old(index.edges) || (e.0 == ClaimNode(claim.id) && ReportsStage(t, claim, e.1)))
  {
    var key := ClaimNode(claim.id);
    var codes := claim.evidenceCodes;
    var stages := CollectStages(codes, t.evidence);
    for j := 0 to |stages|
      invariant index.Valid()
      invariant forall e :: e in index.edges <==>
                  e in old(index.edges) || (e.0 == key && e.1.StageNode? && e.1.id in stages[..j])
    {
      assert stages[..j + 1] == stages[..j] + [stages[j]];
      index.Link(key, StageNode(stages[j]));
    }
    assert stages[..|stages|] == stages;
  }

  method CollectStages(codes: seq<string>, rows: seq<EvidenceRow>) returns (stages: seq<string>)
    ensures forall s :: s in stages <==> exists code :: code in codes && StageOfCode(rows, code) == Some(s)
  {
    stages := [];
    for i := 0 to |codes|
      invariant stages == StagesOf(codes, rows, i)
    {
      var stage := StageOfCode(rows, codes[i]);
      if stage.Some? && stage.value !in stages {
        stages := stages + [stage.value];
      }
    }
    forall s | exists code :: code in codes && StageOfCode(rows, code) == Some(s) ensures s in stages {
      var code :| code in codes && StageOfCode(rows, code) == Some(s);
      var i :| 0 <= i < |codes| && codes[i] == code;
    }
  }

  method LinkHypothesis(index: Index, t: Trace, h: HypothesisRow)
    requires index.Valid()
    modifies index
    ensures index.Valid()
    ensures forall e :: e in index.edges <==> e in old(index.edges) || HypothesisEdge(t, h, e.0, e.1)
  {
    var key := HypothesisNode(h.id);
    var codes := h.supporting + h.conflicting;
    for j := 0 to |codes|
      invariant index.Valid()
      invariant forall e :: e in index.edges <==>
                  e in old(index.edges) || (e.0 == key && e.1.EvidenceNode? && e.1.id in codes[..j])
    {
      assert codes[..j + 1] == codes[..j] + [codes[j]];
      index.Link(key, EvidenceNode(codes[j]));
    }
    assert codes[..|codes|] == codes;
    if h.requiredNextTool.Some? {
      var tool := FirstToolByName(t.tools, h.requiredNextTool.value);
      if tool.Some? {
        index.Link(key, ToolNode(tool.value.callId));
      }
    }
  }

  /** Without a trace the index is empty. Otherwise it holds exactly the edges of the claims and the
      hypotheses, in both directions, and a node for every funnel stage. */
  method BuildIndex(claims: seq<ClaimRow>, trace: Option<Trace>, funnelStages: seq<string>) returns (index: Index)
    ensures fresh(index) && index.Valid()
    ensures trace.None? ==> index.adj == map[]
    ensures trace.Some? ==> forall e :: e in index.edges <==> TraceEdge(claims, trace.value, e.0, e.1)
    ensures trace.Some? ==> forall s :: s in funnelStages ==> StageNode(s) in index.adj
  {
    index := new Index();
    if trace.None? {
      return;
    }
    var t := trace.value;
    for i := 0 to |claims|
      invariant fresh(index) && index.Valid()
      invariant forall e :: e in index.edges <==> exists j :: 0 <= j < i && ClaimEdge(t, claims[j], e.0, e.1)
    {
      LinkClaim(index, t, claims[i]);
    }
    ghost var claimEdges := index.edges;
    for i := 0 to |t.hypotheses|
      invariant fresh(index) && index.Valid()
      invariant forall e :: e in index.edges <==>
                  e in claimEdges || exists j :: 0 <= j < i && HypothesisEdge(t, t.hypotheses[j], e.0, e.1)
    {
      LinkHypothesis(index, t, t.hypotheses[i]);
    }
    ghost var built := index.edges;
    for i := 0 to |funnelStages|
      invariant fresh(index) && index.Valid() && index.edges == built
      invariant forall j :: 0 <= j < i ==> StageNode(funnelStages[j]) in index.adj
    {
      index.AddNode(StageNode(funnelStages[i]));
    }
  }

  lemma RepresentedIsSymmetric(adj: Adjacency, edges: set<Edge>)
    requires Represents(adj, edges)
    ensures Symmetric(adj)
  {
  }

  // ----- Reachability --------------------------------------------------------------------------------

  ghost predicate IsPath(adj: Adjacency, p: seq<Target>, a: Target, b: Target) {
    && p != [] && p[0] == a && p[|p| - 1] == b
    && forall i :: 0 <= i < |p| - 1 ==> p[i + 1] in Neighbours(adj, p[i])
  }

  ghost predicate Reachable(adj: Adjacency, a: Target, b: Target) {
    exists p :: IsPath(adj, p, a, b)
  }

  lemma ReachableSelf(adj: Adjacency, a: Target)
    ensures Reachable(adj, a, a)
  {
    assert IsPath(adj, [a], a, a);
  }

  lemma ReachableStep(adj: Adjacency, a: Target, b: Target, c: Target)
    requires Reachable(adj, a, b) && c in Neighbours(adj, b)
    ensures Reachable(adj, a, c)
  {
    var p :| IsPath(adj, p, a, b);
    assert IsPath(adj, p + [c], a, c);
  }

  lemma ReachableTransitive(adj: Adjacency, a: Target, b: Target, c: Target)
    requires Reachable(adj, a, b) && Reachable(adj, b, c)
    ensures Reachable(adj, a, c)
  {
    var p :| IsPath(adj, p, a, b);
    var q :| IsPath(adj, q, b, c);
    var r := p + q[1..];
    forall i | 0 <= i < |r| - 1 ensures r[i + 1] in Neighbours(adj, r[i]) {
      if i >= |p| - 1 {
        assert r[i] == q[i - |p| + 1] && r[i + 1] == q[i - |p| + 2];
      }
    }
    assert IsPath(adj, r, a, c);
  }

  lemma ReachableSymmetric(adj: Adjacency, a: Target, b: Target)
    requires Symmetric(adj) && Reachable(adj, a, b)
    ensures Reachable(adj, b, a)
  {
    var p :| IsPath(adj, p, a, b);
    var r := seq(|p|, i requires 0 <= i < |p| => p[|p| - 1 - i]);
    forall i | 0 <= i < |r| - 1 ensures r[i + 1] in Neighbours(adj, r[i]) {
      var j := |p| - 2 - i;
      assert r[i + 1] == p[j] && r[i] == p[j + 1];
    }
    assert IsPath(adj, r, b, a);
  }

  /** A set closed under neighbours contains everything reachable from its members. */
  lemma {:induction false} ClosedContainsPath(adj: Adjacency, s: set<Target>, p: seq<Target>, a: Target, b: Target)
    requires IsPath(adj, p, a, b) && a in s
    requires forall x :: x in s ==> Neighbours(adj, x) <= s
    ensures b in s
    decreases |p|
  {
    if |p| > 1 {
      forall i | 0 <= i < |p[1..]| - 1 ensures p[1..][i + 1] in Neighbours(adj, p[1..][i]) {
        assert p[1..][i] == p[i + 1] && p[1..][i + 1] == p[i + 2];
      }
      assert p[0 + 1] in Neighbours(adj, p[0]);
      ClosedContainsPath(adj, s, p[1..], p[1], b);
    }
  }

  // ----- The walk --------------------------------------------------------------------------------------

  ghost function Universe(adj: Adjacency, start: Target): set<Target> {
    {start} + adj.Keys + set a, b | a in adj && b in adj[a] :: b
  }

  /** The walk from the selection: it terminates, and lights exactly what is reachable. */
  method Light(adj: Adjacency, start: Target) returns (seen: set<Target>)
    ensures forall b :: b in seen <==> Reachable(adj, start, b)
  {
    seen := {start};
    var queue := [start];
    ReachableSelf(adj, start);
    while queue != []
      invariant start in seen && seen <= Universe(adj, start)
      invariant forall x :: x in queue ==> x in seen
      invariant forall x :: x in seen ==> Reachable(adj, start, x)
      invariant forall x :: x in seen && x !in queue ==> Neighbours(adj, x) <= seen
      decreases Universe(adj, start) - seen, |queue|
    {
      var current := queue[0];
      ghost var seenBefore, queueBefore := seen, queue;
      queue := queue[1..];
      var pending := Neighbours(adj, current);
      while pending != {}
        invariant pending <= Neighbours(adj, current)
        invariant seenBefore <= seen <= Universe(adj, start)
        invariant forall x :: x in queue ==> x in seen
        invariant forall x :: x in queueBefore[1..] ==> x in queue
        invariant forall x :: x in seen && x !in seenBefore ==> x in queue
        invariant forall x :: x in seen ==> Reachable(adj, start, x)
        invariant Neighbours(adj, current) - pending <= seen
        invariant seen == seenBefore ==> queue == queueBefore[1..]
        decreases pending
      {
        var neighbour :| neighbour in pending;
        pending := pending - {neighbour};
        if neighbour !in seen {
          ReachableStep(adj, start, current, neighbour);
          seen := seen + {neighbour};
          queue := queue + [neighbour];
        }
      }
      assert forall x :: x in queueBefore ==> x == current || x in queueBefore[1..];
      if seen != seenBefore {
        assert Universe(adj, start) - seen < Universe(adj, start) - seenBefore;
      }
    }
    forall b | Reachable(adj, start, b) ensures b in seen {
      var p :| IsPath(adj, p, start, b);
      ClosedContainsPath(adj, seen, p, start, b);
    }
  }

  /** "A lights B" is an equivalence relation on the index of any report, trace and funnel. */
  lemma LightingIsEquivalence(adj: Adjacency, edges: set<Edge>, a: Target, b: Target, c: Target)
    requires Represents(adj, edges)
    ensures Reachable(adj, a, a)
    ensures Reachable(adj, a, b) <==> Reachable(adj, b, a)
    ensures Reachable(adj, a, b) && Reachable(adj, b, c) ==> Reachable(adj, a, c)
  {
    ReachableSelf(adj, a);
    RepresentedIsSymmetric(adj, edges);
    if Reachable(adj, a, b) {
      ReachableSymmetric(adj, a, b);
      if Reachable(adj, b, c) {
        ReachableTransitive(adj, a, b, c);
      }
    }
    if Reachable(adj, b, a) {
      ReachableSymmetric(adj, b, a);
    }
  }
}
