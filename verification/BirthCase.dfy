/** The post-birth template: six services in a row, as a case template and as a graph. */
module BirthCase {
  import opened Wrappers
  import opened StateMachine
  import opened LifeEventGraph
  import opened CaseModel
  import opened CaseServices
  import opened CaseRuns
  import opened CaseInvariants
  import opened CaseSteps
  import opened CaseTheorems
  import opened CasePolicy

  /** A row of the template: the node's columns and the positions of the steps it depends on. */
  datatype TemplateRow = TemplateRow(spec: NodeSpec, dependsOn: seq<nat>)

  const ROWS: seq<TemplateRow> := [
    TemplateRow(NodeSpec("BIRTH_CERTIFICATE", EntityFiling,
                         ["HOSPITAL_BIRTH_NOTIFICATION", "ATTESTED_MARRIAGE_CERTIFICATE", "FATHER_PASSPORT",
                          "MOTHER_PASSPORT", "FATHER_EMIRATES_ID", "MOTHER_EMIRATES_ID"],
                         ["BIRTH_CERTIFICATE"], Cleared, 120), []),
    TemplateRow(NodeSpec("MOFA_ATTESTATION", EntityFiling, ["BIRTH_CERTIFICATE"], ["ATTESTED_BIRTH_CERTIFICATE"],
                         Cleared, 72), [0]),
    TemplateRow(NodeSpec("CONSULATE_PASSPORT", ParentReported,
                         ["ATTESTED_BIRTH_CERTIFICATE", "FATHER_PASSPORT", "MOTHER_PASSPORT"], [], Completed, 0), [1]),
    TemplateRow(NodeSpec("RESIDENCE_VISA", EntityFiling,
                         ["CHILD_PASSPORT", "ATTESTED_BIRTH_CERTIFICATE", "SPONSOR_RESIDENCE_VISA", "CHILD_PHOTO"],
                         ["CHILD_RESIDENCE_VISA"], Cleared, 240), [2]),
    TemplateRow(NodeSpec("EMIRATES_ID", EntityFiling, ["CHILD_PASSPORT", "CHILD_RESIDENCE_VISA"],
                         ["CHILD_EMIRATES_ID"], Completed, 360), [3]),
    TemplateRow(NodeSpec("INSURANCE", EntityFiling, ["CHILD_EMIRATES_ID", "CHILD_RESIDENCE_VISA"],
                         ["INSURANCE_ENDORSEMENT"], Completed, 72), [4])]

  const DOCUMENTS: set<DocType> := {
    "HOSPITAL_BIRTH_NOTIFICATION", "ATTESTED_MARRIAGE_CERTIFICATE", "FATHER_PASSPORT", "MOTHER_PASSPORT",
    "FATHER_EMIRATES_ID", "MOTHER_EMIRATES_ID", "SPONSOR_RESIDENCE_VISA", "CHILD_PHOTO", "BIRTH_CERTIFICATE",
    "ATTESTED_BIRTH_CERTIFICATE", "CHILD_PASSPORT", "CHILD_RESIDENCE_VISA", "CHILD_EMIRATES_ID",
    "INSURANCE_ENDORSEMENT"}

  /** One edge from every step a row depends on, row by row. */
  function EdgesInto(dependsOn: seq<nat>, i: nat): (edges: seq<Edge>)
    ensures forall e :: e in edges <==> e.1 == i && e.0 in dependsOn
  {
    if dependsOn == [] then [] else [(dependsOn[0], i)] + EdgesInto(dependsOn[1..], i)
  }

  function EdgesOf(rows: seq<TemplateRow>): (edges: seq<Edge>)
    ensures forall e :: e in edges <==> e.1 < |rows| && e.0 in rows[e.1].dependsOn
  {
    if rows == [] then []
    else EdgesOf(rows[..|rows| - 1]) + EdgesInto(rows[|rows| - 1].dependsOn, |rows| - 1)
  }

  /** A case as an intake opens it; a marriage certificate said not to be attested is missing from the start. */
  function Birth(marriageAttested: bool): (t: Template)
    ensures TemplateOk(t) && |t.specs| == 6
  {
    Template(seq(|ROWS|, i requires 0 <= i < |ROWS| => ROWS[i].spec), EdgesOf(ROWS), Some(2), DOCUMENTS,
             if marriageAttested then {} else {"ATTESTED_MARRIAGE_CERTIFICATE"})
  }

  /** The template's edges are those of a chain of six. */
  lemma BirthIsAChain()
    ensures forall e :: e in EdgesOf(ROWS) <==> e in Chain(6)
  {
    hide EdgesOf, Chain, ROWS;
    EachAwaitsTheOneBefore();
    forall e: Edge ensures e in EdgesOf(ROWS) <==> e in Chain(6) {
      assert e in EdgesOf(ROWS) <==> e.1 < 6 && e.0 in ROWS[e.1].dependsOn;
    }
  }

  lemma EachAwaitsTheOneBefore()
    ensures |ROWS| == 6 && forall i: nat, k: nat :: i < 6 ==> (k in ROWS[i].dependsOn <==> k + 1 == i)
  {
    assert ROWS[0].dependsOn == [] && ROWS[1].dependsOn == [0] && ROWS[2].dependsOn == [1];
    assert ROWS[3].dependsOn == [2] && ROWS[4].dependsOn == [3] && ROWS[5].dependsOn == [4];
  }

  lemma SubgraphReaches(edges: seq<Edge>, more: seq<Edge>, u: nat, v: nat)
    requires (forall e :: e in edges ==> e in more) && Reaches(edges, u, v)
    ensures Reaches(more, u, v)
  {
    var p :| Connects(edges, u, v, p);
    assert Connects(more, u, v, p);
  }

  lemma BirthIsAcyclic()
    ensures Acyclic(EdgesOf(ROWS))
  {
    BirthIsAChain();
    ChainIsAcyclic(6);
    forall v ensures !Reaches(EdgesOf(ROWS), v, v) {
      if Reaches(EdgesOf(ROWS), v, v) { SubgraphReaches(EdgesOf(ROWS), Chain(6), v, v); }
    }
  }

  lemma BirthReaches(u: nat, v: nat)
    requires u < v < 6
    ensures Reaches(EdgesOf(ROWS), u, v)
    decreases v - u
  {
    BirthIsAChain();
    assert (v - 1, v) in EdgesOf(ROWS);
    if u == v - 1 {
      EdgeReaches(EdgesOf(ROWS), u, v);
    } else {
      BirthReaches(u, v - 1);
      ReachesStep(EdgesOf(ROWS), u, v - 1, v);
    }
  }

  /** The six services run strictly in order: what is before a started step is done, what is after it has not begun. */
  lemma ServicesRunInOrder(marriageAttested: bool, w: World, i: nat)
    requires ReachedInOrder(Birth(marriageAttested), w)
    requires i < |w.db.nodes| && w.db.nodes[i].state != Pending
    ensures forall k :: 0 <= k < i ==> Done(w.db.nodes[k].state)
    ensures !Done(w.db.nodes[i].state) ==> forall k :: i < k < |w.db.nodes| ==> w.db.nodes[k].state == Pending
  {
    hide Reachable, ReachedInOrder, Safe, OrderedBut;
    var t := Birth(marriageAttested);
    OrderHolds(t, w);
    ReachableSafe(t, w);
    forall k | 0 <= k < i ensures Done(w.db.nodes[k].state) {
      BirthReaches(k, i);
      FiledAfterAllAncestors(t, w, k, i);
    }
    if !Done(w.db.nodes[i].state) {
      forall k | i < k < |w.db.nodes| ensures w.db.nodes[k].state == Pending {
        BirthReaches(i, k);
        ImpactIsHeld(t, w, i, k);
      }
    }
  }

  /** On the template's graph the graph database's ten-step query and the search in the rows agree. */
  lemma ImpactSourcesAgree(start: nat, v: nat)
    ensures ReachesWithin(EdgesOf(ROWS), start, v, 10) <==> v != start && Reaches(EdgesOf(ROWS), start, v)
  {
    BirthIsAcyclic();
    BoundedQueryAgrees(6, EdgesOf(ROWS), start, v, 10);
  }

  predicate Issues(i: nat, d: DocType) {
    i < |ROWS| && d in ROWS[i].spec.outputs
  }

  /** No service waits for a document that only itself or a later one issues, and no two issue the same. */
  lemma DocumentsComeInOrder(i: nat, d: DocType)
    requires i < |ROWS|
    ensures d in ROWS[i].spec.requiredDocuments ==> d in DOCUMENTS && forall j: nat :: Issues(j, d) ==> j < i
    ensures Issues(i, d) ==> d in DOCUMENTS && forall j: nat :: Issues(j, d) ==> j == i
  {
  }

  /** The first run: the birth certificate goes to the officer, or waits for the marriage certificate; nothing else moves. */
  lemma BirthStarts(marriageAttested: bool, now: Time)
    ensures RowsLinked(Opened(Birth(marriageAttested))) && Orchestrate(Opened(Birth(marriageAttested)), 1, now).Success?
    ensures
      var nodes := Orchestrate(Opened(Birth(marriageAttested)), 1, now).value.nodes;
      && |nodes| == 6
      && nodes[0].state == (if marriageAttested then WaitingForHuman else NodeState.DocumentMissing)
      && forall i :: 1 <= i < 6 ==> nodes[i].state == Pending
  {
    hide Orchestrate, Inv, Birth, Ripe, StartedAs;
    var t := Birth(marriageAttested);
    BirthEdges(marriageAttested);
    OpenedSafe(t);
    var s := Opened(t);
    InvRows(s, None);
    OpenedOutcome(t);
    OrchestratorStarts(s, 1, now, 0);
    OnlyTheFirstIsRipe(s);
    FirstStartsAs(marriageAttested);
    forall i: nat | 1 <= i < 6 ensures Orchestrate(s, 1, now).value.nodes[i].state == Pending {
      OrchestratorStarts(s, 1, now, i);
    }
  }

  lemma OnlyTheFirstIsRipe(s: CaseState)
    requires s.edges == EdgesOf(ROWS) && |s.nodes| == 6 && forall i :: 0 <= i < 6 ==> s.nodes[i].state == Pending
    ensures forall i: nat :: i < 6 ==> (Ripe(s, i) <==> i == 0)
  {
    hide EdgesOf;
    BirthIsAChain();
    forall i: nat | i < 6 ensures Ripe(s, i) <==> i == 0 {
      if i > 0 { assert (i - 1, i) in s.edges; }
    }
  }

  lemma BirthEdges(marriageAttested: bool)
    ensures Birth(marriageAttested).edges == EdgesOf(ROWS) && |Birth(marriageAttested).specs| == 6
  {
  }

  lemma FirstStartsAs(marriageAttested: bool)
    ensures |Opened(Birth(marriageAttested)).nodes| == 6
    ensures forall state ::
              StartedAs(Opened(Birth(marriageAttested)), 0, state) ==>
                state == if marriageAttested then WaitingForHuman else NodeState.DocumentMissing
  {
    var s := Opened(Birth(marriageAttested));
    var d := "ATTESTED_MARRIAGE_CERTIFICATE";
    assert d == s.nodes[0].spec.requiredDocuments[1];
    assert d in s.docs;
  }
}
