/** One reconciliation pass as the service runs it - load, fetch, judge, apply - and that it
    is the pass the transition system takes. */
module Reconciler {
  import opened Common
  import opened Rows
  import opened Reconciliation
  import opened Applying
  import opened World
  import opened Store

  /** The loaded facts, one per order, in some order. */
  ghost predicate Lists(locals: seq<LocalFact>, table: map<OrderId, LocalFact>) {
    && (forall i, j :: 0 <= i < j < |locals| ==> locals[i].id != locals[j].id)
    && (forall i :: 0 <= i < |locals| ==> locals[i].id in table && table[locals[i].id] == locals[i])
    && (forall id :: id in table ==> exists i :: 0 <= i < |locals| && locals[i].id == id)
  }

  method LoadLocalFacts(db: Database) returns (locals: seq<LocalFact>)
    ensures Lists(locals, LoadFacts(db.Rows()))
  {
    locals := [];
    var rest := db.orders.Keys;
    while rest != {}
      invariant rest <= db.orders.Keys
      invariant forall i, j :: 0 <= i < j < |locals| ==> locals[i].id != locals[j].id
      invariant forall i :: 0 <= i < |locals| ==>
                  && locals[i].id in db.orders && locals[i].id !in rest
                  && UnderReview(db.Rows(), locals[i].id) && locals[i] == LocalFactOf(db.Rows(), locals[i].id)
      invariant forall id :: id in db.orders && id !in rest && UnderReview(db.Rows(), id) ==>
                  exists i :: 0 <= i < |locals| && locals[i].id == id
      decreases rest
    {
      var id :| id in rest;
      rest := rest - {id};
      if UnderReview(db.Rows(), id) {
        ghost var before := locals;
        locals := locals + [LocalFactOf(db.Rows(), id)];
        assert locals[|before|].id == id;
        assert forall i :: 0 <= i < |before| ==> locals[i] == before[i];
      }
    }
  }

  /** Details are asked for every mapped local order that is not in the open list; a missing
      answer or an answer about another order fails the pass. */
  method FetchDetails(locals: seq<LocalFact>, open: seq<ExchangeFact>, answers: map<ExchangeId, ExchangeFact>)
    returns (details: Option<map<ExchangeId, ExchangeFact>>)
    ensures details.Some? ==>
              && (forall x :: x in details.value <==> x in MappedIds(locals) - OpenTable(open).Keys)
              && (forall x :: x in details.value ==>
                    x in answers && details.value[x] == answers[x] && answers[x].exchangeId == x)
    ensures details.None? <==>
              exists x :: x in MappedIds(locals) - OpenTable(open).Keys && (x !in answers || answers[x].exchangeId != x)
  {
    hide OpenTable;
    var openById := IndexOpen(open);
    var openIds := openById.Keys;
    var found: map<ExchangeId, ExchangeFact> := map[];
    for i := 0 to |locals|
      invariant forall x :: x in found <==> x in MappedIds(locals[..i]) - openIds
      invariant forall x :: x in found ==> x in answers && found[x] == answers[x] && answers[x].exchangeId == x
    {
      assert locals[..i + 1] == locals[..i] + [locals[i]];
      MappedAppend(locals[..i], locals[i]);
      if locals[i].exchangeId.None? || locals[i].exchangeId.value in openIds || locals[i].exchangeId.value in found {
        continue;
      }
      var x := locals[i].exchangeId.value;
      if x !in answers || answers[x].exchangeId != x {
        assert x in MappedIds(locals) - openIds;
        return None;
      }
      found := found[x := answers[x]];
    }
    assert locals[..|locals|] == locals;
    return Some(found);
  }

  /** Judging and applying facts that were loaded and fetched earlier. Whatever happened to
      the rows meanwhile, the transaction commits exactly what the transition system's
      pass commits, or nothing. */
  method JudgeAndApply(
    db: Database, locals: seq<LocalFact>, ghost table: map<OrderId, LocalFact>,
    open: seq<ExchangeFact>, details: map<ExchangeId, ExchangeFact>, unsettled: map<ExchangeId, int>
  ) returns (safe: bool, committed: bool)
    requires db.Valid() && Lists(locals, table)
    modifies db
    ensures db.Valid()
    ensures db.Rows() == if committed then ApplyReport(old(db.Rows()), Verdicts(Pass(table, details + OpenTable(open)), unsettled))
                         else old(db.Rows())
    ensures safe <==>
              && (forall i :: 0 <= i < |locals| ==> Agrees(locals[i], Evidence(OpenTable(open), details, unsettled)))
              && OpenTable(open).Keys <= MappedIds(locals)
  {
    hide OpenTable, Agrees, Linked, Evidence.Judge, ApplyReport, VerdictTable;
    var actions := ReconcileOrderFacts(locals, open, details, unsettled);
    ghost var e := Evidence(OpenTable(open), details, unsettled);
    SafeMeansAgreement(actions, locals, e);
    safe := forall i | 0 <= i < |actions| :: !actions[i].Blocker();
    var about := LocalActions(actions, |locals|, locals, e);
    JudgedOnce(about, locals, table, e);
    VerdictsAreTheReport(about, locals, table, OpenTable(open), details, unsettled);
    committed := db.ApplyVerdicts(about);
  }

  /** The verdicts on local orders come first. */
  method LocalActions(actions: seq<Action>, n: nat, ghost locals: seq<LocalFact>, ghost e: Evidence) returns (about: seq<Action>)
    requires IsReport(actions, locals, e) && n == |locals|
    ensures |about| == |locals| && forall i :: 0 <= i < |about| ==> about[i] == e.Judge(locals[i])
  {
    hide Evidence.Judge;
    about := actions[..n];
  }

  lemma JudgedById(local: LocalFact, e: Evidence)
    ensures e.Judge(local).local == Some(local.id)
  {
  }

  /** The open list answers before the details do. */
  lemma OneTableOfFacts(local: LocalFact, open: map<ExchangeId, ExchangeFact>, details: map<ExchangeId, ExchangeFact>,
                        unsettled: map<ExchangeId, int>)
    ensures Evidence(open, details, unsettled).Judge(local) == Evidence(map[], details + open, unsettled).Judge(local)
  {
    hide Classify;
  }

  lemma {:induction false} VerdictTableRow(actions: seq<Action>, i: nat)
    requires i < |actions| && forall k :: 0 <= k < |actions| ==> actions[k].local.Some?
    requires forall a, b :: 0 <= a < b < |actions| ==> actions[a].local != actions[b].local
    ensures actions[i].local.value in VerdictTable(actions) && VerdictTable(actions)[actions[i].local.value] == actions[i]
    decreases |actions|
  {
    if i < |actions| - 1 {
      VerdictTableRow(actions[..|actions| - 1], i);
    }
  }

  lemma JudgedOnce(about: seq<Action>, locals: seq<LocalFact>, table: map<OrderId, LocalFact>, e: Evidence)
    requires Lists(locals, table) && |about| == |locals|
    requires forall i :: 0 <= i < |about| ==> about[i] == e.Judge(locals[i])
    ensures forall i :: 0 <= i < |about| ==> about[i].local == Some(locals[i].id)
    ensures forall i, j :: 0 <= i < j < |about| ==> about[i].local != about[j].local
  {
    hide Evidence.Judge;
    forall i | 0 <= i < |about| ensures about[i].local == Some(locals[i].id) {
      JudgedById(locals[i], e);
    }
  }

  /** One order's entry in the table of verdicts. */
  lemma {:induction false} VerdictEntry(
    about: seq<Action>, locals: seq<LocalFact>, table: map<OrderId, LocalFact>,
    open: map<ExchangeId, ExchangeFact>, details: map<ExchangeId, ExchangeFact>, unsettled: map<ExchangeId, int>, id: OrderId)
    requires Lists(locals, table) && |about| == |locals|
    requires forall i :: 0 <= i < |about| ==> about[i].local == Some(locals[i].id)
    requires forall i, j :: 0 <= i < j < |about| ==> about[i].local != about[j].local
    requires forall i :: 0 <= i < |about| ==> about[i] == Evidence(open, details, unsettled).Judge(locals[i])
    ensures id in VerdictTable(about) <==> id in table
    ensures id in table ==>
              VerdictTable(about)[id] == Evidence(map[], details + open, unsettled).Judge(table[id])
  {
    hide Evidence.Judge, VerdictTable;
    if id in table {
      var i :| 0 <= i < |locals| && locals[i].id == id;
      OneTableOfFacts(locals[i], open, details, unsettled);
      VerdictTableRow(about, i);
    }
    if id in VerdictTable(about) {
      VerdictTableKeys(about);
      var i :| 0 <= i < |about| && about[i].local == Some(id);
    }
  }

  /** The list of verdicts and the table the transition system applies are the same. */
  lemma {:induction false} VerdictsAreTheReport(
    about: seq<Action>, locals: seq<LocalFact>, table: map<OrderId, LocalFact>,
    open: map<ExchangeId, ExchangeFact>, details: map<ExchangeId, ExchangeFact>, unsettled: map<ExchangeId, int>)
    requires Lists(locals, table) && |about| == |locals|
    requires forall i :: 0 <= i < |about| ==> about[i].local == Some(locals[i].id)
    requires forall i, j :: 0 <= i < j < |about| ==> about[i].local != about[j].local
    requires forall i :: 0 <= i < |about| ==> about[i] == Evidence(open, details, unsettled).Judge(locals[i])
    ensures VerdictTable(about) == Verdicts(Pass(table, details + open), unsettled)
  {
    hide Evidence.Judge, VerdictTable, Lists;
    forall id: OrderId
      ensures id in VerdictTable(about) <==> id in table
      ensures id in table ==> VerdictTable(about)[id] == Evidence(map[], details + open, unsettled).Judge(table[id])
    {
      VerdictEntry(about, locals, table, open, details, unsettled, id);
    }
  }
}
