/** The aging report over open documents (packages/shared/src/aging/aging.ts, receivablesOrPayables in
    packages/mcp-ledger/src/arap-tools.ts). Dates are day numbers. */
module Aging {
  import opened OptionType
  import opened Arap
  import opened ArapTheorems
  import opened ArapViews

  datatype AgingRow = AgingRow(balance: int, dueOn: Option<int>)

  datatype Bucket = NotYetDue | Days1To30 | Days31To60 | Days61To90 | Days90Plus | NoDueDate

  const BUCKETS: seq<Bucket> := [NotYetDue, Days1To30, Days31To60, Days61To90, Days90Plus, NoDueDate]

  datatype Report = Report(buckets: map<Bucket, int>, total: int)

  function BucketOf(dueOn: Option<int>, asOf: int): Bucket {
    if dueOn.None? then NoDueDate
    else
      var days := asOf - dueOn.value;
      if days <= 0 then NotYetDue
      else if days <= 30 then Days1To30
      else if days <= 60 then Days31To60
      else if days <= 90 then Days61To90
      else Days90Plus
  }

  function SumIn(rows: seq<AgingRow>, asOf: int, b: Bucket): int {
    if rows == [] then 0
    else
      var r := rows[|rows|-1];
      SumIn(rows[..|rows|-1], asOf, b) + if BucketOf(r.dueOn, asOf) == b then r.balance else 0
  }

  function SumAll(rows: seq<AgingRow>): int {
    if rows == [] then 0 else SumAll(rows[..|rows|-1]) + rows[|rows|-1].balance
  }

  predicate NoneNegative(rows: seq<AgingRow>) { forall r :: r in rows ==> r.balance >= 0 }

  /** A report that says of every bucket, and of the total, what the rows say. */
  predicate Truthful(report: Report, rows: seq<AgingRow>, asOf: int) {
    report.total == SumAll(rows) && (forall b: Bucket :: b in report.buckets && report.buckets[b] == SumIn(rows, asOf, b))
  }

  method BuildAging(rows: seq<AgingRow>, asOf: int) returns (report: Option<Report>)
    ensures report.Some? <==> NoneNegative(rows)
    ensures report.Some? ==> Truthful(report.value, rows, asOf)
  {
    var buckets := map[NotYetDue := 0, Days1To30 := 0, Days31To60 := 0, Days61To90 := 0, Days90Plus := 0, NoDueDate := 0];
    var total := 0;
    forall b: Bucket ensures b in buckets && buckets[b] == SumIn([], asOf, b) {
      match b {
        case NotYetDue => case Days1To30 => case Days31To60 => case Days61To90 => case Days90Plus => case NoDueDate =>
      }
    }
    assert rows[..0] == [];
    for i := 0 to |rows|
      invariant NoneNegative(rows[..i]) && total == SumAll(rows[..i])
      invariant forall b: Bucket :: b in buckets && buckets[b] == SumIn(rows[..i], asOf, b)
    {
      assert rows[..i+1][..i] == rows[..i] && rows[..i+1] == rows[..i] + [rows[i]];
      if rows[i].balance < 0 { return None; }
      var b := BucketOf(rows[i].dueOn, asOf);
      buckets := buckets[b := buckets[b] + rows[i].balance];
      total := total + rows[i].balance;
    }
    assert rows[..|rows|] == rows;
    return Some(Report(buckets, total));
  }

  function BucketSum(report: Report, k: nat): int
    requires k <= |BUCKETS| && forall b: Bucket :: b in report.buckets
  {
    if k == 0 then 0 else BucketSum(report, k - 1) + report.buckets[BUCKETS[k-1]]
  }

  /** Every row falls in exactly one bucket: the buckets come to the total. */
  lemma {:induction false} BucketsCover(rows: seq<AgingRow>, asOf: int)
    ensures SumIn(rows, asOf, NotYetDue) + SumIn(rows, asOf, Days1To30) + SumIn(rows, asOf, Days31To60)
      + SumIn(rows, asOf, Days61To90) + SumIn(rows, asOf, Days90Plus) + SumIn(rows, asOf, NoDueDate) == SumAll(rows)
  {
    if rows != [] { BucketsCover(rows[..|rows|-1], asOf); }
  }

  lemma AllBuckets()
    ensures |BUCKETS| == 6 && forall b: Bucket :: b in BUCKETS
  {
    forall b: Bucket ensures b in BUCKETS {
      match b {
        case NotYetDue => assert BUCKETS[0] == b;
        case Days1To30 => assert BUCKETS[1] == b;
        case Days31To60 => assert BUCKETS[2] == b;
        case Days61To90 => assert BUCKETS[3] == b;
        case Days90Plus => assert BUCKETS[4] == b;
        case NoDueDate => assert BUCKETS[5] == b;
      }
    }
  }

  /** The independent check passes exactly the truthful report: any bucket or total changed on the way fails. */
  method VerifyAging(report: Report, rows: seq<AgingRow>, asOf: int) returns (pass: Option<bool>)
    requires forall b: Bucket :: b in report.buckets
    ensures pass.Some? <==> NoneNegative(rows)
    ensures pass.Some? ==> (pass.value <==> Truthful(report, rows, asOf))
  {
    var rebuilt := BuildAging(rows, asOf);
    if rebuilt.None? { return None; }
    var ok := true;
    var sum := 0;
    for k := 0 to |BUCKETS|
      invariant ok <==> forall j :: 0 <= j < k ==> report.buckets[BUCKETS[j]] == rebuilt.value.buckets[BUCKETS[j]]
      invariant sum == BucketSum(report, k)
    {
      if report.buckets[BUCKETS[k]] != rebuilt.value.buckets[BUCKETS[k]] { ok := false; }
      sum := sum + report.buckets[BUCKETS[k]];
    }
    AllBuckets();
    assert ok <==> forall b: Bucket :: report.buckets[b] == SumIn(rows, asOf, b) by {
      if ok { forall b: Bucket ensures report.buckets[b] == SumIn(rows, asOf, b) { assert b in BUCKETS; } }
    }
    if report.total != rebuilt.value.total { ok := false; }
    if ok {
      BucketsCover(rows, asOf);
      SumOfSix(report);
    }
    if sum != report.total { ok := false; }
    return Some(ok);
  }

  lemma SumOfSix(report: Report)
    requires forall b: Bucket :: b in report.buckets
    ensures BucketSum(report, |BUCKETS|) == report.buckets[NotYetDue] + report.buckets[Days1To30] + report.buckets[Days31To60]
      + report.buckets[Days61To90] + report.buckets[Days90Plus] + report.buckets[NoDueDate]
  {
    assert BUCKETS[0] == NotYetDue && BUCKETS[1] == Days1To30 && BUCKETS[2] == Days31To60 && BUCKETS[3] == Days61To90
      && BUCKETS[4] == Days90Plus && BUCKETS[5] == NoDueDate;
    assert BucketSum(report, 1) == report.buckets[NotYetDue];
    assert BucketSum(report, 2) == BucketSum(report, 1) + report.buckets[Days1To30];
    assert BucketSum(report, 3) == BucketSum(report, 2) + report.buckets[Days31To60];
    assert BucketSum(report, 4) == BucketSum(report, 3) + report.buckets[Days61To90];
    assert BucketSum(report, 5) == BucketSum(report, 4) + report.buckets[Days90Plus];
  }

  // ---------------------------------------------------------------- the report and the books

  /** The rows behind one side's report: confirmed documents with something open. */
  function OpenRows(docs: seq<Doc>, side: Side): seq<AgingRow> {
    if docs == [] then []
    else
      var d := docs[|docs|-1];
      OpenRows(docs[..|docs|-1], side) + if d.confirmed && d.side == side && d.balance > 0 then [AgingRow(d.balance, d.dueOn)] else []
  }

  /** What is open on this side for all parties numbered below `k`. */
  function OpenOfParties(docs: seq<Doc>, side: Side, k: nat): int {
    if k == 0 then 0 else OpenOfParties(docs, side, k - 1) + OpenBalance(docs, side, k - 1)
  }

  lemma {:induction false} OneMoreDoc(docs: seq<Doc>, d: Doc, side: Side, k: nat)
    ensures OpenOfParties(docs + [d], side, k) ==
      OpenOfParties(docs, side, k) + if d.confirmed && d.side == side && d.party < k then d.balance else 0
  {
    if k > 0 {
      OneMoreDoc(docs, d, side, k - 1);
      assert (docs + [d])[..|docs|] == docs;
    }
  }

  lemma {:induction false} NothingOpen(side: Side, k: nat)
    ensures OpenOfParties([], side, k) == 0
  {
    if k > 0 { NothingOpen(side, k - 1); }
  }

  /** The report's total is what the parties' open balances come to, party by party. */
  lemma {:induction false} TotalIsOpen(docs: seq<Doc>, side: Side, k: nat)
    requires forall d :: 0 <= d < |docs| ==> docs[d].balance >= 0 && docs[d].party < k
    ensures SumAll(OpenRows(docs, side)) == OpenOfParties(docs, side, k) && NoneNegative(OpenRows(docs, side))
  {
    if docs == [] { NothingOpen(side, k); }
    else {
      var before, d := docs[..|docs|-1], docs[|docs|-1];
      TotalIsOpen(before, side, k);
      assert docs == before + [d];
      OneMoreDoc(before, d, side, k);
      OneMoreRow(before, d, side);
      hide OpenRows, OpenOfParties, SumAll;
    }
  }

  lemma OneMoreRow(docs: seq<Doc>, d: Doc, side: Side)
    requires NoneNegative(OpenRows(docs, side)) && d.balance >= 0
    ensures NoneNegative(OpenRows(docs + [d], side))
    ensures SumAll(OpenRows(docs + [d], side)) == SumAll(OpenRows(docs, side)) + if d.confirmed && d.side == side then d.balance else 0
  {
    assert (docs + [d])[..|docs|] == docs;
    var rows, all := OpenRows(docs, side), OpenRows(docs + [d], side);
    if d.confirmed && d.side == side && d.balance > 0 {
      assert all[..|rows|] == rows;
    } else {
      assert all == rows;
    }
  }

  /** In every reachable ledger a report can be built, and its total is what the parties' accounts have open. */
  lemma AgingAgrees(steps: seq<Step>, ys: seq<Sys>, b: Books, side: Side, k: nat)
    requires IsHistory(steps, ys) && b == ys[|steps|].books
    requires forall d :: 0 <= d < |b.docs| ==> b.docs[d].party < k
    ensures NoneNegative(OpenRows(b.docs, side)) && SumAll(OpenRows(b.docs, side)) == OpenOfParties(b.docs, side, k)
  {
    hide IsHistory;
    HistoryKeeps(steps, ys, |steps|);
    forall d | 0 <= d < |b.docs| ensures b.docs[d].balance >= 0 { assert Tallied(b, d); }
    TotalIsOpen(b.docs, side, k);
  }
}
