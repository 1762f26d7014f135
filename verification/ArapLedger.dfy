/** The receivables tools over one business' tables, in place (packages/mcp-ledger/src/arap-tools.ts). */
module ArapLedger {
  import opened OptionType
  import opened Arap
  import opened ArapTheorems
  import opened ArapOverlap
  import Allocation
  import Drafts

  datatype Confirmation = Ok | NoApproval | NotADraft | NoLongerFits

  class Ledger {
    var docs: seq<Doc>
    var pays: seq<Payment>
    /** When each document and each payment was drafted, and when the owner approved; an approval counts this long. */
    var docsAt: seq<int>
    var paysAt: seq<int>
    var approvals: seq<int>
    const window: nat

    ghost function Contents(): Books
      reads this
    {
      Books(docs, pays)
    }

    ghost predicate Valid()
      reads this
    {
      Kept(Contents()) && Once(Contents()) && |docsAt| == |docs| && |paysAt| == |pays|
    }

    constructor (window: nat)
      ensures Valid() && docs == [] && pays == [] && approvals == [] && this.window == window
    {
      docs, pays, docsAt, paysAt, approvals, this.window := [], [], [], [], [], window;
    }

    /** `record_credit_sale` and `record_credit_purchase`, once VAT is resolved and validation has passed. */
    method RecordDocument(side: Side, party: nat, total: nat, datedOn: int, dueOn: Option<int>, now: int) returns (id: nat)
      requires Valid()
      modifies this`docs, this`docsAt
      ensures Valid() && id == |old(docs)| && docsAt == old(docsAt) + [now]
      ensures docs == old(docs) + [Doc(side, party, total, total, datedOn, dueOn, false)]
    {
      hide Kept;
      AddDocBooks(Contents(), Doc(side, party, total, total, datedOn, dueOn, false));
      id := |docs|;
      docs, docsAt := docs + [Doc(side, party, total, total, datedOn, dueOn, false)], docsAt + [now];
    }

    /** Only a draft, and only after the owner's approval of it: newer than the draft and inside the window. */
    method ConfirmDocument(id: nat, now: int) returns (r: Confirmation)
      requires Valid()
      modifies this`docs
      ensures Valid()
      ensures r.NotADraft? <==> id >= |old(docs)| || old(docs)[id].confirmed
      ensures r.Ok? <==> id < |old(docs)| && !old(docs)[id].confirmed && Drafts.ApprovedAfter(approvals, docsAt[id], now, window)
      ensures r.Ok? || r.NotADraft? || r.NoApproval?
      ensures docs == if r.Ok? then old(docs)[id := old(docs)[id].(confirmed := true)] else old(docs)
    {
      hide Kept;
      if id >= |docs| || docs[id].confirmed { return NotADraft; }
      if !Drafts.ApprovedAfter(approvals, docsAt[id], now, window) { return NoApproval; }
      ConfirmDocBooks(Contents(), id);
      docs := docs[id := docs[id].(confirmed := true)];
      return Ok;
    }

    /** Stages a payment with its plan; balances move only when it is confirmed. */
    method RecordPartyPayment(side: Side, party: nat, amount: int, paidOn: int, requests: seq<Allocation.Request>, now: int) returns (id: Option<nat>)
      requires Valid()
      modifies this`pays, this`paysAt
      ensures Valid()
      ensures id.None? ==> pays == old(pays) && paysAt == old(paysAt)
      ensures id.Some? ==>
        && id.value == |old(pays)| && |pays| == |old(pays)| + 1 && pays[..id.value] == old(pays) && paysAt == old(paysAt) + [now]
        && pays[id.value] == Payment(side, party, amount, paidOn, false, pays[id.value].lines, 0)
        && Allocation.Fits(amount, Targets(docs, side, party), pays[id.value].lines)
      ensures id.Some? <==>
        if requests == [] then 0 < amount <= Allocation.OpenTotal(Targets(docs, side, party))
        else Allocation.Acceptable(amount, requests, Targets(docs, side, party))
    {
      hide Kept, Targets, Allocation.Fits, Allocation.Acceptable, Allocation.OldestPaidFirst;
      var plan;
      if requests != [] { plan := Allocation.PlanManual(amount, requests, Targets(docs, side, party)); }
      else { plan := Allocation.PlanAuto(amount, Targets(docs, side, party)); }
      if plan.Refused? { return None; }
      var p := Payment(side, party, amount, paidOn, false, plan.lines, 0);
      assert amount > 0 by { if requests != [] { ManualPositive(amount, requests, Targets(docs, side, party)); } }
      FitIsPlanned(docs, side, party, amount, paidOn, plan.lines);
      AddPaymentBooks(Contents(), p);
      id := Some(|pays|);
      pays, paysAt := pays + [p], paysAt + [now];
    }

    /** Checks every line against the current balances, then decrements them one by one and flips the status. */
    method ConfirmPayment(id: nat, now: int) returns (r: Confirmation)
      requires Valid()
      modifies this`docs, this`pays
      ensures Valid()
      ensures r.NotADraft? <==> id >= |old(pays)| || old(pays)[id].confirmed
      ensures r.NoApproval? <==> id < |old(pays)| && !old(pays)[id].confirmed && !Drafts.ApprovedAfter(approvals, paysAt[id], now, window)
      ensures r.Ok? || r.NoLongerFits? ==>
        && (forall l :: l in old(pays)[id].lines ==> l.target < |old(docs)|)
        && (r.Ok? <==> LinesFit(old(docs), old(pays)[id].lines))
        && Contents() == ConfirmSeen(old(Contents()), id)
      ensures !r.Ok? ==> Contents() == old(Contents())
    {
      hide Kept;
      if id >= |pays| || pays[id].confirmed { return NotADraft; }
      if !Drafts.ApprovedAfter(approvals, paysAt[id], now, window) { return NoApproval; }
      var lines := pays[id].lines;
      Planned(Contents(), id);
      forall l | l in lines ensures l.target < |docs| { assert LineOk(docs, pays[id], l); }
      var fits := AllLinesFit(lines);
      if !fits { return NoLongerFits; }
      ConfirmSeenKeeps(Contents(), id);
      hide Install, NewBalances;
      Decrement(lines);
      pays := AfterConfirm(pays, id);
      return Ok;
    }

    method AllLinesFit(lines: seq<Allocation.Line>) returns (fits: bool)
      requires forall l :: l in lines ==> l.target < |docs|
      ensures fits == LinesFit(docs, lines)
    {
      for i := 0 to |lines|
        invariant forall j :: 0 <= j < i ==> lines[j].amount <= docs[lines[j].target].balance
      {
        assert lines[i] in lines;
        if lines[i].amount > docs[lines[i].target].balance { return false; }
      }
      return true;
    }

    /** One UPDATE per line. */
    method Decrement(lines: seq<Allocation.Line>)
      requires forall l :: l in lines ==> l.target < |docs|
      requires forall j, k :: 0 <= j < k < |lines| ==> lines[j].target != lines[k].target
      modifies this`docs
      ensures docs == Install(old(docs), lines, NewBalances(old(docs), lines))
    {
      ghost var before := docs;
      for i := 0 to |lines|
        invariant docs == Install(before, lines[..i], NewBalances(before, lines[..i]))
      {
        InstallNext(before, lines, i);
        var d := lines[i].target;
        docs := docs[d := docs[d].(balance := docs[d].balance - lines[i].amount)];
      }
      assert lines[..|lines|] == lines;
    }
  }

  lemma {:induction false} InstallNext(docs: seq<Doc>, lines: seq<Allocation.Line>, i: nat)
    requires i < |lines| && forall l :: l in lines ==> l.target < |docs|
    requires forall j, k :: 0 <= j < k < |lines| ==> lines[j].target != lines[k].target
    ensures
      var done := Install(docs, lines[..i], NewBalances(docs, lines[..i]));
      var d := lines[i].target;
      Install(docs, lines[..i+1], NewBalances(docs, lines[..i+1])) == done[d := done[d].(balance := done[d].balance - lines[i].amount)]
  {
    var longer, d := lines[..i+1], lines[i].target;
    assert longer[..i] == lines[..i] && longer[i] == lines[i];
    assert NewBalances(docs, longer)[..i] == NewBalances(docs, lines[..i]);
    UntouchedBefore(docs, lines[..i], d);
  }

  lemma {:induction false} UntouchedBefore(docs: seq<Doc>, lines: seq<Allocation.Line>, d: nat)
    requires d < |docs| && forall l :: l in lines ==> l.target < |docs| && l.target != d
    requires forall j, k :: 0 <= j < k < |lines| ==> lines[j].target != lines[k].target
    ensures Install(docs, lines, NewBalances(docs, lines))[d] == docs[d]
  {
    hide Install;
    InstallAt(docs, lines, NewBalances(docs, lines), d);
  }

  lemma ManualPositive(amount: int, requests: seq<Allocation.Request>, ts: seq<Allocation.Target>)
    requires Allocation.Acceptable(amount, requests, ts)
    ensures amount > 0
  {
  }
}
