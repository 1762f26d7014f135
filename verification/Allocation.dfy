/** How a payment is spread over open invoices or bills (packages/shared/src/allocation/allocation.ts). Amounts are
    whole paisa. The planners are loops; what they promise is stated here without them. */
module Allocation {

  datatype Target = Target(id: nat, datedOn: int, balance: int)

  datatype Request = Request(target: nat, amount: int)

  datatype Line = Line(target: nat, amount: int, newBalance: int)

  datatype Plan = Planned(lines: seq<Line>) | Refused(reason: string)

  function Total(lines: seq<Line>): int {
    if lines == [] then 0 else Total(lines[..|lines|-1]) + lines[|lines|-1].amount
  }

  function Requested(rs: seq<Request>): int {
    if rs == [] then 0 else Requested(rs[..|rs|-1]) + rs[|rs|-1].amount
  }

  function OpenTotal(ts: seq<Target>): int {
    if ts == [] then 0 else OpenTotal(ts[..|ts|-1]) + if ts[|ts|-1].balance > 0 then ts[|ts|-1].balance else 0
  }

  predicate Keyed(ts: seq<Target>) {
    forall i, j :: 0 <= i < j < |ts| ==> ts[i].id != ts[j].id
  }

  /** The line pays part or all of one of these targets' balances. */
  predicate Pays(ts: seq<Target>, l: Line) {
    exists t :: t in ts && t.id == l.target && 0 < l.amount <= t.balance && l.newBalance == t.balance - l.amount
  }

  /** No target is overpaid, none is paid twice, and the lines make up the payment exactly. */
  predicate Fits(amount: int, ts: seq<Target>, lines: seq<Line>) {
    && Total(lines) == amount
    && (forall l :: l in lines ==> Pays(ts, l))
    && (forall i, j :: 0 <= i < j < |lines| ==> lines[i].target != lines[j].target)
  }

  /** Oldest first, then by id. */
  predicate Before(a: Target, b: Target) {
    a.datedOn < b.datedOn || (a.datedOn == b.datedOn && a.id < b.id)
  }

  /** Before anything goes to a target, every older open one is paid in full. */
  predicate OldestPaidFirst(ts: seq<Target>, lines: seq<Line>) {
    forall l, t, u :: l in lines && t in ts && u in ts && u.id == l.target && t.balance > 0 && Before(t, u) ==>
      Line(t.id, t.balance, 0) in lines
  }

  // ---------------------------------------------------------------- sorting

  predicate Sorted(ts: seq<Target>) {
    forall i, j :: 0 <= i < j < |ts| ==> !Before(ts[j], ts[i])
  }

  function Insert(t: Target, ts: seq<Target>): (r: seq<Target>)
    requires Sorted(ts)
    ensures forall x :: x in r <==> x == t || x in ts
    ensures Sorted(r) && |r| == |ts| + 1
  {
    if ts == [] || !Before(t, ts[|ts|-1]) then ts + [t]
    else
      var r := Insert(t, ts[..|ts|-1]);
      assert forall i :: 0 <= i < |r| ==> r[i] in r;
      r + [ts[|ts|-1]]
  }

  lemma {:induction false} InsertKeeps(t: Target, ts: seq<Target>)
    requires Sorted(ts) && Keyed(ts) && forall x :: x in ts ==> x.id != t.id
    ensures Keyed(Insert(t, ts)) && OpenTotal(Insert(t, ts)) == OpenTotal(ts) + if t.balance > 0 then t.balance else 0
    decreases |ts|
  {
    var r := Insert(t, ts);
    if ts == [] || !Before(t, ts[|ts|-1]) { assert r[..|ts|] == ts; }
    else {
      InsertKeeps(t, ts[..|ts|-1]);
      assert r[..|ts|] == Insert(t, ts[..|ts|-1]);
      forall i | 0 <= i < |ts| ensures r[i].id != r[|ts|].id { assert r[i] in Insert(t, ts[..|ts|-1]); }
    }
  }

  /** `targets.filter(balance > 0).sort(oldestFirst)`. */
  function OpenOldestFirst(ts: seq<Target>): (r: seq<Target>)
    ensures forall t :: t in r <==> t in ts && t.balance > 0
    ensures Sorted(r)
  {
    if ts == [] then []
    else
      var r, t := OpenOldestFirst(ts[..|ts|-1]), ts[|ts|-1];
      if t.balance > 0 then Insert(t, r) else r
  }

  lemma {:induction false} OpenKeeps(ts: seq<Target>)
    requires Keyed(ts)
    ensures Keyed(OpenOldestFirst(ts)) && OpenTotal(OpenOldestFirst(ts)) == OpenTotal(ts)
  {
    if ts != [] {
      var before, t := ts[..|ts|-1], ts[|ts|-1];
      OpenKeeps(before);
      forall x | x in OpenOldestFirst(before) ensures x.id != t.id { assert x in before; }
      if t.balance > 0 { InsertKeeps(t, OpenOldestFirst(before)); }
    }
  }

  // ---------------------------------------------------------------- the planners

  lemma TotalSnoc(lines: seq<Line>, l: Line)
    ensures Total(lines + [l]) == Total(lines) + l.amount
  {
    assert (lines + [l])[..|lines|] == lines;
  }

  lemma {:induction false} OpenTotalParts(ts: seq<Target>, k: nat)
    requires k <= |ts|
    ensures OpenTotal(ts[..k]) <= OpenTotal(ts)
    decreases |ts|
  {
    if k < |ts| {
      assert ts[..|ts|-1][..k] == ts[..k];
      OpenTotalParts(ts[..|ts|-1], k);
    } else { assert ts[..k] == ts; }
  }

  /** Line `i` goes to the i-th open target, paid in full unless it is the last line. */
  predicate FillsInOrder(open: seq<Target>, lines: seq<Line>) {
    |lines| <= |open| && forall i :: 0 <= i < |lines| ==>
      && lines[i].target == open[i].id && 0 < lines[i].amount <= open[i].balance
      && lines[i].newBalance == open[i].balance - lines[i].amount && (i < |lines| - 1 ==> lines[i].newBalance == 0)
  }

  lemma NothingFilled(open: seq<Target>)
    ensures FillsInOrder(open, []) && Total([]) == 0 && OpenTotal([]) == 0 && open[..0] == [] && open[..|open|] == open
  {
  }

  lemma {:induction false} FillsNext(open: seq<Target>, lines: seq<Line>, amount: int)
    requires FillsInOrder(open, lines) && |lines| < |open| && 0 < amount <= open[|lines|].balance
    requires lines != [] ==> lines[|lines|-1].newBalance == 0
    ensures
      var t := open[|lines|];
      var l := Line(t.id, amount, t.balance - amount);
      FillsInOrder(open, lines + [l]) && Total(lines + [l]) == Total(lines) + amount
    ensures OpenTotal(open[..|lines|+1]) == OpenTotal(open[..|lines|]) + open[|lines|].balance
  {
    TotalSnoc(lines, Line(open[|lines|].id, amount, open[|lines|].balance - amount));
    assert open[..|lines|+1][..|lines|] == open[..|lines|];
  }

  lemma {:induction false} InOrderFits(amount: int, ts: seq<Target>, open: seq<Target>, lines: seq<Line>)
    requires Keyed(open) && Sorted(open) && Keyed(ts) && FillsInOrder(open, lines) && Total(lines) == amount
    requires forall t :: t in open <==> t in ts && t.balance > 0
    ensures Fits(amount, ts, lines) && OldestPaidFirst(ts, lines)
  {
    forall l | l in lines ensures Pays(ts, l) {
      var i :| 0 <= i < |lines| && lines[i] == l;
      assert open[i] in open;
    }
    forall l, t, u | l in lines && t in ts && u in ts && u.id == l.target && t.balance > 0 && Before(t, u)
      ensures Line(t.id, t.balance, 0) in lines
    {
      var i :| 0 <= i < |lines| && lines[i] == l;
      assert open[i] in ts && open[i] == u;
      assert t in open;
      var j :| 0 <= j < |open| && open[j] == t;
      assert j < i;
      assert lines[j] == Line(t.id, t.balance, 0);
    }
  }

  /** Oldest first; refused exactly when the amount is not positive or exceeds everything that is open. */
  method PlanAuto(amount: int, ts: seq<Target>) returns (plan: Plan)
    requires Keyed(ts)
    ensures plan.Planned? <==> 0 < amount <= OpenTotal(ts)
    ensures plan.Planned? ==> Fits(amount, ts, plan.lines) && OldestPaidFirst(ts, plan.lines)
  {
    hide Keyed, Sorted, Fits, OldestPaidFirst, FillsInOrder, OpenTotal, Total, OpenOldestFirst;
    if amount <= 0 { return Refused("payment amount must be a positive amount"); }
    var open := OpenOldestFirst(ts);
    OpenKeeps(ts);
    var lines: seq<Line> := [];
    NothingFilled(open);
    var remaining := amount;
    var i := 0;
    while i < |open| && remaining > 0
      invariant 0 <= i <= |open| && remaining >= 0 && |lines| == i
      invariant FillsInOrder(open, lines) && Total(lines) == amount - remaining <= OpenTotal(open[..i])
      invariant remaining > 0 ==> Total(lines) == OpenTotal(open[..i]) && (i > 0 ==> lines[i-1].newBalance == 0)
    {
      var t := open[i];
      assert t in open;
      var apply := if remaining < t.balance then remaining else t.balance;
      FillsNext(open, lines, apply);
      lines := lines + [Line(t.id, apply, t.balance - apply)];
      remaining := remaining - apply;
      i := i + 1;
    }
    OpenTotalParts(open, i);
    if remaining > 0 {
      assert open[..i] == open;
      return Refused("payment exceeds total open balance");
    }
    InOrderFits(amount, ts, open, lines);
    return Planned(lines);
  }

  /** The owner's own lines are acceptable. */
  predicate Acceptable(amount: int, rs: seq<Request>, ts: seq<Target>) {
    && amount > 0 && rs != [] && Requested(rs) == amount
    && (forall i :: 0 <= i < |rs| ==> RequestFits(rs, ts, i))
  }

  /** Request `i` is positive, names a target not named before, and does not overpay it. */
  predicate RequestFits(rs: seq<Request>, ts: seq<Target>, i: nat)
    requires i < |rs|
  {
    && rs[i].amount > 0
    && (forall j :: 0 <= j < i ==> rs[j].target != rs[i].target)
    && exists t :: t in ts && t.id == rs[i].target && rs[i].amount <= t.balance
  }

  function ById(ts: seq<Target>): (m: map<nat, Target>)
    requires Keyed(ts)
    ensures forall id :: id in m <==> exists t :: t in ts && t.id == id
    ensures forall id :: id in m ==> m[id] in ts && m[id].id == id
  {
    map t | t in ts :: t.id := t
  }

  /** Line `i` is request `i`, and it holds. */
  predicate Granted(rs: seq<Request>, ts: seq<Target>, lines: seq<Line>, i: nat)
    requires i < |rs| && i < |lines|
  {
    lines[i].target == rs[i].target && lines[i].amount == rs[i].amount && Pays(ts, lines[i]) && RequestFits(rs, ts, i)
  }

  lemma {:induction false} GrantedFits(amount: int, rs: seq<Request>, ts: seq<Target>, lines: seq<Line>)
    requires |lines| == |rs| && Total(lines) == amount && forall i :: 0 <= i < |rs| ==> Granted(rs, ts, lines, i)
    ensures Fits(amount, ts, lines)
  {
    hide Pays;
    forall i, j | 0 <= i < j < |lines| ensures lines[i].target != lines[j].target {
      assert Granted(rs, ts, lines, i) && Granted(rs, ts, lines, j);
    }
    forall l | l in lines ensures Pays(ts, l) {
      var i :| 0 <= i < |lines| && lines[i] == l;
      assert Granted(rs, ts, lines, i);
    }
  }

  lemma {:induction false} GrantNext(rs: seq<Request>, ts: seq<Target>, lines: seq<Line>, l: Line)
    requires |lines| < |rs| && Total(lines) == Requested(rs[..|lines|])
    requires l.target == rs[|lines|].target && l.amount == rs[|lines|].amount && Pays(ts, l) && RequestFits(rs, ts, |lines|)
    requires forall j :: 0 <= j < |lines| ==> Granted(rs, ts, lines, j)
    ensures forall j :: 0 <= j < |lines| + 1 ==> Granted(rs, ts, lines + [l], j)
    ensures Total(lines + [l]) == Requested(rs[..|lines|+1])
  {
    hide Pays, RequestFits;
    TotalSnoc(lines, l);
    assert rs[..|lines|+1][..|lines|] == rs[..|lines|];
    forall j | 0 <= j < |lines| ensures Granted(rs, ts, lines + [l], j) { assert Granted(rs, ts, lines, j); }
  }

  /** The owner names the lines; accepted exactly when every one of them holds and they make up the payment. */
  method PlanManual(amount: int, rs: seq<Request>, ts: seq<Target>) returns (plan: Plan)
    requires Keyed(ts)
    ensures plan.Planned? <==> Acceptable(amount, rs, ts)
    ensures plan.Planned? ==> Fits(amount, ts, plan.lines) && |plan.lines| == |rs|
    ensures plan.Planned? ==> forall i :: 0 <= i < |rs| ==> plan.lines[i].target == rs[i].target && plan.lines[i].amount == rs[i].amount
  {
    hide Pays;
    if amount <= 0 { return Refused("payment amount must be a positive amount"); }
    if rs == [] { return Refused("no allocations specified"); }
    var byId := ById(ts);
    var seen: set<nat> := {};
    var lines: seq<Line> := [];
    for i := 0 to |rs|
      invariant |lines| == i && Total(lines) == Requested(rs[..i])
      invariant forall id :: id in seen <==> exists j :: 0 <= j < i && rs[j].target == id
      invariant forall j :: 0 <= j < i ==> Granted(rs, ts, lines, j)
    {
      hide Granted, Total, Requested, Keyed;
      var req := rs[i];
      assert Acceptable(amount, rs, ts) ==> RequestFits(rs, ts, i);
      if req.amount <= 0 { return Refused("allocation must be a positive amount"); }
      if req.target in seen { return Refused("target allocated more than once"); }
      seen := seen + {req.target};
      if req.target !in byId { return Refused("target is not an open invoice or bill for this party"); }
      var t := byId[req.target];
      if req.amount > t.balance {
        OneById(ts, t);
        return Refused("allocation exceeds its open balance");
      }
      var l := Line(req.target, req.amount, t.balance - req.amount);
      PaysTarget(ts, t, l);
      GrantNext(rs, ts, lines, l);
      lines := lines + [l];
    }
    assert rs[..|rs|] == rs;
    if Total(lines) != amount { return Refused("allocations do not sum to the payment"); }
    GrantedFits(amount, rs, ts, lines);
    forall i | 0 <= i < |rs| ensures RequestFits(rs, ts, i) && lines[i].target == rs[i].target && lines[i].amount == rs[i].amount {
      assert Granted(rs, ts, lines, i);
    }
    return Planned(lines);
  }

  lemma OneById(ts: seq<Target>, t: Target)
    requires Keyed(ts) && t in ts
    ensures forall u :: u in ts && u.id == t.id ==> u == t
  {
  }

  lemma PaysTarget(ts: seq<Target>, t: Target, l: Line)
    requires t in ts && l.target == t.id && 0 < l.amount <= t.balance && l.newBalance == t.balance - l.amount
    ensures Pays(ts, l)
  {
  }
}
