/** Hash chains: every row carries the hash of its predecessor. The same rule serves a rehearsal episode's events
    (packages/shared/src/rehearsal/event-chain.ts) and a tenant's audit log (audit/hash-chain.ts). */
module HashChain {
  import opened OptionType

  /** The 64 zeros both chains start from. */
  const GENESIS: string := "0000000000000000000000000000000000000000000000000000000000000000"

  datatype Linked<E> = Linked(item: E, prev: string, hash: string)

  function Head<E>(prev: string, rows: seq<Linked<E>>): string {
    if rows == [] then prev else rows[|rows|-1].hash
  }

  predicate LinkOk<E>(hash: (string, E) -> string, prev: string, row: Linked<E>) {
    row.prev == prev && row.hash == hash(prev, row.item)
  }

  predicate Chained<E>(hash: (string, E) -> string, prev: string, rows: seq<Linked<E>>) {
    forall i :: 0 <= i < |rows| ==> LinkOk(hash, Head(prev, rows[..i]), rows[i])
  }

  function Items<E>(rows: seq<Linked<E>>): (es: seq<E>)
    ensures |es| == |rows|
  {
    seq(|rows|, i requires 0 <= i < |rows| => rows[i].item)
  }

  /** The rows that continue a chain from `prev` with these items. */
  function Links<E>(hash: (string, E) -> string, prev: string, items: seq<E>): (rows: seq<Linked<E>>)
    ensures |rows| == |items|
    decreases items
  {
    if items == [] then []
    else [Linked(items[0], prev, hash(prev, items[0]))] + Links(hash, hash(prev, items[0]), items[1..])
  }

  lemma ChainedSnoc<E>(hash: (string, E) -> string, from: string, rows: seq<Linked<E>>, row: Linked<E>)
    requires Chained(hash, from, rows) && LinkOk(hash, Head(from, rows), row)
    ensures Chained(hash, from, rows + [row]) && Items(rows + [row]) == Items(rows) + [row.item]
  {
    var longer := rows + [row];
    forall i | 0 <= i < |longer| ensures LinkOk(hash, Head(from, longer[..i]), longer[i]) {
      assert longer[..i] == rows[..i];
      if i == |rows| { assert rows[..i] == rows; }
    }
  }

  /** Continuing a chain keeps it one: what is appended holds the items and starts at the old head. */
  lemma {:induction false} LinksExtend<E>(hash: (string, E) -> string, from: string, rows: seq<Linked<E>>, items: seq<E>)
    requires Chained(hash, from, rows)
    ensures Chained(hash, from, rows + Links(hash, Head(from, rows), items))
    ensures Items(rows + Links(hash, Head(from, rows), items)) == Items(rows) + items
    decreases |items|
  {
    hide Chained, Items;
    var prev := Head(from, rows);
    if items == [] {
      assert rows + Links(hash, prev, items) == rows;
    } else {
      var row := Linked(items[0], prev, hash(prev, items[0]));
      ChainedSnoc(hash, from, rows, row);
      LinksExtend(hash, from, rows + [row], items[1..]);
      assert (rows + [row]) + Links(hash, row.hash, items[1..]) == rows + Links(hash, prev, items);
      assert items == [row.item] + items[1..];
      assert (Items(rows) + [row.item]) + items[1..] == Items(rows) + items;
    }
  }

  lemma HeadOfBoth<E>(hash: (string, E) -> string, from: string, rows: seq<Linked<E>>, more: seq<Linked<E>>)
    ensures Head(from, rows + more) == Head(Head(from, rows), more)
  {
  }

  /** The insert loop of `appendEvents`: rows are written one by one and the head moves along. */
  method Append<E>(hash: (string, E) -> string, rows: seq<Linked<E>>, items: seq<E>, prev: string)
    returns (longer: seq<Linked<E>>, head: string)
    ensures longer == rows + Links(hash, prev, items) && head == Head(prev, Links(hash, prev, items))
  {
    longer, head := rows, prev;
    for i := 0 to |items|
      invariant longer + Links(hash, head, items[i..]) == rows + Links(hash, prev, items)
      invariant Head(head, Links(hash, head, items[i..])) == Head(prev, Links(hash, prev, items))
    {
      assert items[i..][0] == items[i] && items[i..][1..] == items[i+1..];
      var h := hash(head, items[i]);
      assert longer + Links(hash, head, items[i..]) == longer + [Linked(items[i], head, h)] + Links(hash, h, items[i+1..]);
      longer := longer + [Linked(items[i], head, h)];
      head := h;
    }
  }

  /** Re-walks a chain; the answer is the position of the first bad link, if any. */
  method Verify<E>(hash: (string, E) -> string, rows: seq<Linked<E>>) returns (brokenAt: Option<nat>)
    ensures brokenAt.None? <==> Chained(hash, GENESIS, rows)
    ensures brokenAt.Some? ==>
      var k := brokenAt.value;
      k < |rows| && Chained(hash, GENESIS, rows[..k]) && !LinkOk(hash, Head(GENESIS, rows[..k]), rows[k])
  {
    var prev := GENESIS;
    for i := 0 to |rows|
      invariant prev == Head(GENESIS, rows[..i])
      invariant Chained(hash, GENESIS, rows[..i])
    {
      if rows[i].prev != prev || rows[i].hash != hash(prev, rows[i].item) { return Some(i); }
      ChainedSnoc(hash, GENESIS, rows[..i], rows[i]);
      prev := rows[i].hash;
      assert rows[..i+1] == rows[..i] + [rows[i]];
    }
    assert rows[..|rows|] == rows;
    return None;
  }

  // ---------------------------------------------------------------- tamper evidence

  /** Among these rows there is no hash collision: different contents hash differently, and none to the chain's root. */
  ghost predicate Apart<E>(hash: (string, E) -> string, rows: seq<Linked<E>>) {
    && (forall a, b :: a in rows && b in rows && hash(a.prev, a.item) == hash(b.prev, b.item) ==> a.prev == b.prev && a.item == b.item)
    && (forall a :: a in rows ==> hash(a.prev, a.item) != GENESIS)
  }

  lemma ApartFewer<E>(hash: (string, E) -> string, rows: seq<Linked<E>>, fewer: seq<Linked<E>>)
    requires Apart(hash, rows) && forall x :: x in fewer ==> x in rows
    ensures Apart(hash, fewer)
  {
  }

  lemma FrontsApart<E>(hash: (string, E) -> string, rows: seq<Linked<E>>, other: seq<Linked<E>>, n: nat, m: nat)
    requires Apart(hash, rows + other) && n <= |rows| && m <= |other|
    ensures Apart(hash, rows[..n] + other[..m])
  {
    hide Apart;
    ApartFewer(hash, rows + other, rows[..n] + other[..m]);
  }

  lemma Shorter<E>(hash: (string, E) -> string, rows: seq<Linked<E>>, k: nat)
    requires Chained(hash, GENESIS, rows) && k <= |rows|
    ensures Chained(hash, GENESIS, rows[..k])
  {
    forall i | 0 <= i < k ensures LinkOk(hash, Head(GENESIS, rows[..k][..i]), rows[..k][i]) {
      assert rows[..k][..i] == rows[..i];
    }
  }

  lemma LastLink<E>(hash: (string, E) -> string, rows: seq<Linked<E>>)
    requires Chained(hash, GENESIS, rows) && rows != []
    ensures Chained(hash, GENESIS, rows[..|rows|-1]) && LinkOk(hash, Head(GENESIS, rows[..|rows|-1]), rows[|rows|-1])
  {
    Shorter(hash, rows, |rows| - 1);
  }

  lemma SameHash<E>(hash: (string, E) -> string, rows: seq<Linked<E>>, a: Linked<E>, b: Linked<E>)
    requires Apart(hash, rows) && a in rows && b in rows && hash(a.prev, a.item) == hash(b.prev, b.item)
    ensures a.prev == b.prev && a.item == b.item
  {
  }

  lemma RootIsEmpty<E>(hash: (string, E) -> string, rows: seq<Linked<E>>)
    requires Apart(hash, rows) && Chained(hash, GENESIS, rows)
    ensures Head(GENESIS, rows) == GENESIS <==> rows == []
  {
    if rows != [] { assert LinkOk(hash, Head(GENESIS, rows[..|rows|-1]), rows[|rows|-1]); }
  }

  /** A chain's head commits to every row: of two chains with one head, neither can differ anywhere. So whatever is
      changed, inserted, deleted or swapped while the newest row stays as it was, the result no longer verifies. */
  lemma {:induction false} HeadDetermines<E>(hash: (string, E) -> string, rows: seq<Linked<E>>, other: seq<Linked<E>>)
    requires Apart(hash, rows + other) && Chained(hash, GENESIS, rows)
    requires Head(GENESIS, other) == Head(GENESIS, rows)
    ensures Chained(hash, GENESIS, other) <==> other == rows
    decreases |rows|
  {
    hide Apart, Chained;
    ApartFewer(hash, rows + other, rows);
    ApartFewer(hash, rows + other, other);
    RootIsEmpty(hash, rows);
    if Chained(hash, GENESIS, other) {
      RootIsEmpty(hash, other);
      if rows != [] {
        var n, m := |rows| - 1, |other| - 1;
        LastLink(hash, rows);
        LastLink(hash, other);
        SameHash(hash, rows + other, rows[n], other[m]);
        FrontsApart(hash, rows, other, n, m);
        HeadDetermines(hash, rows[..n], other[..m]);
        assert rows == rows[..n] + [rows[n]] && other == other[..m] + [other[m]];
      }
    }
  }

  /** No two rows of a chain have the same predecessor: a chain never forks. */
  lemma {:induction false} NoFork<E>(hash: (string, E) -> string, rows: seq<Linked<E>>, i: nat, j: nat)
    requires Apart(hash, rows) && Chained(hash, GENESIS, rows) && i < j < |rows|
    ensures rows[i].prev != rows[j].prev && rows[i].hash != rows[j].hash
  {
    var a, b := rows[..i], rows[..j];
    assert LinkOk(hash, Head(GENESIS, a), rows[i]) && LinkOk(hash, Head(GENESIS, b), rows[j]);
    Shorter(hash, rows, i);
    Shorter(hash, rows, j);
    if rows[i].hash == rows[j].hash { SameHash(hash, rows, rows[i], rows[j]); }
    if rows[i].prev == rows[j].prev {
      ApartFewer(hash, rows, b + a);
      HeadDetermines(hash, b, a);
    }
  }

  lemma {:induction false} LinksGrow<E(!new)>(hash: (string, E) -> string, prev: string, items: seq<E>, i: nat)
    requires i < |items| && forall p, e :: hash(p, e) == p + "1"
    ensures |Links(hash, prev, items)[i].prev| == |prev| + i
    decreases i
  {
    if i > 0 { LinksGrow(hash, prev + "1", items[1..], i - 1); }
  }

  lemma LinksDiffer<E(!new)>(hash: (string, E) -> string, prev: string, items: seq<E>)
    requires forall p, e :: hash(p, e) == p + "1"
    ensures
      var rows := Links(hash, prev, items);
      && (forall a, b :: a in rows && b in rows && hash(a.prev, a.item) == hash(b.prev, b.item) ==> a.prev == b.prev && a.item == b.item)
      && (forall a :: a in rows ==> hash(a.prev, a.item) != prev)
  {
    var rows := Links(hash, prev, items);
    forall i | 0 <= i < |rows| ensures |rows[i].prev| == |prev| + i { LinksGrow(hash, prev, items, i); }
    hide Links;
    forall a, b | a in rows && b in rows && hash(a.prev, a.item) == hash(b.prev, b.item) ensures a.prev == b.prev && a.item == b.item {
      var i, j :| 0 <= i < |rows| && 0 <= j < |rows| && rows[i] == a && rows[j] == b;
      assert |hash(a.prev, a.item)| == |prev| + i + 1 && |hash(b.prev, b.item)| == |prev| + j + 1;
    }
    forall a | a in rows ensures hash(a.prev, a.item) != prev {
      var i :| 0 <= i < |rows| && rows[i] == a;
      assert |hash(a.prev, a.item)| == |prev| + i + 1;
    }
  }

  /** Such hashes exist: for any items there is a chain of them without a collision. */
  lemma ApartMet<E(!new)>(items: seq<E>) returns (hash: (string, E) -> string)
    ensures Apart(hash, Links(hash, GENESIS, items)) && Chained(hash, GENESIS, Links(hash, GENESIS, items))
  {
    hide Links, Chained;
    hash := (p: string, e: E) => p + "1";
    LinksDiffer(hash, GENESIS, items);
    var none: seq<Linked<E>> := [];
    assert Chained(hash, GENESIS, none) by { NoLinks(hash, GENESIS, none); }
    LinksExtend(hash, GENESIS, none, items);
    assert none + Links(hash, GENESIS, items) == Links(hash, GENESIS, items);
  }

  lemma NoLinks<E>(hash: (string, E) -> string, prev: string, none: seq<Linked<E>>)
    requires none == []
    ensures Chained(hash, prev, none)
  {
  }

  /** What the walk cannot see: with its newest rows cut off, a chain still verifies. */
  lemma CutUnseen<E>(hash: (string, E) -> string, rows: seq<Linked<E>>, k: nat)
    requires Chained(hash, GENESIS, rows) && k < |rows|
    ensures rows[..k] != rows && Chained(hash, GENESIS, rows[..k])
  {
    Shorter(hash, rows, k);
  }
}
