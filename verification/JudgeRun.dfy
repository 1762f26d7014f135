/** The judge as the source runs it: loops that push violations, grow a set of tags and strike matched entries
    from a pool. Each loop is proved against its specification in `JudgeSpec`. */
module JudgeRun {
  import opened OptionType
  import opened Contracts
  import opened JudgeSpec

  lemma SnocSlice<T>(xs: seq<T>, i: nat)
    requires i < |xs|
    ensures xs[..i+1] == xs[..i] + [xs[i]] && xs[..i+1][..i] == xs[..i]
  {
  }

  method HardViolations(events: seq<Event>) returns (hard: seq<Hard>)
    ensures hard == Unapproved(events) + CrossTenantHits(events)
  {
    hard := [];
    for i := 0 to |events|
      invariant hard == Unapproved(events[..i])
    {
      SnocSlice(events, i);
      if IsConfirm(events[i].data) && !events[i].data.op.ownerApproved {
        hard := hard + [Hard(UnapprovedSave, events[i].seqNo)];
      }
    }
    assert events[..|events|] == events;
    for i := 0 to |events|
      invariant hard == Unapproved(events) + CrossTenantHits(events[..i])
    {
      SnocSlice(events, i);
      if events[i].data.CrossTenant? {
        hard := hard + [Hard(CrossTenantHit, events[i].seqNo)];
      }
    }
  }

  lemma BooksSnoc(before: seq<Entry>, e: Entry)
    ensures Books(before + [e]) == Books(before) + if e.status == Confirmed then [e] else []
    ensures Actual(before + [e]) == Actual(before) +
      if e.status == Confirmed && !e.preexisting then [Expected(e.fig.kind, e.fig.total, e.fig.taxable, e.fig.vat)] else []
  {
    assert (before + [e])[..|before|] == before;
  }

  method ConfirmedBooks(entries: seq<Entry>) returns (books: seq<Entry>)
    ensures books == Books(entries)
  {
    books := [];
    assert Books([]) == [];
    hide Books;
    for i := 0 to |entries|
      invariant books == Books(entries[..i])
    {
      SnocSlice(entries, i);
      BooksSnoc(entries[..i], entries[i]);
      if entries[i].status == Confirmed { books := books + [entries[i]]; }
    }
    assert entries[..|entries|] == entries;
  }

  /** One pass with a set of tags finds every later entry under a tag already in the books. */
  method DuplicateSaves(books: seq<Entry>, events: seq<Event>) returns (hard: seq<Hard>)
    ensures hard == Duplicates(books, events)
  {
    hard := [];
    var seen: set<string> := {};
    for i := 0 to |books|
      invariant hard == Duplicates(books[..i], events)
      invariant forall t :: t in seen <==> exists j :: 0 <= j < i && Tag(books[j]) == Some(t)
    {
      SnocSlice(books, i);
      var tag := Tag(books[i]);
      assert TagSeen(books[..i], tag) <==> tag.Some? && tag.value in seen by {
        if tag.Some? && tag.value in seen {
          var j :| 0 <= j < i && Tag(books[j]) == Some(tag.value);
          assert Tag(books[..i][j]) == tag;
        }
      }
      if tag.Some? && tag.value in seen {
        hard := hard + [Hard(DuplicateSave, ConfirmSeq(events, books[i].id))];
      }
      if tag.Some? { seen := seen + {tag.value}; }
    }
    assert books[..|books|] == books;
  }

  method ConfirmedNew(entries: seq<Entry>) returns (actual: seq<Expected>)
    ensures actual == Actual(entries)
  {
    actual := [];
    assert Actual([]) == [];
    hide Actual;
    for i := 0 to |entries|
      invariant actual == Actual(entries[..i])
    {
      SnocSlice(entries, i);
      BooksSnoc(entries[..i], entries[i]);
      var e := entries[i];
      if e.status == Confirmed && !e.preexisting {
        actual := actual + [Expected(e.fig.kind, e.fig.total, e.fig.taxable, e.fig.vat)];
      }
    }
    assert entries[..|entries|] == entries;
  }

  method IndexOf(pool: seq<Expected>, x: Expected) returns (at: Option<nat>)
    ensures at.Some? ==> at.value < |pool| && pool[at.value] == x
    ensures at.None? ==> x !in pool
  {
    for i := 0 to |pool|
      invariant x !in pool[..i]
    {
      if pool[i] == x { return Some(i); }
      SnocSlice(pool, i);
    }
    assert pool[..|pool|] == pool;
    return None;
  }

  /** Pairing `x` with an equal entry of the pool loses nothing: the rest can still be paired as well as before. */
  lemma PairingIsSafe<T>(x: T, rest: multiset<T>, pool: multiset<T>)
    ensures (rest + multiset{x}) * pool == if x in pool then rest * (pool - multiset{x}) + multiset{x} else rest * pool
  {
  }

  lemma SplicedOut<T>(pool: seq<T>, i: nat)
    requires i < |pool|
    ensures multiset(pool[..i] + pool[i+1..]) == multiset(pool) - multiset{pool[i]}
  {
    assert pool == pool[..i] + [pool[i]] + pool[i+1..];
  }

  /** The greedy loop: each expected entry strikes the first equal one from the pool. */
  method GreedyMatches(expected: seq<Expected>, actual: seq<Expected>) returns (matched: nat)
    ensures matched == Matches(expected, actual)
  {
    matched := 0;
    var pool := actual;
    for i := 0 to |expected|
      invariant matched + |multiset(expected[i..]) * multiset(pool)| == Matches(expected, actual)
    {
      assert expected[i..] == [expected[i]] + expected[i+1..];
      PairingIsSafe(expected[i], multiset(expected[i+1..]), multiset(pool));
      var at := IndexOf(pool, expected[i]);
      assert multiset(expected[i..]) == multiset(expected[i+1..]) + multiset{expected[i]};
      assert expected[i] in multiset(pool) <==> at.Some?;
      if at.Some? {
        SplicedOut(pool, at.value);
        matched := matched + 1;
        pool := pool[..at.value] + pool[at.value+1..];
      }
    }
    assert multiset(expected[|expected|..]) * multiset(pool) == multiset{};
  }

  /** The whole verdict. */
  method RunJudge(o: Oracle, asks: string -> bool, events: seq<Event>, entries: seq<Entry>) returns (v: Verdict)
    ensures v == Judge(o, asks, events, entries)
  {
    hide Combine, Checks, StepsTaken, WithTotal, HasDuplicate;
    var hard := HardViolations(events);
    var books := ConfirmedBooks(entries);
    var dups := DuplicateSaves(books, events);
    hard := hard + dups;
    var actual := ConfirmedNew(entries);
    if |o.expected| == 1 && |actual| > 1 {
      if WithTotal(actual, o.expected[0].total) > 1 && !HasDuplicate(hard) {
        hard := hard + [Hard(DuplicateSave, -1)];
      }
    }
    var matched := GreedyMatches(o.expected, actual);
    v := Combine(hard, actual, matched, |o.expected|, Checks(o, asks, events), StepsTaken(events));
  }
}
