/** What a reset owes, and why merging the final forms of its intents pays it exactly once. */
module ReplicaGoal {
  import opened Basics
  import opened CommandProtocol
  import opened Reservations
  import opened ServerState
  import opened ApplicationState
  import opened QuarantineStore
  import opened ReplicaClient

  /** What one reset owes: the entries finalized before it, and the intents it wrote down. */
  datatype Goal = Goal(prior: seq<Finalized>, pending: seq<Intent>, requestId: string, epoch: int)

  // ---- sorting keeps identities and totals ---

  lemma {:induction false} InsertTotal(items: seq<Finalized>, item: Finalized, collation: string -> real)
    ensures FinalizedTotal(InsertById(items, item, collation)) == FinalizedTotal(items) + item.reserved
  {
    if items == [] || collation(items[|items| - 1].entry.id) <= collation(item.entry.id) {
      assert (items + [item])[..|items|] == items;
    } else {
      var rest := items[..|items| - 1];
      InsertTotal(rest, item, collation);
      var merged := InsertById(rest, item, collation);
      assert (merged + [items[|items| - 1]])[..|merged|] == merged;
    }
  }

  lemma {:induction false} SortTotal(items: seq<Finalized>, collation: string -> real)
    ensures FinalizedTotal(SortById(items, collation)) == FinalizedTotal(items)
  {
    if items != [] {
      SortTotal(items[..|items| - 1], collation);
      InsertTotal(SortById(items[..|items| - 1], collation), items[|items| - 1], collation);
    }
  }

  ghost function IdSet(items: seq<Finalized>): set<string> {
    if items == [] then {} else IdSet(items[..|items| - 1]) + {items[|items| - 1].entry.id}
  }

  lemma {:induction false} IdSetMember(items: seq<Finalized>, i: nat)
    requires i < |items|
    ensures items[i].entry.id in IdSet(items)
  {
    if i < |items| - 1 {
      IdSetMember(items[..|items| - 1], i);
    }
  }

  lemma {:induction false} IdSetWitness(items: seq<Finalized>, id: string) returns (i: nat)
    requires id in IdSet(items)
    ensures i < |items| && items[i].entry.id == id
  {
    if items[|items| - 1].entry.id == id {
      i := |items| - 1;
    } else {
      i := IdSetWitness(items[..|items| - 1], id);
    }
  }

  ghost predicate DistinctEntries(items: seq<Finalized>) {
    forall i, j :: 0 <= i < j < |items| ==> items[i].entry.id != items[j].entry.id
  }

  /** Entries are pairwise different exactly when they have as many identifiers as there are entries. */
  lemma {:induction false} DistinctByCount(items: seq<Finalized>)
    ensures |IdSet(items)| <= |items|
    ensures DistinctEntries(items) <==> |IdSet(items)| == |items|
  {
    if items != [] {
      var rest, last := items[..|items| - 1], items[|items| - 1].entry.id;
      DistinctByCount(rest);
      if last in IdSet(rest) {
        var i := IdSetWitness(rest, last);
        assert items[i].entry.id == items[|items| - 1].entry.id;
        assert IdSet(items) == IdSet(rest);
      } else {
        forall i | 0 <= i < |rest| ensures items[i].entry.id != last {
          IdSetMember(rest, i);
        }
        assert DistinctEntries(items) <==> DistinctEntries(rest);
      }
    }
  }

  lemma {:induction false} InsertIds(items: seq<Finalized>, item: Finalized, collation: string -> real)
    ensures IdSet(InsertById(items, item, collation)) == IdSet(items) + {item.entry.id}
    ensures |InsertById(items, item, collation)| == |items| + 1
  {
    if items == [] || collation(items[|items| - 1].entry.id) <= collation(item.entry.id) {
      assert (items + [item])[..|items|] == items;
    } else {
      var rest := items[..|items| - 1];
      InsertIds(rest, item, collation);
      var merged := InsertById(rest, item, collation);
      assert (merged + [items[|items| - 1]])[..|merged|] == merged;
    }
  }

  lemma {:induction false} SortIds(items: seq<Finalized>, collation: string -> real)
    ensures IdSet(SortById(items, collation)) == IdSet(items)
    ensures |SortById(items, collation)| == |items|
  {
    if items != [] {
      SortIds(items[..|items| - 1], collation);
      InsertIds(SortById(items[..|items| - 1], collation), items[|items| - 1], collation);
    }
  }

  lemma SortDistinct(items: seq<Finalized>, collation: string -> real)
    requires DistinctEntries(items)
    ensures DistinctEntries(SortById(items, collation))
  {
    hide DistinctEntries, IdSet, SortById;
    SortIds(items, collation);
    DistinctByCount(items);
    DistinctByCount(SortById(items, collation));
  }

  lemma DistinctIsUnique(items: seq<Finalized>)
    ensures DistinctEntries(items) <==> UniqueIds(FinalizedIds(items))
  {
    assert forall i :: 0 <= i < |items| ==> FinalizedIds(items)[i] == items[i].entry.id;
  }

  // ---- final forms ---

  /** A readable intent whose final form stays readable even when its payload is dropped. */
  ghost predicate SteadyIntent(item: Intent) {
    ReadableIntent(item) && EntryReservation(item.entry.(payload := None)) <= item.reserved
  }

  /** The n-th addition is the final form of the n-th intent, retained only if it was authorized at the
      start and its resource was approved at the end. */
  ghost predicate FinalForms(adds: seq<Finalized>, pending: seq<Intent>, approved: set<(string, string)>) {
    && |adds| <= |pending|
    && (forall k :: 0 <= k < |adds| ==>
          && adds[k] == Finalize(pending[k], adds[k].state.PendingReview?)
          && (adds[k].state.PendingReview? ==>
                pending[k].authorized && (pending[k].entry.resourceId, pending[k].entry.incarnationId) in approved))
  }

  /** A published quarantine that settles the goal: the earlier entries and one final form of each intent. */
  ghost predicate Recorded(m: seq<Finalized>, g: Goal, approved: set<(string, string)>) {
    && AllFinalized(m) && DistinctEntries(m)
    && |m| == |g.prior| + |g.pending|
    && FinalizedTotal(m) == FinalizedTotal(g.prior) + PendingTotal(g.pending)
    && Settles(m, g, approved)
  }

  ghost predicate Settles(m: seq<Finalized>, g: Goal, approved: set<(string, string)>) {
    exists adds :: |adds| == |g.pending| && FinalForms(adds, g.pending, approved) &&
        multiset(m) == multiset(g.prior) + multiset(adds)
  }

  lemma {:induction false} FormsTotal(adds: seq<Finalized>, pending: seq<Intent>, approved: set<(string, string)>)
    requires FinalForms(adds, pending, approved)
    ensures FinalizedTotal(adds) == PendingTotal(pending[..|adds|])
  {
    if adds != [] {
      var n := |adds| - 1;
      FormsTotal(adds[..n], pending, approved);
      assert pending[..|adds|][..n] == pending[..n];
    }
  }

  lemma {:induction false} TotalAppend(a: seq<Finalized>, b: seq<Finalized>)
    ensures FinalizedTotal(a + b) == FinalizedTotal(a) + FinalizedTotal(b)
  {
    if b == [] {
      assert a + b == a;
    } else {
      var n := |b| - 1;
      TotalAppend(a, b[..n]);
      assert (a + b)[..|a + b| - 1] == a + b[..n];
    }
  }

  ghost predicate DistinctGoal(g: Goal) {
    && DistinctEntries(g.prior)
    && (forall i, j :: 0 <= i < j < |g.pending| ==> g.pending[i].entry.id != g.pending[j].entry.id)
    && (forall i, j :: 0 <= i < |g.prior| && 0 <= j < |g.pending| ==> g.prior[i].entry.id != g.pending[j].entry.id)
  }

  lemma FormsDistinct(adds: seq<Finalized>, g: Goal, approved: set<(string, string)>)
    requires DistinctGoal(g) && FinalForms(adds, g.pending, approved)
    ensures DistinctEntries(g.prior + adds)
  {
    assert forall k :: 0 <= k < |adds| ==> adds[k].entry.id == g.pending[k].entry.id;
  }

  lemma FormsReadable(adds: seq<Finalized>, g: Goal, approved: set<(string, string)>)
    requires AllFinalized(g.prior) && (forall i :: 0 <= i < |g.pending| ==> SteadyIntent(g.pending[i]))
    requires FinalForms(adds, g.pending, approved)
    ensures AllFinalized(g.prior + adds)
  {
    hide ReadableFinalized, SteadyIntent, Finalize;
    forall k | 0 <= k < |adds| ensures ReadableFinalized(adds[k]) {
      SteadyFinal(g.pending[k], adds[k].state.PendingReview?);
    }
  }

  lemma SteadyFinal(item: Intent, visible: bool)
    requires SteadyIntent(item)
    ensures ReadableFinalized(Finalize(item, visible)) &&
        FinalizedBytes(item.entry, visible, item.reserved) <= item.reserved
  {
    FinalizeFits(item, visible);
    hide ReadableFinalized, FinalizedBytes, Finalize, EntryReservation;
  }

  lemma {:induction false} SortReadable(items: seq<Finalized>, collation: string -> real)
    requires AllFinalized(items)
    ensures AllFinalized(SortById(items, collation))
  {
    hide ReadableFinalized;
    SortOrdered(items, collation);
    var sorted := SortById(items, collation);
    forall i | 0 <= i < |sorted| ensures ReadableFinalized(sorted[i]) {
      assert sorted[i] in multiset(sorted);
      assert sorted[i] in multiset(items);
    }
  }

  /** Merging the complete additions settles the goal. */
  lemma MergeRecords(g: Goal, adds: seq<Finalized>, approved: set<(string, string)>, collation: string -> real)
    requires Intact(g) && |adds| == |g.pending| && FinalForms(adds, g.pending, approved)
    ensures Recorded(SortById(g.prior + adds, collation), g, approved)
    ensures DistinctEntries(g.prior + adds)
  {
    hide FinalForms, AllFinalized, DistinctEntries, DistinctGoal, SortById, FinalizedTotal, PendingTotal, SteadyIntent;
    var all := g.prior + adds;
    FormsDistinct(adds, g, approved);
    FormsReadable(adds, g, approved);
    FormsTotal(adds, g.pending, approved);
    assert g.pending[..|adds|] == g.pending;
    TotalAppend(g.prior, adds);
    SortTotal(all, collation);
    SortDistinct(all, collation);
    SortReadable(all, collation);
    SortOrdered(all, collation);
    SortIds(all, collation);
    assert multiset(all) == multiset(g.prior) + multiset(adds);
  }

  /** Merging a settled store with nothing leaves it settled. */
  lemma RemergeRecords(m: seq<Finalized>, g: Goal, approved: set<(string, string)>, collation: string -> real)
    requires Recorded(m, g, approved)
    ensures Recorded(SortById(m, collation), g, approved)
  {
    hide FinalForms, AllFinalized, DistinctEntries, SortById, FinalizedTotal, PendingTotal;
    SortTotal(m, collation);
    SortDistinct(m, collation);
    SortReadable(m, collation);
    SortOrdered(m, collation);
    SortIds(m, collation);
  }

  /** What a snapshot must be like for the reset to be able to read it again and again. */
  ghost predicate Intact(g: Goal) {
    && AllFinalized(g.prior) && (forall i :: 0 <= i < |g.pending| ==> SteadyIntent(g.pending[i]))
    && DistinctGoal(g)
  }

  lemma IntactUnique(g: Goal)
    requires DistinctGoal(g)
    ensures UniqueIds(StoreIds(Store(g.prior, g.pending)))
  {
    var ids, n := StoreIds(Store(g.prior, g.pending)), |g.prior|;
    assert forall i :: 0 <= i < n ==> ids[i] == g.prior[i].entry.id;
    assert forall i :: 0 <= i < |g.pending| ==> ids[n + i] == g.pending[i].entry.id;
  }

  lemma IntactPending(g: Goal)
    requires forall i :: 0 <= i < |g.pending| ==> SteadyIntent(g.pending[i])
    ensures AllPending(g.pending)
  {
    hide ReadableIntent, EntryReservation;
    forall i | 0 <= i < |g.pending| ensures ReadableIntent(g.pending[i]) {
      assert SteadyIntent(g.pending[i]);
    }
  }

  lemma IntactReads(g: Goal)
    requires Intact(g)
    ensures ReadBack(Some(Store(g.prior, g.pending))) == Ok(Store(g.prior, g.pending))
  {
    hide AllPending, AllFinalized, UniqueIds, DistinctGoal, SteadyIntent, ReadStore, WriteStore, StoreIds;
    IntactUnique(g);
    IntactPending(g);
    StoreRoundTrip(Store(g.prior, g.pending));
  }

  lemma RecordedReads(m: seq<Finalized>)
    requires AllFinalized(m) && DistinctEntries(m)
    ensures ReadBack(Some(Store(m, []))) == Ok(Store(m, []))
  {
    var store := Store(m, []);
    assert UniqueIds(StoreIds(store)) by {
      assert forall i :: 0 <= i < |m| ==> StoreIds(store)[i] == m[i].entry.id;
    }
    hide AllFinalized, UniqueIds, DistinctEntries, ReadStore, WriteStore;
    StoreRoundTrip(store);
  }
}
