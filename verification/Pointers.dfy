/** Placements as the source stores them: pointers into the kings' backing array, which appends may
    replace and the cleaner compacts in place. When a cleaner pass agrees with the pass by value. */
module Pointers {
  import opened Basics
  import opened CouncilState
  import opened Cleaner

  /** A cell of some backing array: &Kings[i].Host and &Kings[i].BindPort are taken together. */
  datatype Ptr = Ptr(block: nat, index: nat)

  /** A service that keeps its address by pointer; the host and bind port of info are not in use. */
  datatype PtrService = PtrService(info: Service, at: Option<Ptr>)

  /** Every backing array of the kings ever allocated, spare cells included; the kings slice is the first len
      cells of the last one. */
  datatype PtrState = PtrState(revision: int, services: seq<PtrService>, heap: seq<seq<King>>, len: nat,
    lings: seq<Ling>)

  predicate InHeap(heap: seq<seq<King>>, at: Ptr) {
    at.block < |heap| && at.index < |heap[at.block]|
  }

  /** A pointer refers to an abandoned array or to a king in the slice, never to a spare cell. */
  predicate Anchored(p: PtrState) {
    && p.heap != [] && p.len <= |Last(p.heap)|
    && forall i :: 0 <= i < |p.services| && p.services[i].at.Some? ==> AnchoredAt(p.heap, p.len, p.services[i].at.value)
  }

  predicate AnchoredAt(heap: seq<seq<King>>, len: nat, at: Ptr) {
    InHeap(heap, at) && (at.block == |heap| - 1 ==> at.index < len)
  }

  function Kings(p: PtrState): seq<King>
    requires Anchored(p)
  {
    Last(p.heap)[..p.len]
  }

  function Cell(heap: seq<seq<King>>, at: Ptr): King
    requires InHeap(heap, at)
  {
    heap[at.block][at.index]
  }

  /** The service with the address its pointers read. */
  function ReadService(heap: seq<seq<King>>, s: PtrService): Service
    requires s.at.Some? ==> InHeap(heap, s.at.value)
  {
    match s.at
    case None => s.info.(host := None, bindPort := None)
    case Some(at) => s.info.(host := Some(Cell(heap, at).host), bindPort := Some(Cell(heap, at).bindPort))
  }

  predicate AllInHeap(heap: seq<seq<King>>, services: seq<PtrService>) {
    forall i :: 0 <= i < |services| && services[i].at.Some? ==> InHeap(heap, services[i].at.value)
  }

  function ReadAll(heap: seq<seq<King>>, services: seq<PtrService>): seq<Service>
    requires AllInHeap(heap, services)
  {
    seq(|services|, i requires 0 <= i < |services| => ReadService(heap, services[i]))
  }

  /** The council's state as the pointers show it. */
  function Abstract(p: PtrState): State
    requires Anchored(p)
  {
    State(p.revision, ReadAll(p.heap, p.services), Kings(p), p.lings)
  }

  // ---------------------------------------------------------------- the cleaner

  function SetLast(heap: seq<seq<King>>, block: seq<King>): seq<seq<King>>
    requires heap != []
  {
    heap[|heap| - 1 := block]
  }

  /** The compacted array: kept kings in front, and behind them what was there before. */
  function Compacted(block: seq<King>, len: nat, threshold: int): seq<King>
    requires len <= |block|
    ensures |Filter(FreshKing(threshold), block[..len])| <= len
  {
    FilterLength(FreshKing(threshold), block[..len]);
    var kept := Filter(FreshKing(threshold), block[..len]);
    kept + block[|kept|..]
  }

  function KeepsPtr(heap: seq<seq<King>>, kings: seq<King>, lings: seq<Ling>): PtrService -> bool {
    (s: PtrService) =>
      HasLing(lings, s.info.lingID) && (s.at.Some? && InHeap(heap, s.at.value) ==> HasKing(kings, ReadService(heap, s)))
  }

  /** A cleaner pass: the kings are compacted first, and services are then kept by what their pointers read. */
  function CleanByPointer(p: PtrState, threshold: int): PtrState
    requires Anchored(p)
  {
    var kept := Filter(FreshKing(threshold), Kings(p));
    var heap := SetLast(p.heap, Compacted(Last(p.heap), p.len, threshold));
    var lings := Filter(FreshLing(threshold), p.lings);
    var services := Filter(KeepsPtr(heap, kept, lings), p.services);
    var changed := |kept| < p.len || |lings| < |p.lings| || |services| < |p.services|;
    PtrState(if changed then p.revision + 1 else p.revision, services, heap, |kept|, lings)
  }

  predicate Stale(p: PtrState, threshold: int, i: int)
    requires Anchored(p)
  {
    0 <= i < p.len && !FreshKing(threshold)(Kings(p)[i])
  }

  function KeptKings(p: PtrState, threshold: int): seq<King>
    requires Anchored(p)
  {
    Filter(FreshKing(threshold), Kings(p))
  }

  function KeptLings(p: PtrState, threshold: int): seq<Ling> {
    Filter(FreshLing(threshold), p.lings)
  }

  /** The cell is at or behind a king that goes, and its own king stays or another moves in. */
  predicate Shifted(p: PtrState, threshold: int, at: Ptr)
    requires Anchored(p)
  {
    && at.block == |p.heap| - 1
    && (exists j :: 0 <= j <= at.index && Stale(p, threshold, j))
    && (!Stale(p, threshold, at.index) || at.index < |KeptKings(p, threshold)|)
  }

  /** The service keeps its ling, and points at a shifted cell. */
  predicate ShiftsService(p: PtrState, threshold: int, s: PtrService)
    requires Anchored(p)
  {
    s.at.Some? && HasLing(KeptLings(p, threshold), s.info.lingID) && Shifted(p, threshold, s.at.value)
  }

  /** No service that keeps its ling points at a shifted cell. */
  predicate NoneShifted(p: PtrState, threshold: int)
    requires Anchored(p)
  {
    forall i :: 0 <= i < |p.services| ==> !ShiftsService(p, threshold, p.services[i])
  }

  /** The stale kings are the last ones to have registered. */
  predicate SuffixStale(p: PtrState, threshold: int)
    requires Anchored(p)
  {
    forall i, j :: 0 <= i < j < p.len && Stale(p, threshold, i) ==> Stale(p, threshold, j)
  }

  lemma SuffixKeeps(p: PtrState, threshold: int, n: nat)
    requires Anchored(p) && n <= p.len && forall i :: n <= i < p.len ==> Stale(p, threshold, i)
    ensures |KeptKings(p, threshold)| <= n
  {
    var keep, kings := FreshKing(threshold), Kings(p);
    assert kings == kings[..n] + kings[n..];
    FilterConcat(keep, kings[..n], kings[n..]);
    FilterLength(keep, kings[..n]);
    forall i | 0 <= i < |kings[n..]| ensures !keep(kings[n..][i]) {
      assert Stale(p, threshold, n + i);
    }
    FilterNone(keep, kings[n..]);
  }

  /** Removing a suffix shifts no cell. */
  lemma SuffixShiftsNothing(p: PtrState, threshold: int)
    requires Anchored(p) && SuffixStale(p, threshold)
    ensures NoneShifted(p, threshold)
  {
    forall i | 0 <= i < |p.services| && p.services[i].at.Some? ensures !Shifted(p, threshold, p.services[i].at.value) {
      var at := p.services[i].at.value;
      if at.block == |p.heap| - 1 && Stale(p, threshold, at.index) {
        SuffixKeeps(p, threshold, at.index);
      }
    }
  }

  lemma PrefixKept(p: PtrState, threshold: int, i: nat)
    requires Anchored(p) && i < p.len && forall j :: 0 <= j <= i ==> !Stale(p, threshold, j)
    ensures i < |KeptKings(p, threshold)| && KeptKings(p, threshold)[i] == Kings(p)[i]
  {
    var keep, kings := FreshKing(threshold), Kings(p);
    var front := kings[..i + 1];
    assert kings == front + kings[i + 1..];
    FilterConcat(keep, front, kings[i + 1..]);
    FilterLength(keep, front);
    forall k | k in front ensures keep(k) {
      var a :| 0 <= a < |front| && front[a] == k;
      assert !Stale(p, threshold, a);
    }
  }

  /** Behind a stale king, the slice holds some later king after the pass. */
  lemma LaterMovesIn(p: PtrState, threshold: int, i: nat)
    requires Anchored(p) && i < |KeptKings(p, threshold)| && i < p.len
    requires exists j :: 0 <= j <= i && Stale(p, threshold, j)
    ensures KeptKings(p, threshold)[i] in Kings(p)[i + 1..]
  {
    var keep, kings := FreshKing(threshold), Kings(p);
    var front, back := kings[..i + 1], kings[i + 1..];
    assert kings == front + back;
    FilterConcat(keep, front, back);
    FilterLength(keep, front);
    var j :| 0 <= j <= i && Stale(p, threshold, j);
    assert front[j] in front;
    var k := KeptKings(p, threshold)[i];
    assert k == Filter(keep, back)[i - |Filter(keep, front)|];
    FilterMember(keep, back, k);
  }

  /** What a pass does to one pointer: unless its cell is shifted, it reads the same address, and it is
      either still anchored or its address is gone from the kings. */
  lemma UnshiftedReads(p: PtrState, threshold: int, at: Ptr)
    requires Anchored(p) && KingsUnique(Kings(p)) && AnchoredAt(p.heap, p.len, at) && !Shifted(p, threshold, at)
    ensures
      var q := CleanByPointer(p, threshold);
      && InHeap(q.heap, at) && SameAddress(Cell(q.heap, at), Cell(p.heap, at))
      && (!AnchoredAt(q.heap, q.len, at) ==>
           forall k :: k in KeptKings(p, threshold) ==> !SameAddress(Cell(p.heap, at), k))
  {
    var kept := KeptKings(p, threshold);
    if at.block == |p.heap| - 1 {
      if Stale(p, threshold, at.index) {
        forall k | k in kept ensures !SameAddress(Cell(p.heap, at), k) {
          FilterMember(FreshKing(threshold), Kings(p), k);
          var a :| 0 <= a < p.len && Kings(p)[a] == k;
          assert a != at.index;
          assert !SameAddress(Kings(p)[a], Kings(p)[at.index]) && !SameAddress(Kings(p)[at.index], Kings(p)[a]);
        }
      } else {
        PrefixKept(p, threshold, at.index);
      }
    }
  }

  /** Two readings of the same pointers filter alike when they agree on what is kept, and on what kept pointers read. */
  lemma {:induction false} FilterReads(
      before: seq<seq<King>>, after: seq<seq<King>>, keepPtr: PtrService -> bool, keepVal: Service -> bool,
      services: seq<PtrService>)
    requires AllInHeap(before, services) && AllInHeap(after, Filter(keepPtr, services))
    requires forall i :: 0 <= i < |services| ==> keepPtr(services[i]) == keepVal(ReadService(before, services[i]))
    requires forall i :: 0 <= i < |services| && keepPtr(services[i]) ==>
      && (services[i].at.Some? ==> InHeap(after, services[i].at.value))
      && ReadService(after, services[i]) == ReadService(before, services[i])
    ensures Filter(keepVal, ReadAll(before, services)) == ReadAll(after, Filter(keepPtr, services))
  {
    hide ReadService;
    if services != [] {
      var front := Front(services);
      assert forall i :: 0 <= i < |front| ==> front[i] == services[i];
      assert Front(ReadAll(before, services)) == ReadAll(before, front);
      if keepPtr(Last(services)) {
        var kept := Filter(keepPtr, front);
        assert forall i :: 0 <= i < |kept| ==> kept[i] == Filter(keepPtr, services)[i];
        FilterReads(before, after, keepPtr, keepVal, front);
        assert ReadAll(after, Filter(keepPtr, services)) == ReadAll(after, kept) + [ReadService(after, Last(services))];
      } else {
        FilterReads(before, after, keepPtr, keepVal, front);
      }
    }
  }

  /** Whether a service survives a pass is the same by pointer and by value, shifted cells aside. */
  lemma UnshiftedKept(p: PtrState, threshold: int, s: PtrService)
    requires Anchored(p) && KingsUnique(Kings(p)) && NoneShifted(p, threshold) && s in p.services
    ensures
      var q, kings, lings := CleanByPointer(p, threshold), KeptKings(p, threshold), KeptLings(p, threshold);
      && (s.at.Some? ==> InHeap(p.heap, s.at.value) && InHeap(q.heap, s.at.value))
      && KeepsPtr(q.heap, kings, lings)(s) == Retained(kings, lings)(ReadService(p.heap, s))
      && (KeepsPtr(q.heap, kings, lings)(s) ==>
           && ReadService(q.heap, s) == ReadService(p.heap, s)
           && (s.at.Some? ==> AnchoredAt(q.heap, q.len, s.at.value)))
  {
    hide Shifted, CleanByPointer, KingsUnique;
    var i :| 0 <= i < |p.services| && p.services[i] == s;
    var q := CleanByPointer(p, threshold);
    if s.at.Some? {
      CleanedHeap(p, threshold, s.at.value);
      if HasLing(KeptLings(p, threshold), s.info.lingID) {
        UnshiftedReads(p, threshold, s.at.value);
      }
    }
  }

  lemma CleanedHeap(p: PtrState, threshold: int, at: Ptr)
    requires Anchored(p) && AnchoredAt(p.heap, p.len, at)
    ensures InHeap(CleanByPointer(p, threshold).heap, at)
  {
  }

  /** A pass that shifts no service's cell keeps pointers and values in step. */
  lemma CleanCommutes(p: PtrState, threshold: int)
    requires Anchored(p) && KingsUnique(Kings(p)) && NoneShifted(p, threshold)
    ensures
      var q := CleanByPointer(p, threshold);
      Anchored(q) && Abstract(q) == CleanPass(Abstract(p), threshold)
  {
    hide Shifted, NoneShifted, KeepsPtr, Retained, ReadService, AnchoredAt, KingsUnique;
    var q, kings, lings := CleanByPointer(p, threshold), KeptKings(p, threshold), KeptLings(p, threshold);
    var keepPtr, keepVal := KeepsPtr(q.heap, kings, lings), Retained(kings, lings);
    AnchoredInHeap(p);
    forall s | s in p.services
      ensures
        && (s.at.Some? ==> InHeap(p.heap, s.at.value) && InHeap(q.heap, s.at.value))
        && keepPtr(s) == keepVal(ReadService(p.heap, s))
        && (keepPtr(s) ==>
             ReadService(q.heap, s) == ReadService(p.heap, s) && (s.at.Some? ==> AnchoredAt(q.heap, q.len, s.at.value)))
    {
      UnshiftedKept(p, threshold, s);
    }
    forall i | 0 <= i < |q.services| ensures q.services[i] in p.services && keepPtr(q.services[i]) {
      FilterMember(keepPtr, p.services, q.services[i]);
    }
    assert AllInHeap(q.heap, q.services);
    FilterReads(p.heap, q.heap, keepPtr, keepVal, p.services);
    assert Kings(q) == kings;
  }

  lemma AnchoredInHeap(p: PtrState)
    requires Anchored(p)
    ensures AllInHeap(p.heap, p.services)
  {
  }

  lemma ShiftedReads(p: PtrState, threshold: int, at: Ptr)
    requires Anchored(p) && KingsUnique(Kings(p)) && AnchoredAt(p.heap, p.len, at) && Shifted(p, threshold, at)
    ensures
      var q, kept := CleanByPointer(p, threshold), KeptKings(p, threshold);
      && InHeap(q.heap, at)
      && (exists k :: k in kept && SameAddress(Cell(q.heap, at), k))
      && (at.index < q.len ==> !SameAddress(Cell(q.heap, at), Cell(p.heap, at)))
  {
    var kept, kings := KeptKings(p, threshold), Kings(p);
    if at.index < |kept| {
      LaterMovesIn(p, threshold, at.index);
      var a :| 0 <= a < |kings[at.index + 1..]| && kings[at.index + 1..][a] == kept[at.index];
      assert !SameAddress(kings[at.index], kings[at.index + 1 + a]);
      assert kept[at.index] in kept;
    } else {
      FilterMember(FreshKing(threshold), kings, kings[at.index]);
    }
  }

  /** A pass that shifts the cell of a surviving service breaks the agreement: the service is left pointing
      at a spare cell, or it now reads another king's address. */
  lemma ShiftedDiverges(p: PtrState, threshold: int, i: nat)
    requires Anchored(p) && KingsUnique(Kings(p)) && i < |p.services| && DistinctIDs(Abstract(p).services)
    requires ShiftsService(p, threshold, p.services[i])
    ensures
      var q := CleanByPointer(p, threshold);
      !(Anchored(q) && Abstract(q) == CleanPass(Abstract(p), threshold))
  {
    hide Shifted, KingsUnique;
    var q, kept, lings := CleanByPointer(p, threshold), KeptKings(p, threshold), KeptLings(p, threshold);
    var s := p.services[i];
    ShiftedAtSlice(p, threshold, s.at.value);
    ShiftedReads(p, threshold, s.at.value);
    FilterMember(KeepsPtr(q.heap, kept, lings), p.services, s);
    var b :| 0 <= b < |q.services| && q.services[b] == s;
    if Anchored(q) {
      var v, was := Abstract(q).services[b], Abstract(p).services;
      assert AnchoredAt(q.heap, q.len, s.at.value);
      assert was[i].serviceID == v.serviceID;
      forall j | 0 <= j < |was| ensures was[j] != v {
        assert j < i ==> was[j].serviceID != was[i].serviceID;
        assert i < j ==> was[i].serviceID != was[j].serviceID;
      }
      FilterMember(Retained(kept, lings), was, v);
      assert v in Abstract(q).services;
    }
  }

  lemma ShiftedAtSlice(p: PtrState, threshold: int, at: Ptr)
    requires Anchored(p) && Shifted(p, threshold, at)
    ensures at.block == |p.heap| - 1
  {
  }

  /** With unique addresses and service IDs, a cleaner pass by pointer shows the pass by value exactly when it
      shifts no cell that a service with a ling points at. */
  lemma CleanCommutesIff(p: PtrState, threshold: int)
    requires Anchored(p) && KingsUnique(Kings(p)) && DistinctIDs(Abstract(p).services)
    ensures
      var q := CleanByPointer(p, threshold);
      Anchored(q) && Abstract(q) == CleanPass(Abstract(p), threshold) <==> NoneShifted(p, threshold)
  {
    hide Shifted, CleanByPointer, CleanPass, Abstract, KingsUnique;
    if NoneShifted(p, threshold) {
      CleanCommutes(p, threshold);
    } else {
      var i :| 0 <= i < |p.services| && ShiftsService(p, threshold, p.services[i]);
      ShiftedDiverges(p, threshold, i);
    }
  }
}
