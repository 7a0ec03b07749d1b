/**
 What the storage protocol needs from its surroundings, exactly: which purges may be begun,
 which deletions may fail, and that no data file is there and empty.
 */
module VfsHazards {
  import opened Assets
  import opened VfsProtocol
  import opened VfsGuarantees

  /** A row of the globals that the not-found shortcut hides. */
  ghost predicate HidesGlobal(s: State) {
    exists x :: x in GlobalRows(s) && x !in s.index
  }

  /** Handlers run in the order they were posted. */
  predicate InOrder(es: seq<Event>) {
    forall i :: 0 <= i < |es| && es[i].Handle? ==> es[i].which == 0
  }

  /** Some orderly run hides a global. */
  ghost predicate MayHide(s: State) {
    exists es :: OrderlyRun(s, es) && HidesGlobal(Run(s, es))
  }

  /** Some orderly run, with the handlers in order, hides a global. */
  ghost predicate CanHide(s: State) {
    exists es :: InOrder(es) && OrderlyRun(s, es) && HidesGlobal(Run(s, es))
  }

  lemma HidesNow(s: State, x: Id)
    requires x in GlobalRows(s) && x !in s.index
    ensures CanHide(s)
  {
    assert InOrder([]) && OrderlyRun(s, []) && HidesGlobal(Run(s, []));
  }

  lemma HidesLater(s: State, e: Event)
    requires Orderly(s, e) && (e.Handle? ==> e.which == 0) && CanHide(Apply(s, e))
    ensures CanHide(s)
  {
    hide Apply, Harmful, HarmfulFailure, HidesGlobal;
    var es :| InOrder(es) && OrderlyRun(Apply(s, e), es) && HidesGlobal(Run(Apply(s, e), es));
    var more := [e] + es;
    assert more[0] == e && more[1..] == es;
    assert InOrder(more) && OrderlyRun(s, more) && Run(s, more) == Run(Apply(s, e), es);
  }

  // ----- an id on its way out of the index, and a global of it on its way in -----

  predicate PutsGlobal(r: Request, x: Id) {
    r.Put? && !IsLocal(r.asset) && Uuid(r.asset) == x
  }

  /** The globals have a row of the id, or will have one when the worker comes to place k. */
  ghost predicate DueAt(s: State, k: nat, x: Id) {
    x in GlobalRows(s) || (k < |s.work| && PutsGlobal(s.work[k], x))
  }

  /** The index does not know the id, or will not when the posted handlers have run. */
  ghost predicate Leaving(s: State, x: Id) {
    x !in s.index || InSnapshot(s, x) || WriteFailed(x) in s.posted
  }

  /** One turn of the worker, on a global that is due. */
  lemma WorkKeepsDue(s: State, outcome: Outcome, k: nat, x: Id)
    requires s.work != [] && DueAt(s, k, x) && (k == 0 && x !in GlobalRows(s) ==> outcome == Fine)
    ensures DueAt(ApplyWork(s, outcome), if k == 0 then 0 else k - 1, x) && ApplyWork(s, outcome).index == s.index
    ensures k == 0 ==> x in GlobalRows(ApplyWork(s, outcome))
  {
    hide Uuid, Prefix, IsLocal, Lookup;
  }

  /** Running the first handler leaves the rows and the head of the queue alone; what was leaving still is. */
  lemma HandleKeepsLeaving(s: State, x: Id)
    requires s.posted != [] && Leaving(s, x)
    ensures var s' := ApplyHandle(s, 0);
      && Leaving(s', x) && LocalRows(s') == LocalRows(s) && GlobalRows(s') == GlobalRows(s)
      && (s'.work == s.work || exists p :: s'.work == s.work + [DeleteLocals(p)]) && |s'.posted| == |s.posted| - 1
  {
    var s' := ApplyHandle(s, 0);
    assert s.posted == [s.posted[0]] + s'.posted;
  }

  lemma LeavingHasHandler(s: State, x: Id)
    requires Leaving(s, x) && x in s.index
    ensures s.posted != []
  {
  }

  lemma {:induction false} DueHides(s: State, k: nat, x: Id)
    requires DueAt(s, k, x) && x !in s.index
    ensures CanHide(s)
    decreases k
  {
    hide CanHide, Uuid, IsLocal, DueAt, ApplyWork;
    if x in GlobalRows(s) {
      HidesNow(s, x);
    } else {
      assert s.work != [] by { DueIsQueued(s, k, x); }
      WorkKeepsDue(s, Fine, k, x);
      if k == 0 { HidesNow(ApplyWork(s, Fine), x); } else { DueHides(ApplyWork(s, Fine), k - 1, x); }
      HidesLater(s, Work(Fine));
    }
  }

  lemma DueIsQueued(s: State, k: nat, x: Id)
    requires DueAt(s, k, x) && x !in GlobalRows(s)
    ensures k < |s.work|
  {
  }

  /** An id whose global is due must not be leaving. */
  lemma {:induction false} LeavingHides(s: State, k: nat, x: Id)
    requires DueAt(s, k, x) && Leaving(s, x)
    ensures CanHide(s)
    decreases |s.posted|
  {
    hide CanHide, Uuid, IsLocal, ApplyHandle, Leaving;
    if x !in s.index {
      DueHides(s, k, x);
    } else {
      LeavingHasHandler(s, x);
      HandleKeepsLeaving(s, x);
      LeavingHides(ApplyHandle(s, 0), k, x);
      HidesLater(s, Handle(0));
    }
  }

  // ----- a row that a purge comes to -----

  /** The row of x is on disk, and the purge at place i will find it. */
  ghost predicate WillFind(s: State, i: nat, x: Id) {
    IsId(x) && x in LocalRows(s) && Comes(s.work, Prefix(x), i)
  }

  lemma WorkKeepsRow(s: State, outcome: Outcome, i: nat, x: Id)
    requires WillFind(s, i, x)
    ensures var s' := ApplyWork(s, outcome);
      if i > 0 then WillFind(s', i - 1, x) else x in LocalRows(s') && (outcome == Fine ==> Leaving(s', x))
  {
    PopDeletes(s.work);
    hide Uuid, Prefix, IsLocal, IsId, DeletedBetween, Lookup;
    var s' := ApplyWork(s, outcome);
    assert s.work[0] != DeleteLocals(Prefix(x));
    assert x in LocalRows(s');
    if i == 0 && outcome == Fine {
      assert s'.posted[|s.posted|] == Unindex(LocalsUnder(s, Prefix(x)), Prefix(x));
    }
  }

  /** A row whose global is due must not be found by a purge. */
  lemma {:induction false} DueRowHides(s: State, k: nat, i: nat, x: Id)
    requires DueAt(s, k, x) && WillFind(s, i, x)
    ensures CanHide(s)
    decreases i
  {
    hide CanHide, Uuid, Prefix, IsId, DueAt, Leaving, ApplyWork;
    var s', k' := ApplyWork(s, Fine), if k == 0 then 0 else k - 1;
    WorkKeepsDue(s, Fine, k, x);
    WorkKeepsRow(s, Fine, i, x);
    if i == 0 { LeavingHides(s', k', x); } else { DueRowHides(s', k', i - 1, x); }
    HidesLater(s, Work(Fine));
  }

  /** Storing an id again, as a global. */
  lemma AskedIsDue(s: State, x: Id)
    requires x !in s.index && IsId(x)
    ensures var s' := ApplyAskPut(s, GlobalWith(x));
      DueAt(s', |s.work|, x) && s'.work == s.work + [Put(GlobalWith(x), s.nextTag)] && LocalRows(s') == LocalRows(s)
  {
  }

  lemma PushKeepsComing(work: seq<Request>, r: Request, p: string, i: nat)
    requires Comes(work, p, i)
    ensures Comes(work + [r], p, i)
  {
    PushDeletes(work, r);
  }

  /** A row that is leaving the index must not be found by a purge. */
  lemma {:induction false} LeavingRowHides(s: State, i: nat, x: Id)
    requires Leaving(s, x) && WillFind(s, i, x)
    ensures CanHide(s)
    decreases |s.posted|
  {
    hide CanHide, Uuid, Prefix, IsId, IsLocal, Leaving, Comes, LocalRows, GlobalRows, DueAt;
    if x !in s.index {
      var s' := ApplyAskPut(s, GlobalWith(x));
      AskedIsDue(s, x);
      PushKeepsComing(s.work, Put(GlobalWith(x), s.nextTag), Prefix(x), i);
      DueRowHides(s', |s.work|, i, x);
      HidesLater(s, AskPut(GlobalWith(x)));
    } else {
      LeavingHasHandler(s, x);
      HandleKeepsLeaving(s, x);
      hide ApplyHandle;
      var s' := ApplyHandle(s, 0);
      if s'.work != s.work {
        var p :| s'.work == s.work + [DeleteLocals(p)];
        PushKeepsComing(s.work, DeleteLocals(p), Prefix(x), i);
      }
      LeavingRowHides(s', i, x);
      HidesLater(s, Handle(0));
    }
  }

  /** A row must not be found by two purges. */
  lemma {:induction false} TwiceFoundHides(s: State, i: nat, j: nat, x: Id)
    requires WillFind(s, i, x) && ComesTwice(s.work, Prefix(x), i, j)
    ensures CanHide(s)
    decreases i
  {
    PopDeletes(s.work);
    hide CanHide, Uuid, Prefix, IsId, IsLocal, Leaving, LocalRows, DeletedBetween;
    var s' := ApplyWork(s, Fine);
    WorkKeepsRow(s, Fine, i, x);
    assert s'.work == s.work[1..];
    hide ApplyWork;
    if i == 0 {
      assert Comes(s'.work, Prefix(x), j - 1);
      LeavingRowHides(s', j - 1, x);
    } else {
      assert ComesTwice(s'.work, Prefix(x), i - 1, j - 1);
      TwiceFoundHides(s', i - 1, j - 1, x);
    }
    HidesLater(s, Work(Fine));
  }

  // ----- a local of the same id that is still to be written -----

  predicate PutsLocally(r: Request, x: Id) {
    r.Put? && IsLocal(r.asset) && Uuid(r.asset) == x
  }

  lemma FailingLocalLeaves(s: State, x: Id)
    requires s.work != [] && PutsLocally(s.work[0], x)
    ensures var s' := ApplyWork(s, OtherError);
      && Leaving(s', x) && LocalRows(s') == LocalRows(s) && GlobalRows(s') == GlobalRows(s) && s'.work == s.work[1..]
  {
    hide Uuid, IsLocal;
    var s' := ApplyWork(s, OtherError);
    assert s'.posted[|s.posted|] == WriteFailed(x);
  }

  /** A put of the id as a local may fail while its global is due. */
  lemma {:induction false} FailingLocalHides(s: State, k: nat, j: nat, x: Id)
    requires k < |s.work| && PutsLocally(s.work[k], x) && DueAt(s, j, x)
    ensures CanHide(s)
    decreases k
  {
    hide CanHide, Uuid, IsLocal, Leaving, LocalRows, GlobalRows;
    var j' := if j == 0 then 0 else j - 1;
    if k == 0 {
      FailingLocalLeaves(s, x);
      WorkKeepsDue(s, OtherError, j, x);
      hide ApplyWork;
      LeavingHides(ApplyWork(s, OtherError), j', x);
      HidesLater(s, Work(OtherError));
    } else {
      WorkKeepsDue(s, Fine, j, x);
      assert ApplyWork(s, Fine).work == s.work[1..];
      hide ApplyWork;
      FailingLocalHides(ApplyWork(s, Fine), k - 1, j', x);
      HidesLater(s, Work(Fine));
    }
  }

  /** So its id must not be leaving. */
  lemma {:induction false} LeavingLocalHides(s: State, k: nat, x: Id)
    requires k < |s.work| && PutsLocally(s.work[k], x) && Leaving(s, x) && IsId(x)
    ensures CanHide(s)
    decreases |s.posted|
  {
    hide CanHide, Uuid, IsLocal, Leaving, LocalRows, GlobalRows, IsId, DueAt;
    if x !in s.index {
      AskedIsDue(s, x);
      FailingLocalHides(ApplyAskPut(s, GlobalWith(x)), k, |s.work|, x);
      HidesLater(s, AskPut(GlobalWith(x)));
    } else {
      LeavingHasHandler(s, x);
      HandleKeepsLeaving(s, x);
      hide ApplyHandle;
      LeavingLocalHides(ApplyHandle(s, 0), k, x);
      HidesLater(s, Handle(0));
    }
  }

  /** A row that is put again as a local must not be found by a purge. */
  lemma {:induction false} PutAgainHides(s: State, k: nat, i: nat, x: Id)
    requires k < |s.work| && PutsLocally(s.work[k], x) && WillFind(s, i, x)
    ensures CanHide(s)
    decreases i
  {
    hide CanHide, Uuid, Prefix, IsLocal, IsId, Leaving, LocalRows, GlobalRows, Comes;
    assert k != i by { ComesIsPurge(s, i, x); }
    if k == 0 {
      FailingLocalLeaves(s, x);
      WorkKeepsRow(s, OtherError, i, x);
      hide ApplyWork;
      LeavingRowHides(ApplyWork(s, OtherError), i - 1, x);
      HidesLater(s, Work(OtherError));
    } else {
      WorkKeepsRow(s, Fine, i, x);
      var s' := ApplyWork(s, Fine);
      assert s'.work == s.work[1..];
      hide ApplyWork;
      if i == 0 { LeavingLocalHides(s', k - 1, x); } else { PutAgainHides(s', k - 1, i - 1, x); }
      HidesLater(s, Work(Fine));
    }
  }

  lemma ComesIsPurge(s: State, i: nat, x: Id)
    requires WillFind(s, i, x)
    ensures i < |s.work| && s.work[i].PurgeLocals?
  {
  }

  /** A troubled row must not be found by a purge. */
  lemma TroubledRowHides(s: State, i: nat, x: Id)
    requires !Untroubled(s, x) && WillFind(s, i, x)
    ensures CanHide(s)
  {
    hide CanHide, Uuid, IsLocal, IsId, WillFind, GlobalRows;
    if x !in s.index || WriteFailed(x) in s.posted {
      LeavingRowHides(s, i, x);
    } else if x in GlobalRows(s) {
      DueRowHides(s, 0, i, x);
    } else {
      var k: nat :| k < |s.work| && s.work[k].Put? && Uuid(s.work[k].asset) == x;
      if IsLocal(s.work[k].asset) { PutAgainHides(s, k, i, x); } else { DueRowHides(s, k, i, x); }
    }
  }

  // ----- a purge begun too early -----

  lemma RowIsId(s: State, x: Id)
    requires Inv(s) && x in LocalRows(s)
    ensures IsId(x)
  {
    if x in s.locals {
      UuidIsId(s.locals[x]);
    }
  }

  /** A local that is put before two purges is found by both. */
  lemma {:induction false} PutBeforeTwoHides(s: State, k: nat, i: nat, j: nat, p: string)
    requires k < i < j < |s.work| && PutsLocal(s.work[k], p)
    requires s.work[i] == PurgeLocals(p) == s.work[j]
    requires !DeletedBetween(s.work, p, k, i) && !DeletedBetween(s.work, p, i, j)
    ensures CanHide(s)
    decreases k
  {
    PopDeletes(s.work);
    UuidIsId(s.work[k].asset);
    hide CanHide, Uuid, Prefix, IsLocal, IsId, DeletedBetween, Lookup;
    var s', x := ApplyWork(s, Fine), Uuid(s.work[k].asset);
    assert s'.work == s.work[1..];
    assert k == 0 ==> x in LocalRows(s');
    hide ApplyWork;
    if k == 0 {
      NoDeletionAhead(s.work, p, i);
      assert Comes(s'.work, p, i - 1) && ComesTwice(s'.work, p, i - 1, j - 1);
      TwiceFoundHides(s', i - 1, j - 1, x);
    } else {
      PutBeforeTwoHides(s', k - 1, i - 1, j - 1, p);
    }
    HidesLater(s, Work(Fine));
  }

  lemma NoDeletionAhead(work: seq<Request>, p: string, i: nat)
    requires 0 < i && work != [] && !DeletedBetween(work, p, 0, i)
    ensures !DeletedBetween(work[1..], p, 0, i - 1)
  {
    PopDeletes(work);
  }

  /** The queue once a purge of the prefix is begun. */
  lemma BegunComes(work: seq<Request>, p: string)
    ensures var more := work + [PurgeLocals(p)];
      && (!DeletedBetween(work, p, 0, |work|) ==> Comes(more, p, |work|))
      && (forall k: nat, i: nat :: i <= |work| && !DeletedBetween(work, p, k, i) ==> !DeletedBetween(more, p, k, i))
  {
    PushDeletes(work, PurgeLocals(p));
  }

  lemma HarmfulHides(s: State, p: string)
    requires Inv(s) && Harmful(s, p)
    ensures CanHide(Apply(s, AskPurge(p)))
  {
    var begun, n := Apply(s, AskPurge(p)), |s.work|;
    BegunComes(s.work, p);
    hide CanHide, Inv, Uuid, Prefix, IsLocal, IsId, DeletedBetween;
    if i: nat :| && i < n && s.work[i] == PurgeLocals(p) && !DeletedBetween(s.work, p, i, n) && !Dead(s, i, p) {
      if k: nat :| k < i && PutsLocal(s.work[k], p) && !DeletedBetween(s.work, p, k, i) {
        PutBeforeTwoHides(begun, k, i, n, p);
      } else {
        var x :| x in LocalRows(s) && Prefix(x) == p;
        RowIsId(s, x);
        assert ComesTwice(begun.work, p, i, n);
        TwiceFoundHides(begun, i, n, x);
      }
    } else {
      var x :| x in LocalsUnder(s, p) && InSnapshot(s, x);
      RowIsId(s, x);
      LeavingRowHides(begun, n, x);
    }
  }

  lemma InvNeverHides(s: State)
    requires Inv(s)
    ensures !MayHide(s)
  {
    forall es | OrderlyRun(s, es)
      ensures !HidesGlobal(Run(s, es))
    {
      RunKeepsInv(s, es);
      hide Run, OrderlyRun;
    }
  }

  lemma CanMeansMay(s: State)
    ensures CanHide(s) ==> MayHide(s)
  {
  }

  /**
   In a sound state, beginning a purge of the prefix lets some orderly continuation hide a
   global if and only if it is harmful; and then one whose handlers run in order does it too.
   */
  lemma HarmIff(s: State, p: string)
    requires Inv(s)
    ensures var begun := Apply(s, AskPurge(p));
      (Harmful(s, p) <==> MayHide(begun)) && (Harmful(s, p) <==> CanHide(begun))
  {
    hide Inv, MayHide, CanHide, Harmful, Apply;
    var begun := Apply(s, AskPurge(p));
    CanMeansMay(begun);
    if Harmful(s, p) {
      HarmfulHides(s, p);
    } else {
      StepKeepsInv(s, AskPurge(p));
      InvNeverHides(begun);
    }
  }

  /**
   Such a state is reached from start-up: with a local on disk and the worker stalled, a
   second purge of its prefix is harmful.
   */
  lemma StalledWorkerIsHarmed(d: Files, x: Id)
    requires Sound(d) && x in d.locals
    ensures var p := Prefix(x);
      && OrderlyRun(Loaded(d), [AskPurge(p)])
      && var s := Run(Loaded(d), [AskPurge(p)]);
         s.work == [PurgeLocals(p)] && Inv(s) && Harmful(s, p) && CanHide(Apply(s, AskPurge(p)))
  {
    var p := Prefix(x);
    LoadedIsInv(d);
    assert Orderly(Loaded(d), AskPurge(p));
    RunOne(Loaded(d), AskPurge(p));
    var s := Run(Loaded(d), [AskPurge(p)]);
    RunKeepsInv(Loaded(d), [AskPurge(p)]);
    assert s.work[0] == PurgeLocals(p) && x in LocalRows(s) && !Dead(s, 0, p);
    hide Inv, Dead, Run, OrderlyRun, CanHide;
    HarmfulHides(s, p);
  }

  lemma RunOne(s: State, e: Event)
    requires Orderly(s, e)
    ensures OrderlyRun(s, [e]) && Run(s, [e]) == Apply(s, e)
  {
    hide Apply, Harmful, HarmfulFailure;
    assert [e][1..] == [];
  }

  // ----- a deletion that fails -----

  /** With nothing ahead of a troubled row, a purge of its prefix is not harmful in itself, and finds the row. */
  lemma LonelyRowHides(s: State, rest: State, x: Id)
    requires Inv(s) && s.work != [] && s.work[0] == DeleteLocals(Prefix(x)) && rest == s.(work := s.work[1..])
    requires x in LocalRows(s) && !Untroubled(s, x)
    requires PurgeFree(rest.work, Prefix(x), |rest.work|) && !DeletedBetween(rest.work, Prefix(x), 0, |rest.work|)
    ensures CanHide(rest)
  {
    var p := Prefix(x);
    NotHarmedByPurge(s, rest, x);
    BegunComes(rest.work, p);
    RowIsId(s, x);
    var begun := Apply(rest, AskPurge(p));
    assert !Untroubled(rest, x) by { PoppedStaysTroubled(s, x); }
    assert !Untroubled(begun, x) by { PushedStaysTroubled(rest, PurgeLocals(p), x); }
    hide CanHide, Inv, Uuid, Prefix, IsId, DeletedBetween, Harmful, Untroubled;
    TroubledRowHides(begun, |rest.work|, x);
    HidesLater(rest, AskPurge(p));
  }

  lemma PoppedStaysTroubled(s: State, x: Id)
    requires s.work != [] && !s.work[0].Put? && !Untroubled(s, x)
    ensures !Untroubled(s.(work := s.work[1..]), x)
  {
    hide Uuid;
    var rest := s.(work := s.work[1..]);
    assert forall k: nat :: 0 < k < |s.work| ==> s.work[k] == rest.work[k - 1];
  }

  lemma PushedStaysTroubled(s: State, r: Request, x: Id)
    requires !Untroubled(s, x)
    ensures !Untroubled(s.(work := s.work + [r]), x)
  {
    hide Uuid;
    var more := s.(work := s.work + [r]);
    assert forall k: nat :: k < |s.work| ==> s.work[k] == more.work[k];
  }

  lemma NotHarmedByPurge(s: State, rest: State, x: Id)
    requires Inv(s) && s.work != [] && rest == s.(work := s.work[1..]) && x in LocalRows(s) && !Untroubled(s, x)
    requires PurgeFree(rest.work, Prefix(x), |rest.work|)
    ensures !Harmful(rest, Prefix(x))
  {
    hide Uuid, Prefix, IsLocal, DeletedBetween, Dead, Untroubled;
    assert x in LocalsUnder(s, Prefix(x));
    forall y | y in LocalsUnder(rest, Prefix(x))
      ensures !InSnapshot(rest, y)
    {
      assert forall i: nat :: i < |s.posted| && s.posted[i].Unindex? && y in s.posted[i].ids ==> Holds(s, i, y);
    }
  }

  lemma HarmfulFailureHides(s: State, p: string)
    requires Inv(s) && s.work != [] && s.work[0] == DeleteLocals(p) && HarmfulFailure(s, p)
    ensures CanHide(s.(work := s.work[1..]))
  {
    var rest := s.(work := s.work[1..]);
    var x :| x in LocalsUnder(s, p) && Endangered(s, s.work[1..], p, x);
    RowIsId(s, x);
    assert !Untroubled(s, x) ==> !Untroubled(rest, x) by {
      if !Untroubled(s, x) { PoppedStaysTroubled(s, x); }
    }
    hide CanHide, Inv, Uuid, Prefix, IsId, DeletedBetween, Doomed, Untroubled, Comes, PurgeFree;
    if i: nat, j: nat :| i < j < |rest.work| && ComesTwice(rest.work, p, i, j) {
      TwiceFoundHides(rest, i, j, x);
    } else if InSnapshot(s, x) && exists i: nat :: i < |rest.work| && Comes(rest.work, p, i) {
      var i: nat :| i < |rest.work| && Comes(rest.work, p, i);
      LeavingRowHides(rest, i, x);
    } else {
      NotDoomedMeans(rest.work, p);
      if i: nat :| Comes(rest.work, p, i) {
        TroubledRowHides(rest, i, x);
      } else {
        LonelyRowHides(s, rest, x);
      }
    }
  }

  /**
   In a sound state, failing to delete the locals of the prefix lets some orderly continuation
   hide a global if and only if that is harmful; and then handlers that run in order do it too.
   */
  lemma FailureHarmIff(s: State, p: string, outcome: Outcome)
    requires Inv(s) && s.work != [] && s.work[0] == DeleteLocals(p) && outcome != Fine
    ensures var failed := Apply(s, Work(outcome));
      (HarmfulFailure(s, p) <==> MayHide(failed)) && (HarmfulFailure(s, p) <==> CanHide(failed))
  {
    hide Inv, MayHide, CanHide, HarmfulFailure;
    var failed := Apply(s, Work(outcome));
    assert failed == s.(work := s.work[1..]);
    CanMeansMay(failed);
    if HarmfulFailure(s, p) {
      HarmfulFailureHides(s, p);
    } else {
      StepKeepsInv(s, Work(outcome));
      InvNeverHides(failed);
    }
  }

  /** Such a state is reached from start-up: the deletion that ends the purge of a stored local must not fail. */
  lemma FailedDeletionIsHarmful(d: Files, x: Id)
    requires Sound(d) && x in d.locals
    ensures var p, es := Prefix(x), [AskPurge(Prefix(x)), Work(Fine), Handle(0)];
      && OrderlyRun(Loaded(d), es)
      && var s := Run(Loaded(d), es);
         s.work == [DeleteLocals(p)] && HarmfulFailure(s, p) && CanHide(Apply(s, Work(OtherError)))
  {
    var p, s0 := Prefix(x), Loaded(d);
    LoadedIsInv(d);
    hide Uuid, Prefix, IsLocal, CanHide, Inv, HarmfulFailure, Lookup;
    var s1 := Apply(s0, AskPurge(p));
    assert s1.work == [PurgeLocals(p)];
    var s2 := Apply(s1, Work(Fine));
    assert s2.work == [] && s2.posted == [Unindex(LocalsUnder(s1, p), p)];
    var s3 := Apply(s2, Handle(0));
    assert s3.work == [DeleteLocals(p)] && x !in s3.index && x in LocalsUnder(s3, p);
    var es := [AskPurge(p), Work(Fine), Handle(0)];
    RunThree(s0, es[0], es[1], es[2]);
    RunKeepsInv(s0, es);
    assert HarmfulFailure(s3, p) by { UnindexedIsHarmful(s3, p, x); }
    FailureHarmIff(s3, p, OtherError);
  }

  lemma RunThree(s: State, e1: Event, e2: Event, e3: Event)
    requires Orderly(s, e1) && Orderly(Apply(s, e1), e2) && Orderly(Apply(Apply(s, e1), e2), e3)
    ensures OrderlyRun(s, [e1, e2, e3]) && Run(s, [e1, e2, e3]) == Apply(Apply(Apply(s, e1), e2), e3)
  {
    hide Apply, Harmful, HarmfulFailure;
    var s1 := Apply(s, e1);
    var s2 := Apply(s1, e2);
    assert [e1, e2, e3][1..] == [e2, e3] && [e2, e3][1..] == [e3];
    RunOne(s2, e3);
    assert OrderlyRun(s1, [e2, e3]) && Run(s1, [e2, e3]) == Run(s2, [e3]);
  }

  lemma UnindexedIsHarmful(s: State, p: string, x: Id)
    requires s.work == [DeleteLocals(p)] && x !in s.index && x in LocalsUnder(s, p)
    ensures HarmfulFailure(s, p)
  {
    assert Endangered(s, s.work[1..], p, x);
  }

  // ----- a write that is lost -----

  /** What the locals still hold under an id: a findable row beside a lost one is about to be deleted. */
  function Leftover(s: State, x: Id): set<Asset> {
    if x in s.locals then {s.locals[x]} else {}
  }

  /** The row of the id is at the invalid position, and no purge is about to take it away. */
  ghost predicate LostRow(s: State, x: Id) {
    || x in s.lostGlobals
    || (x in s.lostLocals && !PurgeStarting(s, Prefix(x)) && DeleteLocals(Prefix(x)) !in s.work)
  }

  predicate Denies(r: Reply, x: Id, left: set<Asset>) {
    r.id == x ==> r.Missing? || r.ReadFailed? || r.AlreadyExists? || (r.Found? && r.asset in left)
  }

  lemma LostRowMeans(s: State, x: Id)
    requires Inv(s) && LostRow(s, x)
    ensures x in s.index && x !in s.globals && NoPut(s, x)
  {
    hide Uuid, Prefix, IsLocal, IsId, PurgesOk, SnapshotsOk, FailuresOk;
    assert x !in s.lostGlobals ==> !Doomed(s.work, Prefix(x));
    hide Doomed;
    assert x !in s.lostGlobals ==> Live(s, x);
    assert forall k: nat :: k < |s.work| && s.work[k].Put? ==> PutOk(s, k);
  }

  lemma AskKeepsLostRow(s: State, e: Event, x: Id)
    requires LostRow(s, x) && x in s.index && (e.AskPut? || e.AskGet? || e.AskPurge?)
    requires x in s.lostGlobals || e != AskPurge(Prefix(x))
    ensures LostRow(Apply(s, e), x)
    ensures forall r :: r in Apply(s, e).replies ==> r in s.replies || Denies(r, x, Leftover(s, x))
  {
    hide Uuid, Prefix, IsLocal;
  }

  lemma HandleKeepsLostRow(s: State, which: nat, x: Id)
    requires LostRow(s, x) && which < |s.posted|
    ensures LostRow(ApplyHandle(s, which), x)
  {
    hide Uuid, Prefix, IsLocal;
    var s' := ApplyHandle(s, which);
    assert forall k :: 0 <= k < |s'.posted| ==> s'.posted[k] in s.posted;
  }

  lemma WorkKeepsLostRow(s: State, outcome: Outcome, x: Id)
    requires LostRow(s, x) && s.work != []
    ensures LostRow(ApplyWork(s, outcome), x)
  {
    hide Uuid, Prefix, IsLocal, Lookup;
    var s' := ApplyWork(s, outcome);
    assert s.work == [s.work[0]] + s'.work;
    assert s'.posted == s.posted || s'.posted == s.posted + [s'.posted[|s.posted|]];
  }

  lemma WorkDenies(s: State, outcome: Outcome, x: Id)
    requires s.work != [] && x !in s.globals && NoPut(s, x)
    ensures forall r :: r in ApplyWork(s, outcome).replies ==> r in s.replies || Denies(r, x, Leftover(s, x))
    ensures Leftover(ApplyWork(s, outcome), x) <= Leftover(s, x)
  {
    hide Uuid, Prefix, IsLocal;
  }

  lemma StepKeepsLostRow(s: State, e: Event, x: Id)
    requires Inv(s) && LostRow(s, x) && Orderly(s, e) && (x in s.lostGlobals || e != AskPurge(Prefix(x)))
    ensures LostRow(Apply(s, e), x) && Leftover(Apply(s, e), x) <= Leftover(s, x)
    ensures forall r :: r in Apply(s, e).replies ==> r in s.replies || Denies(r, x, Leftover(s, x))
  {
    LostRowMeans(s, x);
    hide Inv, LostRow, Lookup, Uuid, Prefix, IsLocal, Harmful, HarmfulFailure;
    match e
    case Work(outcome) =>
      WorkKeepsLostRow(s, outcome, x);
      WorkDenies(s, outcome, x);
    case Handle(which) =>
      HandleKeepsLostRow(s, which, x);
    case _ =>
      AskKeepsLostRow(s, e, x);
  }

  /** A row of the globals stays lost for ever; one of the locals until its prefix is purged. */
  lemma {:induction false} RunKeepsLostRow(s: State, es: seq<Event>, x: Id)
    requires Inv(s) && LostRow(s, x) && OrderlyRun(s, es)
    requires x in s.lostGlobals || AskPurge(Prefix(x)) !in es
    ensures LostRow(Run(s, es), x)
    ensures forall r :: r in Run(s, es).replies ==> r in s.replies || Denies(r, x, Leftover(s, x))
    decreases |es|
  {
    if es != [] {
      hide Inv, Harmful, HarmfulFailure, Leftover;
      StepKeepsInv(s, es[0]);
      StepKeepsLostRow(s, es[0], x);
      if x in s.lostGlobals { LostGlobalsStay(s, es[0], x); }
      hide LostRow, Apply;
      RunKeepsLostRow(Apply(s, es[0]), es[1..], x);
    }
  }

  lemma LostGlobalsStay(s: State, e: Event, x: Id)
    requires Enabled(s, e) && x in s.lostGlobals
    ensures x in Apply(s, e).lostGlobals
  {
    hide Uuid, Prefix, IsLocal, Lookup;
  }

  /**
   A put whose write is lost is answered as stored; from then on every answer about its id,
   until a purge of its prefix if it is a local, is not found, a read error, or a refusal to
   store it again. A global may also be answered with the local that had its id, until that is deleted.
   */
  lemma LostWriteIsNotFound(s: State, a: Asset, tag: nat, es: seq<Event>)
    requires Inv(s) && s.work != [] && s.work[0] == Put(a, tag)
    requires IsLocal(a) ==> !PurgeStarting(s, Prefix(Uuid(a))) && DeleteLocals(Prefix(Uuid(a))) !in s.work
    requires OrderlyRun(ApplyWork(s, Lost), es) && (IsLocal(a) ==> AskPurge(Prefix(Uuid(a))) !in es)
    ensures ApplyWork(s, Lost).replies == s.replies + [Stored(Uuid(a), tag)]
    ensures var t := ApplyWork(s, Lost);
      forall r :: r in Run(t, es).replies ==> r in t.replies || Denies(r, Uuid(a), Leftover(s, Uuid(a)))
    ensures IsLocal(a) ==> Leftover(s, Uuid(a)) == {}
  {
    FrontPutFits(s);
    WorkKeepsInv(s, Lost);
    LostWriteLeavesRow(s, a, tag);
    hide Inv, Uuid, Prefix, IsLocal, Run, OrderlyRun, Denies, LostRow, ApplyWork, Leftover;
    RunKeepsLostRow(ApplyWork(s, Lost), es, Uuid(a));
  }

  lemma LostWriteLeavesRow(s: State, a: Asset, tag: nat)
    requires s.work != [] && s.work[0] == Put(a, tag) && PutFits(s.(work := s.work[1..]), a)
    requires IsLocal(a) ==> !PurgeStarting(s, Prefix(Uuid(a))) && DeleteLocals(Prefix(Uuid(a))) !in s.work
    ensures var t := ApplyWork(s, Lost);
      && t.replies == s.replies + [Stored(Uuid(a), tag)]
      && LostRow(t, Uuid(a)) && Leftover(t, Uuid(a)) == Leftover(s, Uuid(a))
      && (if IsLocal(a) then Leftover(s, Uuid(a)) == {} else Uuid(a) in t.lostGlobals)
  {
    var rest := s.(work := s.work[1..]);
    assert s.work == [s.work[0]] + rest.work;
    hide Uuid, Prefix, IsLocal;
    assert IsLocal(a) ==> !Doomed(rest.work, Prefix(Uuid(a)));
    hide Doomed;
    assert IsLocal(a) ==> Uuid(a) !in LocalRows(rest);
  }
}
