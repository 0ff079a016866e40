/**
 What the budget list looks like during an upgrade. Starting from a list without upgrade
 artefacts, every reachable list is the original one with some user budgets locked and some
 blocking budgets of the operator's own appended: the two parts are a `Locks` value, and
 `reconcilePDB` acts on that value alone.
 */
module PdbLocks {
  import opened Common
  import opened Api
  import opened PdbCodec
  import opened LiveModel

  /** A blocking budget the operator created for a workload. */
  datatype Own = Own(name: string, selector: Option<LabelSelector>)

  /** The names of the locked user budgets, and the operator's own budgets in creation order. */
  datatype Locks = Locks(users: set<string>, own: seq<Own>)

  const NO_LOCKS := Locks({}, [])

  function View(pdbs: seq<Pdb>, k: Locks): (r: seq<Pdb>)
    ensures |r| == |pdbs| + |k.own|
  {
    seq(|pdbs|, i requires 0 <= i < |pdbs| => if pdbs[i].name in k.users then Locked(pdbs[i]) else pdbs[i])
    + seq(|k.own|, i requires 0 <= i < |k.own| => NewBlocker(k.own[i].name, k.own[i].selector))
  }

  /** Budget names are unique, nothing is saved, and no budget has a name the operator would use. */
  ghost predicate CleanPdbs(pdbs: seq<Pdb>, names: set<string>) {
    && (forall i, j :: 0 <= i < j < |pdbs| ==> pdbs[i].name != pdbs[j].name)
    && (forall i :: 0 <= i < |pdbs| ==> ORIGINAL_SPEC !in pdbs[i].annotations)
    && (forall i, n :: 0 <= i < |pdbs| && n in names ==> pdbs[i].name != BlockerName(n))
  }

  ghost predicate GoodLocks(k: Locks, names: set<string>) {
    && (forall i, j :: 0 <= i < j < |k.own| ==> k.own[i].name != k.own[j].name)
    && (forall i :: 0 <= i < |k.own| ==> k.own[i].name in names)
  }

  function OwnIndex(own: seq<Own>, name: string): (r: Option<nat>)
    ensures r.Some? ==> r.value < |own| && own[r.value].name == name
                        && forall j :: 0 <= j < r.value ==> own[j].name != name
    ensures r.None? ==> forall j :: 0 <= j < |own| ==> own[j].name != name
  {
    FirstNamed(own, (o: Own) => o.name, name, 0)
  }

  // ---------- reconcilePDB on locks ----------

  function Block(pdbs: seq<Pdb>, k: Locks, name: string, wl: Workload): Locks {
    match FindUserPdb(pdbs, wl)
    case Some(i) => k.(users := k.users + {pdbs[i].name})
    case None => if OwnIndex(k.own, name).Some? then k else k.(own := k.own + [Own(name, wl.selector)])
  }

  function Unblock(pdbs: seq<Pdb>, k: Locks, name: string, wl: Workload): Locks {
    var user, own := FindUserPdb(pdbs, wl), OwnIndex(k.own, name);
    if user.Some? && pdbs[user.value].name in k.users then k.(users := k.users - {pdbs[user.value].name})
    else if own.Some? then k.(own := k.own[..own.value] + k.own[own.value+1..])
    else k
  }

  /** The budget list once an intent has been carried out. */
  function CarriedOut(intent: Intent, pdbs: seq<Pdb>): seq<Pdb> {
    match intent
    case Write(after) => after
    case _ => pdbs
  }

  lemma BlockerNameInjective(a: string, b: string)
    ensures BlockerName(a) == BlockerName(b) ==> a == b
  {
    assert BlockerName(a)[|"upgrade-blocker-"|..] == a;
    assert BlockerName(b)[|"upgrade-blocker-"|..] == b;
  }

  /** Saving a spec, blocking and restoring gives back the very same budget. */
  lemma RestoreUndoesLock(p: Pdb)
    requires ORIGINAL_SPEC !in p.annotations
    ensures Restored(Locked(p)) == Some(p)
  {
    SpecRoundTrip(p.spec);
    assert Locked(p).annotations - {ORIGINAL_SPEC} == p.annotations;
  }

  lemma LockKeepsGuards(p: Pdb, labels: Labels)
    ensures Guards(Locked(p), labels) <==> Guards(p, labels)
  {
    assert ORIGINAL_SPEC != MANAGED_BY by { assert ORIGINAL_SPEC[25] != MANAGED_BY[25]; }
  }

  /** Which user budget a workload selects is the same in every reachable budget list. */
  lemma SelectionNeverChanges(pdbs: seq<Pdb>, k: Locks, wl: Workload)
    ensures FindUserPdb(View(pdbs, k), wl) == FindUserPdb(pdbs, wl)
  {
    var now := View(pdbs, k);
    forall i | 0 <= i < |now|
      ensures Guards(now[i], wl.labels) <==> i < |pdbs| && Guards(pdbs[i], wl.labels)
    {
      if i < |pdbs| {
        LockKeepsGuards(pdbs[i], wl.labels);
      }
    }
    var a, b := FirstGuard(now, wl.labels, 0), FirstGuard(pdbs, wl.labels, 0);
    assert a.Some? ==> b.Some?;
  }

  lemma OwnPosition(pdbs: seq<Pdb>, k: Locks, names: set<string>, name: string)
    requires CleanPdbs(pdbs, names) && name in names
    ensures FindPdb(View(pdbs, k), BlockerName(name))
         == match OwnIndex(k.own, name) case None => None case Some(j) => Some(|pdbs| + j)
  {
    hide FindPdb, OwnIndex, Restored, BlockerName;
    var now := View(pdbs, k);
    forall i | 0 <= i < |now|
      ensures now[i].name == BlockerName(name) <==> i >= |pdbs| && k.own[i - |pdbs|].name == name
    {
      if i >= |pdbs| {
        BlockerNameInjective(k.own[i - |pdbs|].name, name);
      } else {
        assert now[i].name == pdbs[i].name;
      }
    }
    var a, b := FindPdb(now, BlockerName(name)), OwnIndex(k.own, name);
    if b.Some? { assert now[|pdbs| + b.value].name == BlockerName(name); }
    if a.Some? { assert k.own[a.value - |pdbs|].name == name; }
  }

  lemma LockOne(pdbs: seq<Pdb>, k: Locks, names: set<string>, i: nat)
    requires CleanPdbs(pdbs, names) && i < |pdbs|
    ensures View(pdbs, k)[i := Locked(pdbs[i])] == View(pdbs, k.(users := k.users + {pdbs[i].name}))
    ensures View(pdbs, k)[i := pdbs[i]] == View(pdbs, k.(users := k.users - {pdbs[i].name}))
  {
    forall j | 0 <= j < |pdbs| && j != i ensures pdbs[j].name != pdbs[i].name {}
  }

  lemma DropOwn(pdbs: seq<Pdb>, k: Locks, j: nat)
    requires j < |k.own|
    ensures var now, at := View(pdbs, k), |pdbs| + j;
            now[..at] + now[at+1..] == View(pdbs, k.(own := k.own[..j] + k.own[j+1..]))
  {}

  lemma SavedIffLocked(pdbs: seq<Pdb>, k: Locks, names: set<string>, i: nat)
    requires CleanPdbs(pdbs, names) && i < |pdbs|
    ensures ORIGINAL_SPEC in View(pdbs, k)[i].annotations <==> pdbs[i].name in k.users
    ensures pdbs[i].name in k.users ==> Restored(View(pdbs, k)[i]) == Some(pdbs[i])
    ensures pdbs[i].name !in k.users ==> View(pdbs, k)[i] == pdbs[i]
  {
    RestoreUndoesLock(pdbs[i]);
  }

  lemma UnblockKeepsGood(pdbs: seq<Pdb>, k: Locks, names: set<string>, name: string, wl: Workload)
    requires GoodLocks(k, names)
    ensures GoodLocks(Unblock(pdbs, k, name, wl), names)
  {}

  lemma BlockUser(pdbs: seq<Pdb>, k: Locks, names: set<string>, name: string, wl: Workload, i: nat)
    requires CleanPdbs(pdbs, names) && FindUserPdb(pdbs, wl) == Some(i) && i < |pdbs|
    ensures BlockIntent(View(pdbs, k), name, wl)
         == if pdbs[i].name in k.users then Keep else Write(View(pdbs, Block(pdbs, k, name, wl)))
  {
    SelectionNeverChanges(pdbs, k, wl);
    SavedIffLocked(pdbs, k, names, i);
    LockOne(pdbs, k, names, i);
    hide View, CleanPdbs, OwnIndex, FindUserPdb, FindPdb, Restored, Locked, Guards;
  }

  lemma AddOwn(pdbs: seq<Pdb>, k: Locks, own: Own)
    ensures View(pdbs, k) + [NewBlocker(own.name, own.selector)] == View(pdbs, k.(own := k.own + [own]))
  {}

  lemma BlockOwn(pdbs: seq<Pdb>, k: Locks, names: set<string>, name: string, wl: Workload)
    requires CleanPdbs(pdbs, names) && name in names && FindUserPdb(pdbs, wl) == None
    ensures BlockIntent(View(pdbs, k), name, wl)
         == if OwnIndex(k.own, name).Some? then Keep else Write(View(pdbs, Block(pdbs, k, name, wl)))
  {
    SelectionNeverChanges(pdbs, k, wl);
    OwnPosition(pdbs, k, names, name);
    AddOwn(pdbs, k, Own(name, wl.selector));
    hide View, CleanPdbs, OwnIndex, FindUserPdb, FindPdb, NewBlocker;
  }

  lemma BlockKeepsGood(pdbs: seq<Pdb>, k: Locks, names: set<string>, name: string, wl: Workload)
    requires GoodLocks(k, names) && name in names
    ensures GoodLocks(Block(pdbs, k, name, wl), names)
  {}

  /** On every reachable list, blocking does to the list what `Block` does to the locks. */
  lemma BlockActsOnLocks(pdbs: seq<Pdb>, k: Locks, names: set<string>, name: string, wl: Workload)
    requires CleanPdbs(pdbs, names) && GoodLocks(k, names) && name in names
    ensures var intent := BlockIntent(View(pdbs, k), name, wl);
            && intent != BadAnnotation
            && CarriedOut(intent, View(pdbs, k)) == View(pdbs, Block(pdbs, k, name, wl))
    ensures GoodLocks(Block(pdbs, k, name, wl), names)
  {
    BlockKeepsGood(pdbs, k, names, name, wl);
    var user := FindUserPdb(pdbs, wl);
    hide View, CleanPdbs, GoodLocks, FindUserPdb, BlockIntent;
    if user.Some? {
      BlockUser(pdbs, k, names, name, wl, user.value);
      assert pdbs[user.value].name in k.users ==> k.users + {pdbs[user.value].name} == k.users;
    } else {
      BlockOwn(pdbs, k, names, name, wl);
    }
  }

  lemma UnblockUser(pdbs: seq<Pdb>, k: Locks, names: set<string>, name: string, wl: Workload, i: nat)
    requires CleanPdbs(pdbs, names) && FindUserPdb(pdbs, wl) == Some(i) && i < |pdbs|
    requires pdbs[i].name in k.users
    ensures UnblockIntent(View(pdbs, k), name, wl) == Write(View(pdbs, Unblock(pdbs, k, name, wl)))
  {
    SelectionNeverChanges(pdbs, k, wl);
    SavedIffLocked(pdbs, k, names, i);
    LockOne(pdbs, k, names, i);
    hide View, CleanPdbs, OwnIndex, FindUserPdb, FindPdb, Restored, Locked, Guards;
  }

  lemma UnblockOwn(pdbs: seq<Pdb>, k: Locks, names: set<string>, name: string, wl: Workload)
    requires CleanPdbs(pdbs, names) && name in names
    requires var user := FindUserPdb(pdbs, wl); user.Some? ==> pdbs[user.value].name !in k.users
    ensures UnblockIntent(View(pdbs, k), name, wl)
         == if OwnIndex(k.own, name).None? then Keep else Write(View(pdbs, Unblock(pdbs, k, name, wl)))
  {
    SelectionNeverChanges(pdbs, k, wl);
    OwnPosition(pdbs, k, names, name);
    var user, own := FindUserPdb(pdbs, wl), OwnIndex(k.own, name);
    if user.Some? {
      SavedIffLocked(pdbs, k, names, user.value);
    }
    if own.Some? {
      DropOwn(pdbs, k, own.value);
    }
    hide View, CleanPdbs, OwnIndex, FindUserPdb, FindPdb, Restored, Locked, Guards;
  }

  /** On every reachable list, unblocking does to the list what `Unblock` does to the locks. */
  lemma UnblockActsOnLocks(pdbs: seq<Pdb>, k: Locks, names: set<string>, name: string, wl: Workload)
    requires CleanPdbs(pdbs, names) && GoodLocks(k, names) && name in names
    ensures var intent := UnblockIntent(View(pdbs, k), name, wl);
            && intent != BadAnnotation
            && CarriedOut(intent, View(pdbs, k)) == View(pdbs, Unblock(pdbs, k, name, wl))
    ensures GoodLocks(Unblock(pdbs, k, name, wl), names)
  {
    UnblockKeepsGood(pdbs, k, names, name, wl);
    var user := FindUserPdb(pdbs, wl);
    hide View, CleanPdbs, GoodLocks, FindUserPdb, UnblockIntent;
    if user.Some? && pdbs[user.value].name in k.users {
      UnblockUser(pdbs, k, names, name, wl, user.value);
    } else {
      UnblockOwn(pdbs, k, names, name, wl);
    }
  }

  // ---------- last write wins ----------

  function LocksAfterCall(pdbs: seq<Pdb>, k: Locks, c: Call): Locks {
    if c.allow then Unblock(pdbs, k, c.name, c.wl) else Block(pdbs, k, c.name, c.wl)
  }

  lemma CallActsOnLocks(pdbs: seq<Pdb>, k: Locks, names: set<string>, c: Call)
    requires CleanPdbs(pdbs, names) && GoodLocks(k, names) && c.name in names
    ensures CarriedOut(Intended(View(pdbs, k), c), View(pdbs, k)) == View(pdbs, LocksAfterCall(pdbs, k, c))
    ensures GoodLocks(LocksAfterCall(pdbs, k, c), names)
  {
    hide View, CleanPdbs, GoodLocks, BlockIntent, UnblockIntent, Block, Unblock, CarriedOut;
    if c.allow {
      UnblockActsOnLocks(pdbs, k, names, c.name, c.wl);
    } else {
      BlockActsOnLocks(pdbs, k, names, c.name, c.wl);
    }
  }

  /** One call changes the lock of the budget its workload selects and of no other. */
  lemma OneCallOnUsers(pdbs: seq<Pdb>, k: Locks, names: set<string>, c: Call, i: nat)
    requires CleanPdbs(pdbs, names) && i < |pdbs|
    ensures pdbs[i].name in LocksAfterCall(pdbs, k, c).users <==>
            if FindUserPdb(pdbs, c.wl) == Some(i) then !c.allow else pdbs[i].name in k.users
  {}

  /** One `reconcilePDB` call whose write, if any, reached the server. */
  datatype Call = Call(name: string, wl: Workload, allow: bool)

  function Intended(pdbs: seq<Pdb>, c: Call): Intent {
    if c.allow then UnblockIntent(pdbs, c.name, c.wl) else BlockIntent(pdbs, c.name, c.wl)
  }

  function RunCalls(pdbs: seq<Pdb>, calls: seq<Call>): seq<Pdb> {
    if calls == [] then pdbs
    else
      var before := RunCalls(pdbs, calls[..|calls|-1]);
      CarriedOut(Intended(before, calls[|calls|-1]), before)
  }

  /** The last call made for a workload that selects user budget `i` blocked it. */
  ghost predicate LastCallBlocks(pdbs: seq<Pdb>, calls: seq<Call>, i: nat) {
    exists j :: 0 <= j < |calls| && FindUserPdb(pdbs, calls[j].wl) == Some(i) && !calls[j].allow
      && forall m :: j < m < |calls| ==> FindUserPdb(pdbs, calls[m].wl) != Some(i)
  }

  lemma {:induction false} CallsReachAView(pdbs: seq<Pdb>, calls: seq<Call>, names: set<string>) returns (k: Locks)
    requires CleanPdbs(pdbs, names) && forall c :: c in calls ==> c.name in names
    ensures RunCalls(pdbs, calls) == View(pdbs, k) && GoodLocks(k, names)
    ensures forall i :: 0 <= i < |pdbs| ==> (pdbs[i].name in k.users <==> LastCallBlocks(pdbs, calls, i))
  {
    if calls == [] {
      k := NO_LOCKS;
      assert View(pdbs, k) == pdbs;
      hide FindUserPdb, Locked;
    } else {
      hide View, CleanPdbs, GoodLocks, FindUserPdb, BlockIntent, UnblockIntent, Block, Unblock, LastCallBlocks, Locked;
      hide CarriedOut, NewBlocker, LocksAfterCall, Intended;
      var init, c := calls[..|calls|-1], calls[|calls|-1];
      var k0 := CallsReachAView(pdbs, init, names);
      assert c in calls && calls == init + [c];
      CallActsOnLocks(pdbs, k0, names, c);
      k := LocksAfterCall(pdbs, k0, c);
      forall i | 0 <= i < |pdbs|
        ensures pdbs[i].name in k.users <==> LastCallBlocks(pdbs, calls, i)
      {
        LastCallExtends(pdbs, init, c, i);
        OneCallOnUsers(pdbs, k0, names, c, i);
      }
    }
  }

  lemma LastCallExtends(pdbs: seq<Pdb>, calls: seq<Call>, c: Call, i: nat)
    ensures LastCallBlocks(pdbs, calls + [c], i)
       <==> if FindUserPdb(pdbs, c.wl) == Some(i) then !c.allow else LastCallBlocks(pdbs, calls, i)
  {
    hide FindUserPdb;
    var all := calls + [c];
    if FindUserPdb(pdbs, c.wl) == Some(i) {
      if !c.allow { assert all[|calls|] == c; }
    } else {
      if LastCallBlocks(pdbs, calls, i) {
        var j :| 0 <= j < |calls| && FindUserPdb(pdbs, calls[j].wl) == Some(i) && !calls[j].allow
          && forall m :: j < m < |calls| ==> FindUserPdb(pdbs, calls[m].wl) != Some(i);
        assert all[j] == calls[j];
      }
      if LastCallBlocks(pdbs, all, i) {
        var j :| 0 <= j < |all| && FindUserPdb(pdbs, all[j].wl) == Some(i) && !all[j].allow
          && forall m :: j < m < |all| ==> FindUserPdb(pdbs, all[m].wl) != Some(i);
        assert j < |calls|;
        forall m | j < m < |calls| ensures FindUserPdb(pdbs, calls[m].wl) != Some(i) {
          assert all[m] == calls[m];
        }
      }
    }
  }

  /**
   After any calls for any workloads, shared budgets or not, each user budget is locked or
   untouched according to the last call that concerned it, and a locked one still decodes to
   its original spec.
   */
  lemma LastWriteWins(pdbs: seq<Pdb>, calls: seq<Call>, names: set<string>, i: nat)
    requires CleanPdbs(pdbs, names) && i < |pdbs|
    requires forall c :: c in calls ==> c.name in names
    ensures var now := RunCalls(pdbs, calls);
            && i < |now|
            && now[i] == (if LastCallBlocks(pdbs, calls, i) then Locked(pdbs[i]) else pdbs[i])
            && Restored(Locked(pdbs[i])) == Some(pdbs[i])
  {
    var k := CallsReachAView(pdbs, calls, names);
    RestoreUndoesLock(pdbs[i]);
  }
}
