/**
 What one call of `reconcilePDB` does to any budget list when every API call answers: which
 user budget is the workload's, and what becomes of it or of the operator's own one.
 */
module PdbCalls {
  import opened Common
  import opened Api
  import opened PdbCodec
  import opened LiveModel

  // ---------- which budget is a workload's ----------

  /** Budget `i` is the first of the list that guards pods with these labels. */
  ghost predicate FirstGuarding(pdbs: seq<Pdb>, labels: Labels, i: nat) {
    && labels != map[] && i < |pdbs| && Guards(pdbs[i], labels)
    && forall j :: 0 <= j < i ==> !Guards(pdbs[j], labels)
  }

  /** The user budget found is the first in list order that guards the workload, if there is one. */
  lemma UserBudgetIff(pdbs: seq<Pdb>, wl: Workload)
    ensures forall i: nat :: FindUserPdb(pdbs, wl) == Some(i) <==> FirstGuarding(pdbs, wl.labels, i)
    ensures FindUserPdb(pdbs, wl).None? <==>
              wl.labels == map[] || forall j :: 0 <= j < |pdbs| ==> !Guards(pdbs[j], wl.labels)
  {
    var found := FindUserPdb(pdbs, wl);
    forall i: nat ensures found == Some(i) <==> FirstGuarding(pdbs, wl.labels, i) {
      if FirstGuarding(pdbs, wl.labels, i) {
        assert found.Some? && found.value >= i && found.value <= i;
      }
    }
  }

  /**
   A budget guards a pod exactly if the operator did not make it and its selector is valid and
   selects the pod; for a selector of labels alone, if the pod carries all of them.
   */
  lemma GuardsIff(p: Pdb, labels: Labels, m: Labels)
    ensures MANAGED_BY in p.annotations ==> !Guards(p, labels)
    ensures p.spec.selector == None ==> !Guards(p, labels)
    ensures !ValidSelector(p.spec.selector) ==> !Guards(p, labels)
    ensures p.spec.selector == Some(LabelSelector(m, [])) && MANAGED_BY !in p.annotations ==>
      (Guards(p, labels) <==> m.Items <= labels.Items)
  {
    LabelsMatchIff(m, labels);
  }

  // ---------- one call on any budget list, with every call answering ----------

  /** The user's budget as it is while disruptions are blocked: nothing else of it has changed. */
  ghost predicate IsLockedCopy(p: Pdb, q: Pdb) {
    && q.name == p.name && q.spec.maxUnavailable == Some(Int(0)) && q.spec.minAvailable == None
    && q.spec.selector == p.spec.selector
    && q.spec.unhealthyPodEvictionPolicy == p.spec.unhealthyPodEvictionPolicy
    && ORIGINAL_SPEC in q.annotations && q.annotations - {ORIGINAL_SPEC} == p.annotations - {ORIGINAL_SPEC}
  }

  /** A budget of the operator's that allows no disruption of the workload's pods. */
  ghost predicate IsBlockerOf(q: Pdb, name: string, wl: Workload) {
    && q.name == BlockerName(name) && MANAGED_BY in q.annotations && ORIGINAL_SPEC !in q.annotations
    && q.spec == PdbSpec(None, wl.selector, Some(Int(0)), None)
  }

  ghost predicate NameTaken(pdbs: seq<Pdb>, name: string) {
    exists j :: 0 <= j < |pdbs| && pdbs[j].name == name
  }

  /** Blocking locks the user budget found, once, or else makes sure of one of the operator's. */
  lemma BlockOutcome(w: World, key: Key)
    requires key in w.workloads
    ensures var out, wl := ReconcilePdb(w, [], key, false), w.workloads[key];
            && out.ok && out.w == w.(pdbs := out.w.pdbs)
            && (forall i: nat :: FirstGuarding(w.pdbs, wl.labels, i) ==>
                  if ORIGINAL_SPEC in w.pdbs[i].annotations then out.w.pdbs == w.pdbs
                  else |out.w.pdbs| == |w.pdbs| && IsLockedCopy(w.pdbs[i], out.w.pdbs[i])
                       && out.w.pdbs == w.pdbs[i := out.w.pdbs[i]])
            && ((forall i: nat :: !FirstGuarding(w.pdbs, wl.labels, i)) ==>
                  if NameTaken(w.pdbs, BlockerName(key.name)) then out.w.pdbs == w.pdbs
                  else |out.w.pdbs| == |w.pdbs| + 1 && out.w.pdbs[..|w.pdbs|] == w.pdbs
                       && IsBlockerOf(out.w.pdbs[|w.pdbs|], key.name, wl))
  {
    UserBudgetIff(w.pdbs, w.workloads[key]);
    BlockOutcomeOnList(w.pdbs, key.name, w.workloads[key]);
    hide FindUserPdb, FindPdb, Locked, FirstGuarding, NewBlocker;
  }

  lemma BlockOutcomeOnList(pdbs: seq<Pdb>, name: string, wl: Workload)
    ensures forall i :: 0 <= i < |pdbs| && ORIGINAL_SPEC !in pdbs[i].annotations ==>
              IsLockedCopy(pdbs[i], Locked(pdbs[i]))
    ensures IsBlockerOf(NewBlocker(name, wl.selector), name, wl)
    ensures FindPdb(pdbs, BlockerName(name)).Some? <==> NameTaken(pdbs, BlockerName(name))
  {
    hide BlockerName, Marshal;
    assert ORIGINAL_SPEC != MANAGED_BY by { assert ORIGINAL_SPEC[25] != MANAGED_BY[25]; }
    forall i | 0 <= i < |pdbs| && ORIGINAL_SPEC !in pdbs[i].annotations
      ensures IsLockedCopy(pdbs[i], Locked(pdbs[i]))
    {
      var p := pdbs[i];
      assert Locked(p).annotations - {ORIGINAL_SPEC} == p.annotations - {ORIGINAL_SPEC};
    }
  }

  /**
   Unblocking restores the saved spec of the user budget found, fails if that cannot be read, and
   without a saved spec removes the operator's own budget and no other.
   */
  lemma UnblockOutcome(w: World, key: Key)
    requires key in w.workloads
    ensures var out, wl := ReconcilePdb(w, [], key, true), w.workloads[key];
            && out.w == w.(pdbs := out.w.pdbs)
            && (forall i: nat :: FirstGuarding(w.pdbs, wl.labels, i) && ORIGINAL_SPEC in w.pdbs[i].annotations ==>
                  if Restored(w.pdbs[i]).None? then !out.ok && out.w == w
                  else out.ok && out.w.pdbs == w.pdbs[i := Restored(w.pdbs[i]).value])
            && ((forall i: nat :: FirstGuarding(w.pdbs, wl.labels, i) ==> ORIGINAL_SPEC !in w.pdbs[i].annotations) ==>
                  && out.ok
                  && (!NameTaken(w.pdbs, BlockerName(key.name)) ==> out.w == w)
                  && forall j: nat :: IsFirstNamed(w.pdbs, BlockerName(key.name), j) ==>
                       out.w.pdbs == w.pdbs[..j] + w.pdbs[j+1..])
  {
    UserBudgetIff(w.pdbs, w.workloads[key]);
    FirstNamedIff(w.pdbs, BlockerName(key.name));
    hide FindUserPdb, FindPdb, Restored, FirstGuarding, BlockerName;
  }

  ghost predicate IsFirstNamed(pdbs: seq<Pdb>, name: string, j: nat) {
    j < |pdbs| && pdbs[j].name == name && forall i :: 0 <= i < j ==> pdbs[i].name != name
  }

  lemma FirstNamedIff(pdbs: seq<Pdb>, name: string)
    ensures FindPdb(pdbs, name).Some? <==> NameTaken(pdbs, name)
    ensures forall j: nat :: FindPdb(pdbs, name) == Some(j) <==> IsFirstNamed(pdbs, name, j)
  {
    var found := FindPdb(pdbs, name);
    forall j: nat ensures found == Some(j) <==> IsFirstNamed(pdbs, name, j) {
      if IsFirstNamed(pdbs, name, j) {
        assert found.Some? && found.value >= j && found.value <= j;
      }
    }
  }

  /** A saved spec that is text, or no spec at all, cannot be restored. */
  lemma BadSpecIsNotRestored(p: Pdb)
    requires ORIGINAL_SPEC in p.annotations
    requires p.annotations[ORIGINAL_SPEC].Plain? || !p.annotations[ORIGINAL_SPEC].doc.Obj?
    ensures Restored(p) == None
  {}
}
