/**
 * Container classification in syncHandler: one pass over the pod's container
 * statuses fills three name sets. Every name goes into `all`; a ready
 * container's name goes into `running`; a container that is not ready and
 * whose termination reason is "Completed" or "Error" goes into `completed`.
 * Any other not-ready container is in `all` only.
 */
module Classification {
  import opened Wrappers
  import opened Pods

  datatype ContainerSets = ContainerSets(all: set<string>, running: set<string>, completed: set<string>)

  /** The termination reasons that count as a finished container. */
  predicate IsFinishedReason(reason: string)
  {
    reason == "Completed" || reason == "Error"
  }

  /** A container that is not ready and terminated with an accepted reason. */
  predicate Finished(st: ContainerStatus)
  {
    !st.ready && st.terminated.Some? && IsFinishedReason(st.terminated.value)
  }

  /** A container in neither `running` nor `completed` on its own account. */
  predicate Unaccounted(st: ContainerStatus)
  {
    !st.ready && !Finished(st)
  }

  /** Pod container names are unique; the disjointness results rely on it. */
  predicate DistinctNames(s: seq<ContainerStatus>)
  {
    forall i, j | 0 <= i < j < |s| :: s[i].name != s[j].name
  }

  /**
   * The three sets, defined by which statuses contribute to each: a name is
   * in a set when some status with that name qualifies for it.
   */
  function Classify(s: seq<ContainerStatus>): (c: ContainerSets)
    ensures c.running <= c.all && c.completed <= c.all
    ensures forall i | 0 <= i < |s| :: s[i].name in c.all
    ensures forall i | 0 <= i < |s| && s[i].ready :: s[i].name in c.running
    ensures forall i | 0 <= i < |s| && Finished(s[i]) :: s[i].name in c.completed
  {
    ContainerSets(
      set i | 0 <= i < |s| :: s[i].name,
      set i | 0 <= i < |s| && s[i].ready :: s[i].name,
      set i | 0 <= i < |s| && Finished(s[i]) :: s[i].name)
  }

  /** The loop of syncHandler, adding each status's name to the sets it belongs to. */
  method ClassifyStatuses(s: seq<ContainerStatus>) returns (all: set<string>, running: set<string>, completed: set<string>)
    ensures ContainerSets(all, running, completed) == Classify(s)
  {
    all, running, completed := {}, {}, {};
    for k := 0 to |s|
      invariant all == Classify(s[..k]).all
      invariant running == Classify(s[..k]).running
      invariant completed == Classify(s[..k]).completed
    {
      var st := s[k];
      all := all + {st.name};
      if st.ready {
        running := running + {st.name};
      } else {
        var terminated := st.terminated;
        if terminated.Some? && (terminated.value == "Completed" || terminated.value == "Error") {
          completed := completed + {st.name};
        }
      }
      PrefixStep(s, k);
    }
    assert s[..|s|] == s;
  }

  /** Classifying one more status adds its name exactly where the loop body does. */
  lemma PrefixStep(s: seq<ContainerStatus>, k: nat)
    requires k < |s|
    ensures Classify(s[..k + 1]).all == Classify(s[..k]).all + {s[k].name}
    ensures Classify(s[..k + 1]).running
         == Classify(s[..k]).running + (if s[k].ready then {s[k].name} else {})
    ensures Classify(s[..k + 1]).completed
         == Classify(s[..k]).completed + (if Finished(s[k]) then {s[k].name} else {})
  {
  }

  /**
   * With unique names, every name of `all` lies in exactly one of `running`,
   * `completed` and the unaccounted rest `all - (running + completed)`.
   */
  lemma NamePartition(s: seq<ContainerStatus>, n: string)
    requires DistinctNames(s) && n in Classify(s).all
    ensures var c := Classify(s);
            (if n in c.running then 1 else 0) + (if n in c.completed then 1 else 0)
            + (if n in c.all - (c.running + c.completed) then 1 else 0) == 1
  {
    var i :| 0 <= i < |s| && s[i].name == n;
    ClassifyDistinct(s, i);
  }

  /**
   * With unique names, a name is running exactly when its status is ready,
   * completed exactly when its status is finished, and in neither set when
   * its status is unaccounted; so `running` and `completed` are disjoint.
   */
  lemma ClassifyDistinct(s: seq<ContainerStatus>, i: nat)
    requires DistinctNames(s) && i < |s|
    ensures s[i].name in Classify(s).running <==> s[i].ready
    ensures s[i].name in Classify(s).completed <==> Finished(s[i])
    ensures Unaccounted(s[i]) ==> s[i].name !in Classify(s).running + Classify(s).completed
  {
  }

  lemma DisjointWhenDistinct(s: seq<ContainerStatus>)
    requires DistinctNames(s)
    ensures Classify(s).running * Classify(s).completed == {}
  {
  }

  /**
   * Without unique names the sets can overlap: one status named "a" that is
   * ready and another named "a" that completed put "a" in both.
   */
  lemma DuplicateNamesOverlap()
    ensures var s := [ContainerStatus("a", true, None), ContainerStatus("a", false, Some("Completed"))];
            "a" in Classify(s).running * Classify(s).completed
  {
    var s := [ContainerStatus("a", true, None), ContainerStatus("a", false, Some("Completed"))];
    assert s[0].ready && Finished(s[1]);
  }
}
