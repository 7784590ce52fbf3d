/**
 * The shutdown decision of syncHandler: the sidecars are signalled exactly
 * when every container is accounted for (running or completed) and the
 * running containers are exactly the sidecar set, compared for equality and
 * not as a subset.
 */
module Decision {
  import opened Wrappers
  import opened Pods
  import opened Classification

  const SidecarName: string := "istio-proxy"

  /** The sidecar set, fixed to the single Istio proxy container. */
  const Sidecars: set<string> := {SidecarName}

  predicate ShutdownDue(c: ContainerSets, sidecars: set<string>): (due: bool)
    ensures due ==> sidecars <= c.all && c.all - c.completed <= sidecars
    ensures c.all - (c.running + c.completed) != {} ==> !due
  {
    c.running + c.completed == c.all && c.running == sidecars
  }

  /** A pod with no container statuses is never shut down. */
  lemma EmptyPodNeverShutsDown()
    ensures !ShutdownDue(Classify([]), Sidecars)
  {
  }

  /** A ready container other than the sidecar blocks the shutdown. */
  lemma RunningMainBlocks(s: seq<ContainerStatus>, i: nat)
    requires i < |s| && s[i].ready && s[i].name != SidecarName
    ensures !ShutdownDue(Classify(s), Sidecars)
  {
  }

  /** A sidecar that is not ready (or absent) blocks the shutdown. */
  lemma SidecarNotReadyBlocks(s: seq<ContainerStatus>)
    requires forall i | 0 <= i < |s| && s[i].name == SidecarName :: !s[i].ready
    ensures !ShutdownDue(Classify(s), Sidecars)
  {
  }

  /** An unaccounted container blocks the shutdown, whatever the sidecar set. */
  lemma UnaccountedBlocks(s: seq<ContainerStatus>, i: nat, sidecars: set<string>)
    requires DistinctNames(s) && i < |s| && Unaccounted(s[i])
    ensures !ShutdownDue(Classify(s), sidecars)
  {
  }

  /**
   * With unique names, the sidecars are signalled exactly when the pod has a
   * container named istio-proxy, that container is ready, and every other
   * container is not ready and terminated with reason Completed or Error.
   */
  lemma ShutdownDueIff(s: seq<ContainerStatus>)
    requires DistinctNames(s)
    ensures ShutdownDue(Classify(s), Sidecars)
        <==> (exists k | 0 <= k < |s| :: s[k].name == SidecarName)
             && (forall i | 0 <= i < |s| :: if s[i].name == SidecarName then s[i].ready else Finished(s[i]))
  {
  }

  /** The three decisions given as examples for the rule, on the sets directly. */
  lemma DecisionExamples()
    ensures ShutdownDue(ContainerSets({"A", "B", SidecarName}, {SidecarName}, {"A", "B"}), Sidecars)
    ensures !ShutdownDue(ContainerSets({"A", "B", SidecarName}, {SidecarName, "A"}, {"B"}), Sidecars)
    ensures !ShutdownDue(ContainerSets({"A", "B", SidecarName}, {SidecarName}, {"A"}), Sidecars)
  {
  }

  /**
   * A pod whose main container exited with reason Completed while the proxy
   * is still ready: all = {main, istio-proxy}, running = {istio-proxy},
   * completed = {main}, and the shutdown is due.
   */
  lemma MainCompletedScenario()
    ensures var s := [ContainerStatus("main", false, Some("Completed")), ContainerStatus(SidecarName, true, None)];
            Classify(s) == ContainerSets({"main", SidecarName}, {SidecarName}, {"main"})
            && ShutdownDue(Classify(s), Sidecars)
  {
    var s := [ContainerStatus("main", false, Some("Completed")), ContainerStatus(SidecarName, true, None)];
    var c := Classify(s);
    assert Finished(s[0]) && s[1].ready;
    assert c.all == {"main", SidecarName};
    assert "main" != SidecarName;
    assert c.running == {SidecarName};
    assert c.completed == {"main"};
  }
}
