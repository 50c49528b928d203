/** What one run of `sync_puppet_environments` guarantees: it lists first,
    stops at the protection guard before changing anything, never creates a
    never-add name, never deletes a protected or still-used environment,
    creates before it deletes, and on success leaves the inventory holding
    the desired names plus the unwanted ones that hosts still use. */
module SyncProperties {
  import opened Wrappers
  import opened Names
  import opened Hammer
  import opened Syncer
  import opened SyncerProperties

  // ---------------------------------------------------------------------------
  // The two phases

  /** The add phase follows on from `t`, stops at its first failed call, which
      is then its error, issues only creates of names in `toAdd`, and on
      success has appended `toAdd` to the inventory's environments. */
  lemma AddPhaseFacts(toAdd: seq<Name>, t: ToolState, failing: set<Call>)
    ensures var add := AddUnlessEmpty(toAdd, t, failing);
            Follows(t, add.tool, failing) && add.tool.world.hosts == t.world.hosts &&
            FailFast(Issued(t, add.tool), add.result, failing) &&
            (add.result.Err? ==> add.result.error.ExternalOperationFailed?) &&
            (forall c :: c in Issued(t, add.tool) ==> c.CreateEnvironment? && c.name in toAdd) &&
            (add.result.Ok? ==> add.tool.world.environments == t.world.environments + toAdd)
  {
    var add := AddUnlessEmpty(toAdd, t, failing);
    if toAdd == [] {
      FollowsRefl(t, failing);
    } else {
      AddRunFollows(toAdd, 0, t, failing);
      AddRunFacts(toAdd, 0, t, failing);
      assert toAdd[0..] == toAdd;
      var calls := Issued(t, add.tool);
      forall c | c in calls
        ensures c.CreateEnvironment? && c.name in toAdd
      {
        var k :| 0 <= k < |calls| && calls[k] == c;
        assert calls[k] == Creates(toAdd)[k];
      }
    }
  }

  /** The delete phase follows on from `t`, stops at its first failed call,
      which is then its error, never changes host assignments, and issues
      only host listings for names in `toRemove` and deletions of those that
      no host uses. */
  lemma DeletePhaseCalls(toRemove: seq<Name>, t: ToolState, failing: set<Call>)
    ensures var del := DeleteUnlessEmpty(toRemove, t, failing);
            Follows(t, del.tool, failing) && del.tool.world.hosts == t.world.hosts &&
            FailFast(Issued(t, del.tool), del.result, failing) &&
            (del.result.Err? ==> del.result.error.ExternalOperationFailed?) &&
            forall c :: c in Issued(t, del.tool) ==> RemoverCall(c, toRemove, t.world.hosts)
  {
    if toRemove == [] {
      FollowsRefl(t, failing);
    } else {
      DeleteRunFollows(toRemove, 0, t, failing, []);
      DeleteRunCalls(toRemove, 0, t, failing, []);
      DeleteRunIssues(toRemove, 0, t, failing, []);
      assert toRemove[0..] == toRemove;
    }
  }

  /** A successful delete phase removes exactly the names of `toRemove` that
      no host uses. */
  lemma DeletePhaseInventory(toRemove: seq<Name>, t: ToolState, failing: set<Call>)
    ensures var del := DeleteUnlessEmpty(toRemove, t, failing);
            del.result.Ok? ==>
              forall x :: x in del.tool.world.environments <==>
                          x in t.world.environments && !(x in toRemove && HostsIn(t.world.hosts, x) == [])
  {
    if toRemove != [] {
      assert toRemove[0..] == toRemove;
      DeleteRunInventory(toRemove, 0, t, failing, []);
    }
  }

  /** A successful delete phase records each name of `toRemove` that hosts
      use with exactly those hosts, and nothing else. */
  lemma DeletePhaseResult(toRemove: seq<Name>, t: ToolState, failing: set<Call>)
    ensures var del := DeleteUnlessEmpty(toRemove, t, failing);
            var hosts := t.world.hosts;
            del.result.Ok? ==>
              UniqueKeys(del.result.value) &&
              (forall x :: x in Keys(del.result.value) <==> x in toRemove && HostsIn(hosts, x) != []) &&
              forall x :: Lookup(del.result.value, x) ==
                          if x in toRemove && HostsIn(hosts, x) != [] then Some(HostsIn(hosts, x)) else None
  {
    var del := DeleteUnlessEmpty(toRemove, t, failing);
    if del.result.Ok? {
      var rec := del.result.value;
      if toRemove != [] {
        assert toRemove[0..] == toRemove;
        DeleteRunUnique(toRemove, 0, t, failing, []);
        forall x
          ensures Lookup(rec, x) ==
                  if x in toRemove && HostsIn(t.world.hosts, x) != [] then Some(HostsIn(t.world.hosts, x)) else None
        {
          DeleteRunLookup(toRemove, 0, t, failing, [], x);
        }
      }
      forall x
        ensures x in Keys(rec) <==> x in toRemove && HostsIn(t.world.hosts, x) != []
      {
        KeysLookup(rec, x);
      }
    }
  }

  // ---------------------------------------------------------------------------
  // One sync

  /** A call a sync from inventory `w` may issue: the listing; a create of a
      desired name that does not exist and is not a never-add name; a host
      listing for an existing name that is not desired; or the deletion of an
      existing name that is not desired, not protected, and used by no host. */
  predicate SyncCall(c: Call, desired: seq<Name>, w: World, config: Config)
  {
    c == ListEnvironments ||
    (c.CreateEnvironment? && c.name in desired && c.name !in w.environments && c.name !in config.neverAdd) ||
    (c.ListHosts? && c.environment in w.environments && c.environment !in desired) ||
    (c.DeleteEnvironment? && c.name in w.environments && c.name !in desired &&
     c.name !in config.protected && HostsIn(w.hosts, c.name) == [])
  }

  /** No create comes after a delete. */
  predicate CreatesBeforeDeletes(calls: seq<Call>)
  {
    forall a, b :: 0 <= a < b < |calls| && calls[a].DeleteEnvironment? ==> !calls[b].CreateEnvironment?
  }

  /** A sync lists the environments first, stops at its first failed call,
      and leaves the inventory that its calls made; a failed listing ends it
      at once. */
  lemma SyncRunFollows(desired: seq<Name>, t: ToolState, failing: set<Call>, config: Config)
    ensures var run := SyncRun(desired, t, failing, config);
            Follows(t, run.tool, failing) &&
            FailFast(Issued(t, run.tool), run.result, failing) &&
            |Issued(t, run.tool)| > 0 && Issued(t, run.tool)[0] == ListEnvironments &&
            (ListEnvironments in failing ==>
               Issued(t, run.tool) == [ListEnvironments] &&
               run.result == Err(ExternalOperationFailed(ListEnvironments)))
  {
    var run := SyncRun(desired, t, failing, config);
    var t1 := Perform(t, ListEnvironments, failing);
    PerformFollows(t, ListEnvironments, failing);
    PerformExtends(t, ListEnvironments, failing);
    var current := t.world.environments;
    var toAdd := ToAdd(desired, current, config.neverAdd);
    var toRemove := ToRemove(current, desired);
    if ListEnvironments !in failing && !AnyProtected(toRemove, config.protected) {
      var add := AddUnlessEmpty(toAdd, t1, failing);
      AddPhaseFacts(toAdd, t1, failing);
      FollowsTrans(t, t1, add.tool, failing);
      ExtendsTrans(t, t1, add.tool);
      FailFastAppend([ListEnvironments], Issued(t1, add.tool), add.result, failing);
      if add.result.Ok? {
        var del := DeleteUnlessEmpty(toRemove, add.tool, failing);
        DeletePhaseCalls(toRemove, add.tool, failing);
        FollowsTrans(t, add.tool, del.tool, failing);
        ExtendsTrans(t, add.tool, del.tool);
        FailFastAppend(Issued(t, add.tool), Issued(add.tool, del.tool), del.result, failing);
      }
    }
  }

  /** When desired and existing names are the same, a sync whose listing
      succeeds issues nothing after it, warns of nothing, changes nothing and
      succeeds with an empty record. */
  lemma SyncRunSameNames(desired: seq<Name>, t: ToolState, failing: set<Call>, config: Config)
    requires ListEnvironments !in failing
    requires forall x :: x in desired <==> x in t.world.environments
    ensures var run := SyncRun(desired, t, failing, config);
            Issued(t, run.tool) == [ListEnvironments] && run.warnings == [] &&
            run.result == Ok([]) && run.tool.world == t.world
  {
    var current := t.world.environments;
    var toAdd := ToAdd(desired, current, config.neverAdd);
    SeqMinusEmpty(desired, current + config.neverAdd);
    SeqMinusEmpty(current, desired);
    PerformExtends(t, ListEnvironments, failing);
  }

  /** A sync whose listing succeeds raises the protection error exactly when
      some existing name that is not desired is protected; it then warns
      once, naming the protected names, and issues nothing after the listing,
      however many names there are to add. */
  lemma SyncRunGuard(desired: seq<Name>, t: ToolState, failing: set<Call>, config: Config)
    requires ListEnvironments !in failing
    ensures var run := SyncRun(desired, t, failing, config);
            (run.result == Err(ProtectedEnvironmentViolation) <==>
               exists x :: x in t.world.environments && x !in desired && x in config.protected)
    ensures var run := SyncRun(desired, t, failing, config);
            run.result == Err(ProtectedEnvironmentViolation) ==>
              Issued(t, run.tool) == [ListEnvironments] &&
              run.warnings == [ProtectedEnvironmentWarning(config.protected)] &&
              run.tool.world == t.world
  {
    var t1 := Perform(t, ListEnvironments, failing);
    PerformExtends(t, ListEnvironments, failing);
    var current := t.world.environments;
    var toAdd := ToAdd(desired, current, config.neverAdd);
    var toRemove := ToRemove(current, desired);
    if !AnyProtected(toRemove, config.protected) {
      var add := AddUnlessEmpty(toAdd, t1, failing);
      AddPhaseFacts(toAdd, t1, failing);
      if add.result.Ok? {
        DeletePhaseCalls(toRemove, add.tool, failing);
      }
    }
  }

  /** Every call of a sync is one it may issue: a never-add name is never
      created, and a protected, a desired or a still-used environment is
      never deleted. */
  lemma SyncRunCalls(desired: seq<Name>, t: ToolState, failing: set<Call>, config: Config)
    ensures var run := SyncRun(desired, t, failing, config);
            forall c :: c in Issued(t, run.tool) ==> SyncCall(c, desired, t.world, config)
  {
    var run := SyncRun(desired, t, failing, config);
    var t1 := Perform(t, ListEnvironments, failing);
    PerformExtends(t, ListEnvironments, failing);
    var current := t.world.environments;
    var toAdd := ToAdd(desired, current, config.neverAdd);
    var toRemove := ToRemove(current, desired);
    if ListEnvironments !in failing && !AnyProtected(toRemove, config.protected) {
      var add := AddUnlessEmpty(toAdd, t1, failing);
      AddPhaseFacts(toAdd, t1, failing);
      ExtendsTrans(t, t1, add.tool);
      if add.result.Ok? {
        var del := DeleteUnlessEmpty(toRemove, add.tool, failing);
        DeletePhaseCalls(toRemove, add.tool, failing);
        ExtendsTrans(t, add.tool, del.tool);
        forall c | c in Issued(add.tool, del.tool)
          ensures SyncCall(c, desired, t.world, config)
        {
          assert RemoverCall(c, toRemove, t.world.hosts);
        }
      }
    }
  }

  /** A sync makes all its creates before its first delete. */
  lemma SyncRunOrder(desired: seq<Name>, t: ToolState, failing: set<Call>, config: Config)
    ensures var run := SyncRun(desired, t, failing, config);
            CreatesBeforeDeletes(Issued(t, run.tool))
  {
    var run := SyncRun(desired, t, failing, config);
    var t1 := Perform(t, ListEnvironments, failing);
    PerformExtends(t, ListEnvironments, failing);
    var current := t.world.environments;
    var toAdd := ToAdd(desired, current, config.neverAdd);
    var toRemove := ToRemove(current, desired);
    if ListEnvironments !in failing && !AnyProtected(toRemove, config.protected) {
      var add := AddUnlessEmpty(toAdd, t1, failing);
      AddPhaseFacts(toAdd, t1, failing);
      ExtendsTrans(t, t1, add.tool);
      var adds := Issued(t1, add.tool);
      var calls := [ListEnvironments] + adds;
      if add.result.Ok? {
        var del := DeleteUnlessEmpty(toRemove, add.tool, failing);
        DeletePhaseCalls(toRemove, add.tool, failing);
        ExtendsTrans(t, add.tool, del.tool);
        var dels := Issued(add.tool, del.tool);
        calls := calls + dels;
        forall a, b | 0 <= a < b < |calls| && calls[a].DeleteEnvironment?
          ensures !calls[b].CreateEnvironment?
        {
          if b > |adds| {
            assert calls[b] in dels;
          }
        }
      }
      assert Issued(t, run.tool) == calls;
    }
  }

  /** After a successful sync the inventory holds exactly the desired names
      that existed or are not never-add names, and the existing names that
      are not desired but that hosts still use. */
  lemma SyncRunInventory(desired: seq<Name>, t: ToolState, failing: set<Call>, config: Config)
    ensures var run := SyncRun(desired, t, failing, config);
            var current := t.world.environments;
            run.result.Ok? ==>
              forall x :: x in run.tool.world.environments <==>
                          (x in desired && (x in current || x !in config.neverAdd)) ||
                          (x in current && x !in desired && HostsIn(t.world.hosts, x) != [])
  {
    var run := SyncRun(desired, t, failing, config);
    var t1 := Perform(t, ListEnvironments, failing);
    var current := t.world.environments;
    var toAdd := ToAdd(desired, current, config.neverAdd);
    var toRemove := ToRemove(current, desired);
    if run.result.Ok? {
      var add := AddUnlessEmpty(toAdd, t1, failing);
      AddPhaseFacts(toAdd, t1, failing);
      DeletePhaseInventory(toRemove, add.tool, failing);
    }
  }

  /** A successful sync returns the record of the existing names that are
      not desired but that hosts still use, each with its hosts. */
  lemma SyncRunRefusals(desired: seq<Name>, t: ToolState, failing: set<Call>, config: Config)
    ensures var run := SyncRun(desired, t, failing, config);
            var current := t.world.environments;
            var hosts := t.world.hosts;
            run.result.Ok? ==>
              UniqueKeys(run.result.value) &&
              (forall x :: x in Keys(run.result.value) <==> x in current && x !in desired && HostsIn(hosts, x) != []) &&
              forall x :: Lookup(run.result.value, x) ==
                          if x in current && x !in desired && HostsIn(hosts, x) != []
                          then Some(HostsIn(hosts, x)) else None
  {
    var run := SyncRun(desired, t, failing, config);
    var t1 := Perform(t, ListEnvironments, failing);
    var current := t.world.environments;
    var toAdd := ToAdd(desired, current, config.neverAdd);
    var toRemove := ToRemove(current, desired);
    if run.result.Ok? {
      var add := AddUnlessEmpty(toAdd, t1, failing);
      AddPhaseFacts(toAdd, t1, failing);
      DeletePhaseResult(toRemove, add.tool, failing);
    }
  }

  /** A successful sync warns exactly once for each environment it refused
      to delete, naming the hosts that still use it. */
  lemma SyncRunWarnings(desired: seq<Name>, t: ToolState, failing: set<Call>, config: Config)
    ensures var run := SyncRun(desired, t, failing, config);
            var current := t.world.environments;
            var hosts := t.world.hosts;
            run.result.Ok? ==>
              |run.warnings| == |Keys(run.result.value)| &&
              forall e, hs :: RefusalWarning(e, hs) in run.warnings <==>
                              e in current && e !in desired && hs == HostsIn(hosts, e) && hs != []
  {
    var run := SyncRun(desired, t, failing, config);
    if run.result.Ok? {
      SyncRunRefusals(desired, t, failing, config);
      var rec := run.result.value;
      assert run.warnings == RefusalWarnings(rec);
      forall e, hs
        ensures RefusalWarning(e, hs) in run.warnings <==>
                e in t.world.environments && e !in desired && hs == HostsIn(t.world.hosts, e) && hs != []
      {
        RefusalWarningsExact(rec, e, hs);
      }
      RefusalWarningsExact(rec, "", []);
    }
  }
}
