/** What the runs of `PuppetEnvironmentSyncer` guarantee: which calls each
    operation issues, in what order, what it never does, and the inventory it
    leaves behind. */
module SyncerProperties {
  import opened Wrappers
  import opened Names
  import opened Hammer
  import opened Syncer

  /** One create call per name, in order. */
  function Creates(names: seq<Name>): seq<Call>
  {
    seq(|names|, k requires 0 <= k < |names| => CreateEnvironment(names[k]))
  }

  /** One host update to `env` per host name, in order. */
  function Updates(hosts: seq<Name>, env: Name): seq<Call>
  {
    seq(|hosts|, k requires 0 <= k < |hosts| => UpdateHost(hosts[k], env))
  }

  // ---------------------------------------------------------------------------
  // add_puppet_environments

  /** The inventory after adding is what the issued calls made of it. */
  lemma {:induction false} AddRunFollows(envs: seq<Name>, i: nat, t: ToolState, failing: set<Call>)
    requires i <= |envs|
    ensures Follows(t, AddRun(envs, i, t, failing).tool, failing)
    decreases |envs| - i
  {
    if i == |envs| {
      FollowsRefl(t, failing);
    } else {
      var c := CreateEnvironment(envs[i]);
      var t1 := Perform(t, c, failing);
      PerformFollows(t, c, failing);
      if c !in failing {
        AddRunFollows(envs, i + 1, t1, failing);
        FollowsTrans(t, t1, AddRun(envs, i + 1, t1, failing).tool, failing);
      }
    }
  }

  /** Adding issues the creates of `envs[i..]` in order, stopping at the
      first that fails, which is then its error; it succeeds exactly when
      none fails, and then every
      name has been appended to the inventory. Host assignments are untouched. */
  lemma {:induction false} AddRunFacts(envs: seq<Name>, i: nat, t: ToolState, failing: set<Call>)
    requires i <= |envs|
    ensures var run := AddRun(envs, i, t, failing);
            Extends(t, run.tool) && run.tool.world.hosts == t.world.hosts &&
            FailFast(Issued(t, run.tool), run.result, failing) &&
            (run.result.Err? ==> run.result.error.ExternalOperationFailed?) &&
            Issued(t, run.tool) <= Creates(envs[i..]) &&
            (run.result.Ok? <==> forall k :: i <= k < |envs| ==> CreateEnvironment(envs[k]) !in failing) &&
            (run.result.Ok? ==> Issued(t, run.tool) == Creates(envs[i..]) &&
                                run.tool.world.environments == t.world.environments + envs[i..])
    decreases |envs| - i
  {
    var run := AddRun(envs, i, t, failing);
    if i == |envs| {
      FollowsRefl(t, failing);
    } else {
      var c := CreateEnvironment(envs[i]);
      var t1 := Perform(t, c, failing);
      assert Creates(envs[i..]) == [c] + Creates(envs[i + 1..]);
      PerformExtends(t, c, failing);
      if c !in failing {
        AddRunFacts(envs, i + 1, t1, failing);
        ExtendsTrans(t, t1, run.tool);
        FailFastAppend([c], Issued(t1, run.tool), run.result, failing);
        assert envs[i..] == [envs[i]] + envs[i + 1..];
      }
    }
  }

  // ---------------------------------------------------------------------------
  // delete_puppet_environments

  /** A call the remover may issue for the names `envs` when the inventory's
      hosts are `hosts`: a host listing for one of them, or the deletion of
      one of them that no host uses. */
  predicate RemoverCall(c: Call, envs: seq<Name>, hosts: seq<HostRecord>)
  {
    (c.ListHosts? && c.environment in envs) ||
    (c.DeleteEnvironment? && c.name in envs && HostsIn(hosts, c.name) == [])
  }

  /** The calls one iteration of the remover issues for `env` when it
      succeeds: a host listing, then a deletion if no host uses `env`. */
  function StepCalls(env: Name, hosts: seq<HostRecord>): seq<Call>
  {
    [ListHosts(env)] + (if HostsIn(hosts, env) == [] then [DeleteEnvironment(env)] else [])
  }

  /** One iteration of the remover issues a prefix of its calls, stops at the
      first that fails, and never changes host assignments; on success it
      issued all of them. */
  lemma DeleteStepFacts(env: Name, t: ToolState, failing: set<Call>, refused: Refusals)
    ensures var step := DeleteStep(env, t, failing, refused);
            Extends(t, step.tool) && step.tool.world.hosts == t.world.hosts &&
            FailFast(Issued(t, step.tool), step.result, failing) &&
            (step.result.Err? ==> step.result.error.ExternalOperationFailed?) &&
            Issued(t, step.tool) <= StepCalls(env, t.world.hosts) &&
            (step.result.Ok? ==> Issued(t, step.tool) == StepCalls(env, t.world.hosts))
  {
    var q := ListHosts(env);
    var t1 := Perform(t, q, failing);
    PerformExtends(t, q, failing);
    if q !in failing && HostsIn(t.world.hosts, env) == [] {
      var d := DeleteEnvironment(env);
      var t2 := Perform(t1, d, failing);
      PerformExtends(t1, d, failing);
      ExtendsTrans(t, t1, t2);
      if d in failing {
        var e: Result<Refusals, Error> := Err(ExternalOperationFailed(d));
        FailFastAppend([q], [d], e, failing);
      }
    }
  }

  /** The inventory after one iteration of the remover is what its calls
      made of it. */
  lemma DeleteStepFollows(env: Name, t: ToolState, failing: set<Call>, refused: Refusals)
    ensures Follows(t, DeleteStep(env, t, failing, refused).tool, failing)
  {
    var q := ListHosts(env);
    var t1 := Perform(t, q, failing);
    PerformFollows(t, q, failing);
    if q !in failing && HostsIn(t.world.hosts, env) == [] {
      var d := DeleteEnvironment(env);
      PerformFollows(t1, d, failing);
      FollowsTrans(t, t1, Perform(t1, d, failing), failing);
    }
  }

  /** The inventory after the remover is what the issued calls made of it. */
  lemma {:induction false} DeleteRunFollows(envs: seq<Name>, i: nat, t: ToolState, failing: set<Call>,
                                            refused: Refusals)
    requires i <= |envs|
    ensures Follows(t, DeleteRun(envs, i, t, failing, refused).tool, failing)
    decreases |envs| - i
  {
    if i == |envs| {
      FollowsRefl(t, failing);
    } else {
      var step := DeleteStep(envs[i], t, failing, refused);
      DeleteStepFollows(envs[i], t, failing, refused);
      if step.result.Ok? {
        var run := DeleteRun(envs, i + 1, step.tool, failing, step.result.value);
        DeleteRunFollows(envs, i + 1, step.tool, failing, step.result.value);
        FollowsTrans(t, step.tool, run.tool, failing);
      }
    }
  }

  /** The remover stops at its first failed call, fails only when a call
      does, and never changes host assignments. */
  lemma {:induction false} DeleteRunCalls(envs: seq<Name>, i: nat, t: ToolState, failing: set<Call>,
                                          refused: Refusals)
    requires i <= |envs|
    ensures var run := DeleteRun(envs, i, t, failing, refused);
            Extends(t, run.tool) && run.tool.world.hosts == t.world.hosts &&
            FailFast(Issued(t, run.tool), run.result, failing) &&
            (run.result.Err? ==> run.result.error.ExternalOperationFailed?)
    decreases |envs| - i
  {
    var run := DeleteRun(envs, i, t, failing, refused);
    if i == |envs| {
      FollowsRefl(t, failing);
    } else {
      var step := DeleteStep(envs[i], t, failing, refused);
      DeleteStepFacts(envs[i], t, failing, refused);
      if step.result.Ok? {
        DeleteRunCalls(envs, i + 1, step.tool, failing, step.result.value);
        ExtendsTrans(t, step.tool, run.tool);
        FailFastAppend(Issued(t, step.tool), Issued(step.tool, run.tool), run.result, failing);
      }
    }
  }

  /** The remover issues only host listings for its names and deletions of
      those of its names that no host uses. */
  lemma {:induction false} DeleteRunIssues(envs: seq<Name>, i: nat, t: ToolState, failing: set<Call>,
                                           refused: Refusals)
    requires i <= |envs|
    ensures var run := DeleteRun(envs, i, t, failing, refused);
            forall c :: c in Issued(t, run.tool) ==> RemoverCall(c, envs[i..], t.world.hosts)
    decreases |envs| - i
  {
    var run := DeleteRun(envs, i, t, failing, refused);
    if i == |envs| {
      assert Issued(t, run.tool) == [];
    } else {
      var step := DeleteStep(envs[i], t, failing, refused);
      DeleteStepFacts(envs[i], t, failing, refused);
      assert envs[i] in envs[i..];
      assert forall c :: c in StepCalls(envs[i], t.world.hosts) ==> RemoverCall(c, envs[i..], t.world.hosts);
      if step.result.Ok? {
        DeleteRunIssues(envs, i + 1, step.tool, failing, step.result.value);
        DeleteRunCalls(envs, i + 1, step.tool, failing, step.result.value);
        ExtendsTrans(t, step.tool, run.tool);
        assert forall x :: x in envs[i + 1..] ==> x in envs[i..];
      } else {
        assert forall c :: c in Issued(t, run.tool) ==> c in StepCalls(envs[i], t.world.hosts);
      }
    }
  }

  /** The environments whose hosts `calls` lists, in order. */
  function Listed(calls: seq<Call>): seq<Name>
    decreases |calls|
  {
    if calls == [] then []
    else (if calls[0].ListHosts? then [calls[0].environment] else []) + Listed(calls[1..])
  }

  /** The environments `calls` deletes, in order. */
  function Deleted(calls: seq<Call>): seq<Name>
    decreases |calls|
  {
    if calls == [] then []
    else (if calls[0].DeleteEnvironment? then [calls[0].name] else []) + Deleted(calls[1..])
  }

  lemma {:induction false} ListedDeletedAppend(a: seq<Call>, b: seq<Call>)
    ensures Listed(a + b) == Listed(a) + Listed(b)
    ensures Deleted(a + b) == Deleted(a) + Deleted(b)
    decreases |a|
  {
    if a != [] {
      assert (a + b)[1..] == a[1..] + b;
      ListedDeletedAppend(a[1..], b);
    } else {
      assert a + b == b;
    }
  }

  /** The names that no host uses, in order, with their repetitions. */
  function Unused(names: seq<Name>, hosts: seq<HostRecord>): (r: seq<Name>)
    ensures forall x :: x in r <==> x in names && HostsIn(hosts, x) == []
    decreases |names|
  {
    if names == [] then []
    else
      assert names == [names[0]] + names[1..];
      (if HostsIn(hosts, names[0]) == [] then [names[0]] else []) + Unused(names[1..], hosts)
  }

  /** A name no host uses keeps every occurrence; the others none. */
  lemma {:induction false} UnusedCount(names: seq<Name>, hosts: seq<HostRecord>, x: Name)
    ensures multiset(Unused(names, hosts))[x] == if HostsIn(hosts, x) == [] then multiset(names)[x] else 0
    decreases |names|
  {
    if names != [] {
      assert names == [names[0]] + names[1..];
      UnusedCount(names[1..], hosts, x);
    }
  }

  /** A successful remover lists the hosts of each of its names, in order,
      and deletes exactly those that no host uses, in order. */
  lemma {:induction false} DeleteRunOrder(envs: seq<Name>, i: nat, t: ToolState, failing: set<Call>,
                                          refused: Refusals)
    requires i <= |envs|
    ensures var run := DeleteRun(envs, i, t, failing, refused);
            run.result.Ok? ==>
              Listed(Issued(t, run.tool)) == envs[i..] &&
              Deleted(Issued(t, run.tool)) == Unused(envs[i..], t.world.hosts)
    decreases |envs| - i
  {
    var run := DeleteRun(envs, i, t, failing, refused);
    if i == |envs| {
      FollowsRefl(t, failing);
    } else if run.result.Ok? {
      var step := DeleteStep(envs[i], t, failing, refused);
      var rest := Issued(step.tool, run.tool);
      DeleteStepFacts(envs[i], t, failing, refused);
      DeleteRunCalls(envs, i + 1, step.tool, failing, step.result.value);
      DeleteRunOrder(envs, i + 1, step.tool, failing, step.result.value);
      ExtendsTrans(t, step.tool, run.tool);
      ListedDeletedAppend(StepCalls(envs[i], t.world.hosts), rest);
      assert envs[i..][1..] == envs[i + 1..];
    }
  }

  /** After a successful remover the inventory keeps exactly the names that
      were not among its names or that a host still uses. */
  lemma {:induction false} DeleteRunInventory(envs: seq<Name>, i: nat, t: ToolState, failing: set<Call>,
                                              refused: Refusals)
    requires i <= |envs|
    ensures var run := DeleteRun(envs, i, t, failing, refused);
            run.result.Ok? ==>
              forall x :: x in run.tool.world.environments <==>
                          x in t.world.environments && !(x in envs[i..] && HostsIn(t.world.hosts, x) == [])
    decreases |envs| - i
  {
    var run := DeleteRun(envs, i, t, failing, refused);
    if i < |envs| && run.result.Ok? {
      var step := DeleteStep(envs[i], t, failing, refused);
      DeleteStepInventory(envs[i], t, failing, refused);
      DeleteRunInventory(envs, i + 1, step.tool, failing, step.result.value);
      assert envs[i..] == [envs[i]] + envs[i + 1..];
    }
  }

  /** A successful iteration of the remover leaves the hosts as they were,
      and drops its name from the inventory exactly when no host uses it. */
  lemma DeleteStepInventory(env: Name, t: ToolState, failing: set<Call>, refused: Refusals)
    ensures var step := DeleteStep(env, t, failing, refused);
            var inUse := HostsIn(t.world.hosts, env);
            step.result.Ok? ==>
              step.tool.world.hosts == t.world.hosts &&
              forall x :: x in step.tool.world.environments <==>
                          x in t.world.environments && (x != env || inUse != [])
  {
  }

  /** A successful iteration of the remover leaves the hosts as they were,
      and records its name with its hosts exactly when hosts use it. */
  lemma DeleteStepRecord(env: Name, t: ToolState, failing: set<Call>, refused: Refusals)
    ensures var step := DeleteStep(env, t, failing, refused);
            var inUse := HostsIn(t.world.hosts, env);
            step.result.Ok? ==>
              step.tool.world.hosts == t.world.hosts &&
              step.result.value == if inUse == [] then refused else Put(refused, env, inUse)
  {
  }

  /** A successful remover keeps the record's keys distinct. */
  lemma {:induction false} DeleteRunUnique(envs: seq<Name>, i: nat, t: ToolState, failing: set<Call>,
                                           refused: Refusals)
    requires i <= |envs|
    ensures var run := DeleteRun(envs, i, t, failing, refused);
            run.result.Ok? && UniqueKeys(refused) ==> UniqueKeys(run.result.value)
    decreases |envs| - i
  {
    var run := DeleteRun(envs, i, t, failing, refused);
    if i < |envs| && run.result.Ok? {
      var step := DeleteStep(envs[i], t, failing, refused);
      DeleteStepRecord(envs[i], t, failing, refused);
      DeleteRunUnique(envs, i + 1, step.tool, failing, step.result.value);
    }
  }

  /** A successful remover records each name that hosts use with exactly
      those hosts, and leaves the other entries of the record as they were. */
  lemma {:induction false} DeleteRunLookup(envs: seq<Name>, i: nat, t: ToolState, failing: set<Call>,
                                           refused: Refusals, x: Name)
    requires i <= |envs|
    ensures var run := DeleteRun(envs, i, t, failing, refused);
            var inUse := HostsIn(t.world.hosts, x);
            run.result.Ok? ==>
              Lookup(run.result.value, x) == if x in envs[i..] && inUse != [] then Some(inUse) else Lookup(refused, x)
    decreases |envs| - i
  {
    var run := DeleteRun(envs, i, t, failing, refused);
    if i < |envs| && run.result.Ok? {
      var step := DeleteStep(envs[i], t, failing, refused);
      DeleteStepRecord(envs[i], t, failing, refused);
      DeleteRunLookup(envs, i + 1, step.tool, failing, step.result.value, x);
      assert envs[i..] == [envs[i]] + envs[i + 1..];
    }
  }

  // ---------------------------------------------------------------------------
  // The refusal record and handle_delete_refusals

  /** With distinct keys, an entry is in the record exactly when looking its
      key up finds its hosts. */
  lemma {:induction false} LookupIn(rec: Refusals, e: Name, hs: seq<Name>)
    requires UniqueKeys(rec)
    ensures Refusal(e, hs) in rec <==> Lookup(rec, e) == Some(hs)
    decreases |rec|
  {
    if rec != [] {
      assert rec == [rec[0]] + rec[1..];
      LookupIn(rec[1..], e, hs);
      if rec[0].environment == e && Refusal(e, hs) in rec[1..] {
        KeysHold(rec[1..], Refusal(e, hs));
      }
    }
  }

  /** A name is a key of the record exactly when looking it up finds an entry. */
  lemma {:induction false} KeysLookup(rec: Refusals, x: Name)
    ensures x in Keys(rec) <==> Lookup(rec, x).Some?
    decreases |rec|
  {
    if rec != [] {
      KeysLookup(rec[1..], x);
    }
  }

  /** Every entry's environment is a key. */
  lemma {:induction false} KeysHold(rec: Refusals, entry: Refusal)
    requires entry in rec
    ensures entry.environment in Keys(rec)
    decreases |rec|
  {
    if rec[0] != entry {
      assert rec == [rec[0]] + rec[1..];
      KeysHold(rec[1..], entry);
    }
  }

  /** The refusal warnings report exactly the record's entries, one each:
      with distinct keys, a warning names an environment with hosts exactly
      when the record maps that environment to those hosts, and there are as
      many warnings as refused environments. */
  lemma RefusalWarningsExact(rec: Refusals, e: Name, hs: seq<Name>)
    requires UniqueKeys(rec)
    ensures RefusalWarning(e, hs) in RefusalWarnings(rec) <==> Lookup(rec, e) == Some(hs)
    ensures |RefusalWarnings(rec)| == |Keys(rec)|
  {
    var w := RefusalWarnings(rec);
    LookupIn(rec, e, hs);
    if RefusalWarning(e, hs) in w {
      var k :| 0 <= k < |w| && w[k] == RefusalWarning(e, hs);
      assert rec[k] == Refusal(e, hs);
    }
    if Refusal(e, hs) in rec {
      var k :| 0 <= k < |rec| && rec[k] == Refusal(e, hs);
      assert w[k] == RefusalWarning(e, hs);
    }
    UniqueKeysCount(rec);
  }

  /** With distinct keys there are as many entries as keys. */
  lemma {:induction false} UniqueKeysCount(rec: Refusals)
    requires UniqueKeys(rec)
    ensures |Keys(rec)| == |rec|
    decreases |rec|
  {
    if rec != [] {
      UniqueKeysCount(rec[1..]);
    }
  }

  // ---------------------------------------------------------------------------
  // force_delete_puppet_environment

  /** Every record of host `host` moved to `env`; the others are unchanged:
      none is dropped and none is added. */
  lemma ReassignMoves(hosts: seq<HostRecord>, host: Name, env: Name)
    ensures |Reassign(hosts, host, env)| == |hosts|
    ensures forall r :: r in Reassign(hosts, host, env) ==>
                        (r.name == host && r.environment == env) || (r in hosts && r.name != host)
    ensures forall r :: r in hosts && r.name != host ==> r in Reassign(hosts, host, env)
    ensures forall r :: r in hosts && r.name == host ==> HostRecord(host, env) in Reassign(hosts, host, env)
  {
    var moved := Reassign(hosts, host, env);
    forall r | r in moved
      ensures (r.name == host && r.environment == env) || (r in hosts && r.name != host)
    {
      var k :| 0 <= k < |moved| && moved[k] == r;
    }
    forall r | r in hosts
      ensures r.name != host ==> r in moved
      ensures r.name == host ==> HostRecord(host, env) in moved
    {
      var k :| 0 <= k < |hosts| && hosts[k] == r;
      assert moved[k] == if r.name == host then HostRecord(host, env) else r;
    }
  }

  /** The inventory after a migration is what the issued calls made of it. */
  lemma {:induction false} MigrateRunFollows(hosts: seq<Name>, i: nat, source: Name, replacement: Name,
                                             t: ToolState, failing: set<Call>)
    requires i <= |hosts|
    ensures Follows(t, MigrateRun(hosts, i, source, replacement, t, failing).tool, failing)
    decreases |hosts| - i
  {
    if i == |hosts| {
      PerformFollows(t, DeleteEnvironment(source), failing);
    } else {
      var u := UpdateHost(hosts[i], replacement);
      var t1 := Perform(t, u, failing);
      PerformFollows(t, u, failing);
      if u !in failing {
        MigrateRunFollows(hosts, i + 1, source, replacement, t1, failing);
        FollowsTrans(t, t1, MigrateRun(hosts, i + 1, source, replacement, t1, failing).tool, failing);
      }
    }
  }

  /** A migration updates the hosts from `i` on, in order, then deletes the
      source, stopping at its first failed call. */
  lemma {:induction false} MigrateRunFacts(hosts: seq<Name>, i: nat, source: Name, replacement: Name,
                                           t: ToolState, failing: set<Call>)
    requires i <= |hosts|
    ensures var run := MigrateRun(hosts, i, source, replacement, t, failing);
            var full := Updates(hosts[i..], replacement) + [DeleteEnvironment(source)];
            Extends(t, run.tool) && FailFast(Issued(t, run.tool), run.result, failing) &&
            Issued(t, run.tool) <= full &&
            (run.result.Ok? ==> Issued(t, run.tool) == full)
    decreases |hosts| - i
  {
    var run := MigrateRun(hosts, i, source, replacement, t, failing);
    var full := Updates(hosts[i..], replacement) + [DeleteEnvironment(source)];
    if i == |hosts| {
      PerformExtends(t, DeleteEnvironment(source), failing);
      assert full == [DeleteEnvironment(source)];
    } else {
      var u := UpdateHost(hosts[i], replacement);
      var t1 := Perform(t, u, failing);
      assert full == [u] + (Updates(hosts[i + 1..], replacement) + [DeleteEnvironment(source)]);
      PerformExtends(t, u, failing);
      if u !in failing {
        MigrateRunFacts(hosts, i + 1, source, replacement, t1, failing);
        ExtendsTrans(t, t1, run.tool);
        FailFastAppend([u], Issued(t1, run.tool), run.result, failing);
      }
    }
  }

  /** A migration deletes the source only as its last call, after every
      update from `i` on succeeded. */
  lemma MigrateRunDeletesLast(hosts: seq<Name>, i: nat, source: Name, replacement: Name,
                              t: ToolState, failing: set<Call>)
    requires i <= |hosts|
    ensures var run := MigrateRun(hosts, i, source, replacement, t, failing);
            var full := Updates(hosts[i..], replacement) + [DeleteEnvironment(source)];
            DeleteEnvironment(source) in Issued(t, run.tool) ==>
              Issued(t, run.tool) == full &&
              forall k :: i <= k < |hosts| ==> UpdateHost(hosts[k], replacement) !in failing
  {
    var run := MigrateRun(hosts, i, source, replacement, t, failing);
    var full := Updates(hosts[i..], replacement) + [DeleteEnvironment(source)];
    var calls := Issued(t, run.tool);
    MigrateRunFacts(hosts, i, source, replacement, t, failing);
    if DeleteEnvironment(source) in calls {
      var j :| 0 <= j < |calls| && calls[j] == DeleteEnvironment(source);
      assert full[j] == calls[j];
      assert j == |full| - 1;
      assert calls == full;
      forall k | i <= k < |hosts|
        ensures UpdateHost(hosts[k], replacement) !in failing
      {
        assert calls[k - i] == UpdateHost(hosts[k], replacement);
      }
    }
  }

  /** A successful migration removes the source from the inventory's
      environments and nothing else. */
  lemma {:induction false} MigrateRunInventory(hosts: seq<Name>, i: nat, source: Name, replacement: Name,
                                               t: ToolState, failing: set<Call>)
    requires i <= |hosts|
    ensures var run := MigrateRun(hosts, i, source, replacement, t, failing);
            run.result.Ok? ==> run.tool.world.environments == SeqMinus(t.world.environments, [source])
    decreases |hosts| - i
  {
    if i < |hosts| && UpdateHost(hosts[i], replacement) !in failing {
      MigrateRunInventory(hosts, i + 1, source, replacement, Perform(t, UpdateHost(hosts[i], replacement), failing), failing);
    }
  }

  /** A successful migration from `i` on, to a replacement other than the
      source, leaves no host on the source when every host on it was among
      the hosts still to update. */
  lemma {:induction false} MigrateRunEmptiesSource(hosts: seq<Name>, i: nat, source: Name, replacement: Name,
                                                   t: ToolState, failing: set<Call>)
    requires i <= |hosts| && replacement != source
    requires forall r :: r in t.world.hosts && r.environment == source ==> r.name in hosts[i..]
    ensures var run := MigrateRun(hosts, i, source, replacement, t, failing);
            run.result.Ok? ==> forall r :: r in run.tool.world.hosts ==> r.environment != source
    decreases |hosts| - i
  {
    var run := MigrateRun(hosts, i, source, replacement, t, failing);
    if i < |hosts| && run.result.Ok? {
      var u := UpdateHost(hosts[i], replacement);
      var t1 := Perform(t, u, failing);
      ReassignMoves(t.world.hosts, hosts[i], replacement);
      assert hosts[i..] == [hosts[i]] + hosts[i + 1..];
      MigrateRunEmptiesSource(hosts, i + 1, source, replacement, t1, failing);
    }
  }

  /** `force_delete_puppet_environment` lists the source's hosts, updates
      each to the replacement in order, then deletes the source, stopping at
      its first failed call; the deletion happens only after every update
      succeeded. On success the source is gone and, when the replacement is
      another environment, no host is left on the source. */
  lemma ForceRunFacts(source: Name, replacement: Name, t: ToolState, failing: set<Call>)
    ensures var run := ForceRun(source, replacement, t, failing);
            var moved := HostsIn(t.world.hosts, source);
            var full := [ListHosts(source)] + Updates(moved, replacement) + [DeleteEnvironment(source)];
            Follows(t, run.tool, failing) &&
            FailFast(Issued(t, run.tool), run.result, failing) &&
            Issued(t, run.tool) <= full &&
            (DeleteEnvironment(source) in Issued(t, run.tool) ==>
               Issued(t, run.tool) == full &&
               forall h :: h in moved ==> UpdateHost(h, replacement) !in failing) &&
            (run.result.Ok? ==>
               Issued(t, run.tool) == full &&
               run.tool.world.environments == SeqMinus(t.world.environments, [source]) &&
               (replacement != source ==> forall r :: r in run.tool.world.hosts ==> r.environment != source))
  {
    var run := ForceRun(source, replacement, t, failing);
    var moved := HostsIn(t.world.hosts, source);
    var q := ListHosts(source);
    var t1 := Perform(t, q, failing);
    PerformFollows(t, q, failing);
    PerformExtends(t, q, failing);
    if q !in failing {
      MigrateRunFollows(moved, 0, source, replacement, t1, failing);
      MigrateRunFacts(moved, 0, source, replacement, t1, failing);
      MigrateRunDeletesLast(moved, 0, source, replacement, t1, failing);
      MigrateRunInventory(moved, 0, source, replacement, t1, failing);
      FollowsTrans(t, t1, run.tool, failing);
      ExtendsTrans(t, t1, run.tool);
      FailFastAppend([q], Issued(t1, run.tool), run.result, failing);
      assert moved[0..] == moved;
      assert [q] + (Updates(moved, replacement) + [DeleteEnvironment(source)])
          == [q] + Updates(moved, replacement) + [DeleteEnvironment(source)];
      forall h | h in moved
        ensures DeleteEnvironment(source) in Issued(t, run.tool) ==> UpdateHost(h, replacement) !in failing
      {
        var k :| 0 <= k < |moved| && moved[k] == h;
      }
      if replacement != source {
        MigrateRunEmptiesSource(moved, 0, source, replacement, t1, failing);
      }
    }
  }

  /** A migration whose replacement is the source itself moves no host off
      the source: every host record on the source is still there. */
  lemma {:induction false} MigrateRunKeepsSourceHosts(hosts: seq<Name>, i: nat, source: Name, t: ToolState,
                                                      failing: set<Call>)
    requires i <= |hosts|
    ensures var run := MigrateRun(hosts, i, source, source, t, failing);
            forall r :: r in t.world.hosts && r.environment == source ==> r in run.tool.world.hosts
    decreases |hosts| - i
  {
    if i < |hosts| {
      var u := UpdateHost(hosts[i], source);
      var t1 := Perform(t, u, failing);
      ReassignMoves(t.world.hosts, hosts[i], source);
      MigrateRunKeepsSourceHosts(hosts, i + 1, source, t1, failing);
    }
  }

  /** `force_delete_puppet_environment` does not check that the replacement
      differs from the source. Forced onto itself, a successful run deletes
      the source while every host that used it still does. */
  lemma ForceRunOntoItself(source: Name, t: ToolState, failing: set<Call>)
    ensures var run := ForceRun(source, source, t, failing);
            run.result.Ok? ==>
              source !in run.tool.world.environments &&
              forall r :: r in t.world.hosts && r.environment == source ==> r in run.tool.world.hosts
  {
    var q := ListHosts(source);
    var t1 := Perform(t, q, failing);
    if q !in failing {
      var moved := HostsIn(t.world.hosts, source);
      MigrateRunInventory(moved, 0, source, source, t1, failing);
      MigrateRunKeepsSourceHosts(moved, 0, source, t1, failing);
    }
  }
}
