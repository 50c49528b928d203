/** `PuppetEnvironmentSyncer` (utils/puppet_environment_syncer.rb): brings the
    external tool's list of Puppet environments in line with a desired list,
    refusing to remove protected environments, never creating never-add
    environments, and deferring the deletion of environments that hosts still
    use. Each operation is specified by a pure function giving the calls it
    issues and its outcome; the class's methods are proved to follow them. */
module Syncer {
  import opened Wrappers
  import opened Names
  import opened Hammer

  const DefaultProtectedEnvironments: seq<Name> := ["production"]
  const DefaultNeverAddEnvironments: seq<Name> := ["gh-pages"]

  // ---------------------------------------------------------------------------
  // The diff and the guard

  /** `desired - current - never_add`: the desired names that neither exist
      nor are never-add names, in desired order, repetitions kept. */
  function ToAdd(desired: seq<Name>, current: seq<Name>, neverAdd: seq<Name>): (r: seq<Name>)
    ensures forall x :: x in r <==> x in desired && x !in current && x !in neverAdd
    ensures r == SeqMinus(desired, current + neverAdd)
  {
    SeqMinusTwice(desired, current, neverAdd);
    SeqMinus(SeqMinus(desired, current), neverAdd)
  }

  /** `current - desired`: the existing names that are not desired, in current order. */
  function ToRemove(current: seq<Name>, desired: seq<Name>): (r: seq<Name>)
    ensures forall x :: x in r <==> x in current && x !in desired
  {
    SeqMinus(current, desired)
  }

  /** `to_remove.any? { |env| protected.include?(env) }` */
  function AnyProtected(toRemove: seq<Name>, protected: seq<Name>): (r: bool)
    ensures r <==> exists x :: x in toRemove && x in protected
    decreases |toRemove|
  {
    if toRemove == [] then false
    else
      assert toRemove == [toRemove[0]] + toRemove[1..];
      toRemove[0] in protected || AnyProtected(toRemove[1..], protected)
  }

  // ---------------------------------------------------------------------------
  // The refusal record: a Ruby Hash from environment name to the hosts that
  // still use it, kept in insertion order.

  datatype Refusal = Refusal(environment: Name, hosts: seq<Name>)

  type Refusals = seq<Refusal>

  function Keys(rec: Refusals): set<Name>
    decreases |rec|
  {
    if rec == [] then {} else {rec[0].environment} + Keys(rec[1..])
  }

  predicate UniqueKeys(rec: Refusals)
    decreases |rec|
  {
    rec == [] || (rec[0].environment !in Keys(rec[1..]) && UniqueKeys(rec[1..]))
  }

  function Lookup(rec: Refusals, env: Name): Option<seq<Name>>
    decreases |rec|
  {
    if rec == [] then None
    else if rec[0].environment == env then Some(rec[0].hosts)
    else Lookup(rec[1..], env)
  }

  /** `rec[env] = hosts`: a new key goes last, an existing key keeps its place. */
  function Put(rec: Refusals, env: Name, hosts: seq<Name>): (r: Refusals)
    ensures Keys(r) == Keys(rec) + {env}
    ensures Lookup(r, env) == Some(hosts)
    ensures forall k :: k != env ==> Lookup(r, k) == Lookup(rec, k)
    ensures UniqueKeys(rec) ==> UniqueKeys(r)
    ensures |r| <= |rec| + 1
    ensures env !in Keys(rec) ==> r == rec + [Refusal(env, hosts)]
    ensures env in Keys(rec) ==>
              |r| == |rec| && forall i :: 0 <= i < |rec| ==> r[i].environment == rec[i].environment
    decreases |rec|
  {
    if rec == [] then [Refusal(env, hosts)]
    else if rec[0].environment == env then [Refusal(env, hosts)] + rec[1..]
    else [rec[0]] + Put(rec[1..], env, hosts)
  }

  // ---------------------------------------------------------------------------
  // Diagnostics

  datatype Warning =
    | ProtectedEnvironmentWarning(protected: seq<Name>)
    | RefusalWarning(environment: Name, hosts: seq<Name>)

  /** One warning per entry of the refusal record, in record order. */
  function RefusalWarnings(rec: Refusals): (r: seq<Warning>)
  {
    seq(|rec|, i requires 0 <= i < |rec| => RefusalWarning(rec[i].environment, rec[i].hosts))
  }

  // ---------------------------------------------------------------------------
  // The runs: each function below follows one loop of the source from its
  // i-th iteration on, starting from the tool state `t`, and gives the tool
  // state it leaves and the outcome.

  /** `add_puppet_environments`: one create per name, in order; a failed
      create raises and ends the run. */
  function AddRun(envs: seq<Name>, i: nat, t: ToolState, failing: set<Call>): Run<()>
    requires i <= |envs|
    decreases |envs| - i
  {
    if i == |envs| then Run(t, Ok(()))
    else
      var c := CreateEnvironment(envs[i]);
      var t1 := Perform(t, c, failing);
      if c in failing then Run(t1, Err(ExternalOperationFailed(c)))
      else AddRun(envs, i + 1, t1, failing)
  }

  /** One iteration of `delete_puppet_environments`' loop, for `env`: list
      its hosts; a name with hosts is recorded in `refused` and skipped, a
      name without hosts is deleted; a failed call raises. Gives the tool
      state after the iteration and the updated record or the error. */
  function DeleteStep(env: Name, t: ToolState, failing: set<Call>, refused: Refusals): Run<Refusals>
  {
    var q := ListHosts(env);
    var t1 := Perform(t, q, failing);
    if q in failing then Run(t1, Err(ExternalOperationFailed(q)))
    else
      var inUse := HostsIn(t.world.hosts, env);
      if inUse != [] then Run(t1, Ok(Put(refused, env, inUse)))
      else
        var d := DeleteEnvironment(env);
        var t2 := Perform(t1, d, failing);
        if d in failing then Run(t2, Err(ExternalOperationFailed(d)))
        else Run(t2, Ok(refused))
  }

  /** `delete_puppet_environments`' loop from its i-th iteration on; a failed
      call ends the run. */
  function DeleteRun(envs: seq<Name>, i: nat, t: ToolState, failing: set<Call>, refused: Refusals)
    : Run<Refusals>
    requires i <= |envs|
    decreases |envs| - i
  {
    if i == |envs| then Run(t, Ok(refused))
    else
      var step := DeleteStep(envs[i], t, failing, refused);
      if step.result.Err? then step
      else DeleteRun(envs, i + 1, step.tool, failing, step.result.value)
  }

  /** The warnings `delete_puppet_environments` emits after its loop: one per
      refusal, and none when nothing was refused or the loop raised. */
  function DeleteWarnings(run: Run<Refusals>): seq<Warning>
  {
    if run.result.Ok? && run.result.value != [] then RefusalWarnings(run.result.value) else []
  }

  /** `force_delete_puppet_environment`'s loop and last call: move each host
      to `replacement`, in order, then delete `source`; a failed call raises
      and ends the run. */
  function MigrateRun(hosts: seq<Name>, i: nat, source: Name, replacement: Name, t: ToolState,
                      failing: set<Call>): Run<()>
    requires i <= |hosts|
    decreases |hosts| - i
  {
    if i == |hosts| then
      var d := DeleteEnvironment(source);
      Run(Perform(t, d, failing), if d in failing then Err(ExternalOperationFailed(d)) else Ok(()))
    else
      var u := UpdateHost(hosts[i], replacement);
      var t1 := Perform(t, u, failing);
      if u in failing then Run(t1, Err(ExternalOperationFailed(u)))
      else MigrateRun(hosts, i + 1, source, replacement, t1, failing)
  }

  /** `force_delete_puppet_environment`: list the hosts of `source`, then migrate them. */
  function ForceRun(source: Name, replacement: Name, t: ToolState, failing: set<Call>): Run<()>
  {
    var q := ListHosts(source);
    var t1 := Perform(t, q, failing);
    if q in failing then Run(t1, Err(ExternalOperationFailed(q)))
    else MigrateRun(HostsIn(t.world.hosts, source), 0, source, replacement, t1, failing)
  }

  /** The configuration a syncer is made with. */
  datatype Config = Config(protected: seq<Name>, neverAdd: seq<Name>)

  /** The tool state, the warnings and the outcome of one sync. */
  datatype SyncOutcome = SyncOutcome(tool: ToolState, warnings: seq<Warning>, result: Result<Refusals, Error>)

  /** `add_puppet_environments(to_add) unless to_add.empty?` */
  function AddUnlessEmpty(toAdd: seq<Name>, t: ToolState, failing: set<Call>): Run<()>
  {
    if toAdd == [] then Run(t, Ok(())) else AddRun(toAdd, 0, t, failing)
  }

  /** `delete_puppet_environments(to_remove) unless to_remove.empty?`; an
      empty record stands for the nothing the source then returns. */
  function DeleteUnlessEmpty(toRemove: seq<Name>, t: ToolState, failing: set<Call>): Run<Refusals>
  {
    if toRemove == [] then Run(t, Ok([])) else DeleteRun(toRemove, 0, t, failing, [])
  }

  /** `sync_puppet_environments` from tool state `t`: list, diff, guard, add, delete. */
  function SyncRun(desired: seq<Name>, t: ToolState, failing: set<Call>, config: Config): SyncOutcome
  {
    var t1 := Perform(t, ListEnvironments, failing);
    if ListEnvironments in failing then
      SyncOutcome(t1, [], Err(ExternalOperationFailed(ListEnvironments)))
    else
      var current := t.world.environments;
      var toAdd := ToAdd(desired, current, config.neverAdd);
      var toRemove := ToRemove(current, desired);
      if AnyProtected(toRemove, config.protected) then
        SyncOutcome(t1, [ProtectedEnvironmentWarning(config.protected)], Err(ProtectedEnvironmentViolation))
      else
        var add := AddUnlessEmpty(toAdd, t1, failing);
        if add.result.Err? then
          SyncOutcome(add.tool, [], Err(add.result.error))
        else
          var del := DeleteUnlessEmpty(toRemove, add.tool, failing);
          SyncOutcome(del.tool, DeleteWarnings(del), del.result)
  }

  // ---------------------------------------------------------------------------
  // The syncer

  class PuppetEnvironmentSyncer {
    const shi: SatelliteHammerInterface
    const protectedEnvironments: seq<Name>
    const neverAddEnvironments: seq<Name>
    var warnings: seq<Warning>

    function Configuration(): Config
    {
      Config(protectedEnvironments, neverAddEnvironments)
    }

    constructor (shi: SatelliteHammerInterface,
                 nameonly protectedEnvironments: seq<Name> := DefaultProtectedEnvironments,
                 nameonly neverAddEnvironments: seq<Name> := DefaultNeverAddEnvironments)
      ensures this.shi == shi
      ensures this.protectedEnvironments == protectedEnvironments
      ensures this.neverAddEnvironments == neverAddEnvironments
      ensures warnings == []
    {
      this.shi := shi;
      this.protectedEnvironments := protectedEnvironments;
      this.neverAddEnvironments := neverAddEnvironments;
      this.warnings := [];
    }

    method SyncPuppetEnvironments(desired: seq<Name>) returns (r: Result<Refusals, Error>)
      modifies this, shi
      ensures var run := SyncRun(desired, old(shi.State()), shi.failing, Configuration());
              shi.State() == run.tool && warnings == old(warnings) + run.warnings && r == run.result
    {
      ghost var run := SyncRun(desired, shi.State(), shi.failing, Configuration());
      var listed := shi.PuppetEnvironmentList();
      if listed.Err? {
        assert run.warnings == [];
        return Err(listed.error);
      }
      var current := listed.value;
      var toAdd := ToAdd(desired, current, neverAddEnvironments);
      var toRemove := ToRemove(current, desired);
      var guard := ProtectPuppetEnvironments(toRemove);
      if guard.Err? {
        assert run.warnings == [ProtectedEnvironmentWarning(protectedEnvironments)];
        return Err(guard.error);
      }
      assert warnings == old(warnings);
      ghost var t1 := shi.State();
      ghost var add := AddUnlessEmpty(toAdd, t1, shi.failing);
      if toAdd != [] {
        var added := AddPuppetEnvironments(toAdd);
        if added.Err? {
          assert run.warnings == [];
          return Err(added.error);
        }
      }
      assert shi.State() == add.tool && add.result.Ok?;
      r := Ok([]);
      if toRemove != [] {
        r := DeletePuppetEnvironments(toRemove);
      } else {
        assert run.warnings == [];
      }
    }

    method ProtectPuppetEnvironments(toRemove: seq<Name>) returns (r: Result<(), Error>)
      modifies this
      ensures r.Err? <==> exists x :: x in toRemove && x in protectedEnvironments
      ensures r.Err? ==> r.error == ProtectedEnvironmentViolation
      ensures warnings == old(warnings) +
                (if r.Err? then [ProtectedEnvironmentWarning(protectedEnvironments)] else [])
    {
      if !AnyProtected(toRemove, protectedEnvironments) {
        return Ok(());
      }
      warnings := warnings + [ProtectedEnvironmentWarning(protectedEnvironments)];
      r := Err(ProtectedEnvironmentViolation);
    }

    method AddPuppetEnvironments(envs: seq<Name>) returns (r: Result<(), Error>)
      modifies shi
      ensures var run := AddRun(envs, 0, old(shi.State()), shi.failing);
              shi.State() == run.tool && r == run.result
    {
      for i := 0 to |envs|
        invariant AddRun(envs, i, shi.State(), shi.failing) == AddRun(envs, 0, old(shi.State()), shi.failing)
      {
        var created := shi.PuppetEnvironmentCreate(envs[i]);
        if created.Err? {
          return created;
        }
      }
      r := Ok(());
    }

    method DeletePuppetEnvironments(envs: seq<Name>) returns (r: Result<Refusals, Error>)
      modifies this, shi
      ensures var run := DeleteRun(envs, 0, old(shi.State()), shi.failing, []);
              shi.State() == run.tool && warnings == old(warnings) + DeleteWarnings(run) &&
              r == run.result
    {
      var refused: Refusals := [];
      for i := 0 to |envs|
        invariant DeleteRun(envs, i, shi.State(), shi.failing, refused)
                  == DeleteRun(envs, 0, old(shi.State()), shi.failing, [])
        invariant warnings == old(warnings)
      {
        var next := DeleteOrRefuse(envs[i], refused);
        if next.Err? {
          return next;
        }
        refused := next.value;
      }
      if refused != [] {
        HandleDeleteRefusals(refused);
      }
      r := Ok(refused);
    }

    /** The body of `delete_puppet_environments`' loop for one name. */
    method DeleteOrRefuse(env: Name, refused: Refusals) returns (r: Result<Refusals, Error>)
      modifies shi
      ensures var step := DeleteStep(env, old(shi.State()), shi.failing, refused);
              shi.State() == step.tool && r == step.result
    {
      var hosts := shi.HostList(env);
      if hosts.Err? {
        return Err(hosts.error);
      }
      if hosts.value != [] {
        return Ok(Put(refused, env, hosts.value));
      }
      var deleted := shi.PuppetEnvironmentDelete(env);
      if deleted.Err? {
        return Err(deleted.error);
      }
      r := Ok(refused);
    }

    /** Reports each refusal, one warning per entry, in record order. */
    method HandleDeleteRefusals(rec: Refusals)
      modifies this
      ensures warnings == old(warnings) + RefusalWarnings(rec)
    {
      for i := 0 to |rec|
        invariant warnings == old(warnings) + RefusalWarnings(rec[..i])
      {
        assert RefusalWarnings(rec[..i + 1]) == RefusalWarnings(rec[..i]) + [RefusalWarning(rec[i].environment, rec[i].hosts)];
        warnings := warnings + [RefusalWarning(rec[i].environment, rec[i].hosts)];
      }
      assert rec[..|rec|] == rec;
    }

    method ForceDeletePuppetEnvironment(source: Name, replacement: Name) returns (r: Result<(), Error>)
      modifies shi
      ensures var run := ForceRun(source, replacement, old(shi.State()), shi.failing);
              shi.State() == run.tool && r == run.result
    {
      var listed := shi.HostList(source);
      if listed.Err? {
        return Err(listed.error);
      }
      var hosts := listed.value;
      for i := 0 to |hosts|
        invariant MigrateRun(hosts, i, source, replacement, shi.State(), shi.failing)
                  == ForceRun(source, replacement, old(shi.State()), shi.failing)
      {
        var updated := shi.HostUpdatePuppetEnvironment(hosts[i], replacement);
        if updated.Err? {
          return updated;
        }
      }
      r := shi.PuppetEnvironmentDelete(source);
    }
  }
}
