/** The external management tool (`hammer`), seen only through the calls the
    syncers make to it. Its inventory is a World value; every call is appended
    to a log; a call may fail, and which calls fail is fixed by the set
    `failing` given to the tool when it is made. A failed call changes nothing. */
module Hammer {
  import opened Wrappers
  import opened Names

  /** One call to the external tool. */
  datatype Call =
    | ListEnvironments
    | CreateEnvironment(name: Name)
    | DeleteEnvironment(name: Name)
    | ListHosts(environment: Name)
    | UpdateHost(host: Name, environment: Name)

  /** Why a run stopped. It is shared by the tool, the syncer and the script, and lives
      here because a failed call carries the `Call` that failed; the other cases are
      the syncer's protection guard and the script's input checks. */
  datatype Error =
    | ExternalOperationFailed(call: Call)
    | ProtectedEnvironmentViolation
    | NoInputGiven
    | ConflictingInputs
    | FileNotFound(path: string)
    | NoEnvironmentsSpecified

  /** A host and the Puppet environment it is assigned to. */
  datatype HostRecord = HostRecord(name: Name, environment: Name)

  /** The inventory held by the external system. */
  datatype World = World(environments: seq<Name>, hosts: seq<HostRecord>)

  /** What the tool's host search `environment = env` returns: the names of
      the hosts assigned to `env`, in inventory order. */
  function HostsIn(hosts: seq<HostRecord>, env: Name): (r: seq<Name>)
    ensures |r| <= |hosts|
    ensures forall h :: h in r <==> HostRecord(h, env) in hosts
    decreases |hosts|
  {
    if hosts == [] then []
    else
      assert hosts == [hosts[0]] + hosts[1..];
      if hosts[0].environment == env then [hosts[0].name] + HostsIn(hosts[1..], env)
      else HostsIn(hosts[1..], env)
  }

  /** Every host record named `host` moved to `env`. */
  function Reassign(hosts: seq<HostRecord>, host: Name, env: Name): seq<HostRecord>
  {
    seq(|hosts|, i requires 0 <= i < |hosts| =>
      if hosts[i].name == host then HostRecord(host, env) else hosts[i])
  }

  /** The effect of one successful call on the inventory. */
  function Step(w: World, c: Call): World
  {
    match c
    case CreateEnvironment(n) => w.(environments := w.environments + [n])
    case DeleteEnvironment(n) => w.(environments := SeqMinus(w.environments, [n]))
    case UpdateHost(h, e) => w.(hosts := Reassign(w.hosts, h, e))
    case _ => w
  }

  /** The inventory after a sequence of calls; failed calls change nothing. */
  function Effect(w: World, calls: seq<Call>, failing: set<Call>): World
    decreases |calls|
  {
    if calls == [] then w
    else Effect(if calls[0] in failing then w else Step(w, calls[0]), calls[1..], failing)
  }

  lemma {:induction false} EffectAppend(w: World, a: seq<Call>, b: seq<Call>, failing: set<Call>)
    ensures Effect(w, a + b, failing) == Effect(Effect(w, a, failing), b, failing)
    decreases |a|
  {
    if a == [] {
      assert a + b == b;
    } else {
      assert (a + b)[1..] == a[1..] + b;
      EffectAppend(if a[0] in failing then w else Step(w, a[0]), a[1..], b, failing);
    }
  }

  /** Everything the fake tool holds: the inventory and the log of every call. */
  datatype ToolState = ToolState(world: World, log: seq<Call>)

  /** One call made to the tool: it is logged, and applied unless it fails. */
  function Perform(t: ToolState, c: Call, failing: set<Call>): ToolState
  {
    ToolState(if c in failing then t.world else Step(t.world, c), t.log + [c])
  }

  /** `t2`'s log extends `t`'s. */
  predicate Extends(t: ToolState, t2: ToolState)
  {
    |t.log| <= |t2.log| && t2.log[..|t.log|] == t.log
  }

  /** The calls made between `t` and `t2`. */
  function Issued(t: ToolState, t2: ToolState): seq<Call>
  {
    if |t.log| <= |t2.log| then t2.log[|t.log|..] else []
  }

  /** `t2` is `t` after some further calls: its log extends `t`'s, and its
      inventory is what those calls made of `t`'s. */
  predicate Follows(t: ToolState, t2: ToolState, failing: set<Call>)
  {
    Extends(t, t2) && t2.world == Effect(t.world, Issued(t, t2), failing)
  }

  lemma PerformExtends(t: ToolState, c: Call, failing: set<Call>)
    ensures Extends(t, Perform(t, c, failing))
    ensures Issued(t, Perform(t, c, failing)) == [c]
  {
    var t2 := Perform(t, c, failing);
    assert t2.log[|t.log|..] == [c];
    assert t2.log[..|t.log|] == t.log;
  }

  lemma PerformFollows(t: ToolState, c: Call, failing: set<Call>)
    ensures Follows(t, Perform(t, c, failing), failing)
  {
    PerformExtends(t, c, failing);
  }

  lemma ExtendsTrans(t1: ToolState, t2: ToolState, t3: ToolState)
    requires Extends(t1, t2) && Extends(t2, t3)
    ensures Extends(t1, t3)
    ensures Issued(t1, t3) == Issued(t1, t2) + Issued(t2, t3)
  {
    var a, b := Issued(t1, t2), Issued(t2, t3);
    assert t3.log == t1.log + a + b by {
      assert t2.log == t2.log[..|t1.log|] + a;
      assert t3.log == t3.log[..|t2.log|] + b;
    }
    assert t3.log[..|t1.log|] == t1.log;
    assert t3.log[|t1.log|..] == a + b;
  }

  lemma FollowsTrans(t1: ToolState, t2: ToolState, t3: ToolState, failing: set<Call>)
    requires Follows(t1, t2, failing) && Follows(t2, t3, failing)
    ensures Follows(t1, t3, failing)
  {
    ExtendsTrans(t1, t2, t3);
    EffectAppend(t1.world, Issued(t1, t2), Issued(t2, t3), failing);
  }

  lemma FollowsRefl(t: ToolState, failing: set<Call>)
    ensures Follows(t, t, failing) && Issued(t, t) == []
  {
    assert t.log[..|t.log|] == t.log;
  }

  /** A run stops at its first failed call: no call before the last one
      failed, a successful run has no failed call, and an external failure is
      reported for the last call issued. */
  predicate FailFast<T>(calls: seq<Call>, result: Result<T, Error>, failing: set<Call>)
  {
    (forall i :: 0 <= i < |calls| - 1 ==> calls[i] !in failing) &&
    (result.Ok? ==> forall i :: 0 <= i < |calls| ==> calls[i] !in failing) &&
    (result.Err? && result.error.ExternalOperationFailed? ==>
       |calls| > 0 && calls[|calls| - 1] == result.error.call && result.error.call in failing)
  }

  /** Calls that all succeeded, followed by a run that stops at its first
      failure, make a run that stops at its first failure. */
  lemma FailFastAppend<T>(a: seq<Call>, b: seq<Call>, result: Result<T, Error>, failing: set<Call>)
    requires forall k :: 0 <= k < |a| ==> a[k] !in failing
    requires FailFast(b, result, failing)
    ensures FailFast(a + b, result, failing)
  {
    var c := a + b;
    forall k | 0 <= k < |c| - 1
      ensures c[k] !in failing
    {
      if k >= |a| { assert c[k] == b[k - |a|]; }
    }
    if result.Err? && result.error.ExternalOperationFailed? {
      assert c[|c| - 1] == b[|b| - 1];
    }
  }

  /** The tool after one run of a syncer operation, and its outcome. */
  datatype Run<T> = Run(tool: ToolState, result: Result<T, Error>)

  /** The external tool: its inventory, the log of every call made to it and
      the calls that fail. */
  class SatelliteHammerInterface {
    var environments: seq<Name>
    var hosts: seq<HostRecord>
    var log: seq<Call>
    const failing: set<Call>

    function State(): ToolState
      reads this
    {
      ToolState(World(environments, hosts), log)
    }

    constructor (environments: seq<Name>, hosts: seq<HostRecord>, failing: set<Call>)
      ensures State() == ToolState(World(environments, hosts), [])
      ensures this.failing == failing
    {
      this.environments := environments;
      this.hosts := hosts;
      this.failing := failing;
      this.log := [];
    }

    /** Logs `c` and applies it unless it fails. */
    method Issue(c: Call) returns (ok: bool)
      modifies this
      ensures State() == Perform(old(State()), c, failing)
      ensures ok == (c !in failing)
    {
      log := log + [c];
      ok := c !in failing;
      if ok {
        var w := Step(World(environments, hosts), c);
        environments, hosts := w.environments, w.hosts;
      }
    }

    method PuppetEnvironmentList() returns (r: Result<seq<Name>, Error>)
      modifies this
      ensures State() == Perform(old(State()), ListEnvironments, failing)
      ensures r == if ListEnvironments in failing then Err(ExternalOperationFailed(ListEnvironments))
                   else Ok(environments)
    {
      var ok := Issue(ListEnvironments);
      r := if ok then Ok(environments) else Err(ExternalOperationFailed(ListEnvironments));
    }

    method PuppetEnvironmentCreate(name: Name) returns (r: Result<(), Error>)
      modifies this
      ensures State() == Perform(old(State()), CreateEnvironment(name), failing)
      ensures r == if CreateEnvironment(name) in failing then Err(ExternalOperationFailed(CreateEnvironment(name)))
                   else Ok(())
    {
      var ok := Issue(CreateEnvironment(name));
      r := if ok then Ok(()) else Err(ExternalOperationFailed(CreateEnvironment(name)));
    }

    method PuppetEnvironmentDelete(name: Name) returns (r: Result<(), Error>)
      modifies this
      ensures State() == Perform(old(State()), DeleteEnvironment(name), failing)
      ensures r == if DeleteEnvironment(name) in failing then Err(ExternalOperationFailed(DeleteEnvironment(name)))
                   else Ok(())
    {
      var ok := Issue(DeleteEnvironment(name));
      r := if ok then Ok(()) else Err(ExternalOperationFailed(DeleteEnvironment(name)));
    }

    method HostList(env: Name) returns (r: Result<seq<Name>, Error>)
      modifies this
      ensures State() == Perform(old(State()), ListHosts(env), failing)
      ensures r == if ListHosts(env) in failing then Err(ExternalOperationFailed(ListHosts(env)))
                   else Ok(HostsIn(hosts, env))
    {
      var ok := Issue(ListHosts(env));
      r := if ok then Ok(HostsIn(hosts, env)) else Err(ExternalOperationFailed(ListHosts(env)));
    }

    method HostUpdatePuppetEnvironment(host: Name, env: Name) returns (r: Result<(), Error>)
      modifies this
      ensures State() == Perform(old(State()), UpdateHost(host, env), failing)
      ensures r == if UpdateHost(host, env) in failing then Err(ExternalOperationFailed(UpdateHost(host, env)))
                   else Ok(())
    {
      var ok := Issue(UpdateHost(host, env));
      r := if ok then Ok(()) else Err(ExternalOperationFailed(UpdateHost(host, env)));
    }
  }
}
