/** The older standalone synchronisation script: it validates its options,
    picks the desired names from a file or the command line, lists the
    existing environments, keeps `production` out of both the creates and
    the deletes, creates the missing names and then deletes the unwanted
    ones, stopping at the first command that fails. The external commands
    are made through the fake tool of module Hammer. */
module Script {
  import opened Wrappers
  import opened Names
  import opened Hammer

  /** The one environment the script never adds and never removes. */
  const Production: Name := "production"

  /** The command-line options that choose the desired names: a path to a
      file holding them, or the names themselves. */
  datatype Options = Options(file: Option<string>, environments: Option<seq<Name>>)

  /** The warnings the script prints about `production`. */
  datatype Notice = ProductionNotAdded | ProductionNotRemoved

  /** `validate_options`: exactly one of the two inputs must be given. */
  function ValidateOptions(o: Options): (r: Result<(), Error>)
    ensures r.Ok? <==> (o.file.Some? <==> o.environments.None?)
    ensures r.Err? ==> r.error == if o.file.None? then NoInputGiven else ConflictingInputs
  {
    if o.file.None? && o.environments.None? then Err(NoInputGiven)
    else if o.file.Some? && o.environments.Some? then Err(ConflictingInputs)
    else Ok(())
  }

  /** The desired names: the file's contents when a file is given (an error
      when it does not exist), else the listed names. Whether the file
      exists and what it holds are parameters. */
  function SelectDesired(o: Options, fileExists: bool, fileContents: seq<Name>): (r: Result<seq<Name>, Error>)
    ensures r.Ok? <==> (o.file.Some? && fileExists) || (o.file.None? && o.environments.Some?)
    ensures r.Ok? ==> r.value == if o.file.Some? then fileContents else o.environments.value
    ensures r.Err? ==> r.error == if o.file.Some? then FileNotFound(o.file.value) else NoEnvironmentsSpecified
  {
    if o.file.Some? then
      if !fileExists then Err(FileNotFound(o.file.value)) else Ok(fileContents)
    else if o.environments.Some? then Ok(o.environments.value)
    else Err(NoEnvironmentsSpecified)
  }

  /** Whether `production` is desired but does not exist, and so is dropped
      from the desired names with a warning. */
  predicate DropsProduction(desired: seq<Name>, current: seq<Name>)
  {
    Production in desired && Production !in current
  }

  /** The desired names after the `production` rule: every occurrence of
      `production` is dropped when it does not exist yet. */
  function AdjustDesired(desired: seq<Name>, current: seq<Name>): (r: seq<Name>)
    ensures Production in r ==> Production in current
    ensures forall x :: x != Production ==> (x in r <==> x in desired)
    ensures Production in current ==> r == desired
    ensures DropsProduction(desired, current) || r == desired
  {
    if DropsProduction(desired, current) then SeqMinus(desired, [Production]) else desired
  }

  /** The script's create loop from position `i` on: every desired name
      that does not exist is created, in desired order; `current` is the
      listing taken before the loop and is not updated by it. */
  function CreateRun(desired: seq<Name>, current: seq<Name>, i: nat, t: ToolState, failing: set<Call>): Run<()>
    requires i <= |desired|
    decreases |desired| - i
  {
    if i == |desired| then Run(t, Ok(()))
    else if desired[i] in current then CreateRun(desired, current, i + 1, t, failing)
    else
      var c := CreateEnvironment(desired[i]);
      var t1 := Perform(t, c, failing);
      if c in failing then Run(t1, Err(ExternalOperationFailed(c)))
      else CreateRun(desired, current, i + 1, t1, failing)
  }

  /** The tool after a run of the script, the warnings printed and how it
      ended. */
  datatype Outcome = Outcome(tool: ToolState, notices: seq<Notice>, result: Result<(), Error>)

  /** The script's delete loop from position `i` on: `production` is
      skipped with a warning, every other name is deleted. */
  function RemoveRun(toDelete: seq<Name>, i: nat, t: ToolState, failing: set<Call>, notices: seq<Notice>): Outcome
    requires i <= |toDelete|
    decreases |toDelete| - i
  {
    if i == |toDelete| then Outcome(t, notices, Ok(()))
    else if toDelete[i] == Production then RemoveRun(toDelete, i + 1, t, failing, notices + [ProductionNotRemoved])
    else
      var c := DeleteEnvironment(toDelete[i]);
      var t1 := Perform(t, c, failing);
      if c in failing then Outcome(t1, notices, Err(ExternalOperationFailed(c)))
      else RemoveRun(toDelete, i + 1, t1, failing, notices)
  }

  /** The script after its listing `current`, from tool state `t`: the
      `production` rule, the create loop, then the delete loop over the
      existing names that are not desired. */
  function Reconcile(desired: seq<Name>, current: seq<Name>, t: ToolState, failing: set<Call>): Outcome
  {
    var notices := if DropsProduction(desired, current) then [ProductionNotAdded] else [];
    var adjusted := AdjustDesired(desired, current);
    var created := CreateRun(adjusted, current, 0, t, failing);
    if created.result.Err? then Outcome(created.tool, notices, Err(created.result.error))
    else RemoveRun(SeqMinus(current, adjusted), 0, created.tool, failing, notices)
  }

  /** A whole run of the script from tool state `t`. */
  function ScriptRun(o: Options, fileExists: bool, fileContents: seq<Name>, t: ToolState, failing: set<Call>): Outcome
  {
    var valid := ValidateOptions(o);
    if valid.Err? then Outcome(t, [], Err(valid.error))
    else
      var selected := SelectDesired(o, fileExists, fileContents);
      if selected.Err? then Outcome(t, [], Err(selected.error))
      else
        var t1 := Perform(t, ListEnvironments, failing);
        if ListEnvironments in failing then Outcome(t1, [], Err(ExternalOperationFailed(ListEnvironments)))
        else Reconcile(selected.value, t.world.environments, t1, failing)
  }

  /** The script, run against the tool `shi`. */
  method SyncScript(shi: SatelliteHammerInterface, o: Options, fileExists: bool, fileContents: seq<Name>)
    returns (notices: seq<Notice>, r: Result<(), Error>)
    modifies shi
    ensures var run := ScriptRun(o, fileExists, fileContents, old(shi.State()), shi.failing);
            shi.State() == run.tool && notices == run.notices && r == run.result
  {
    notices := [];
    var valid := ValidateOptions(o);
    if valid.Err? {
      return notices, Err(valid.error);
    }
    var selected := SelectDesired(o, fileExists, fileContents);
    if selected.Err? {
      return notices, Err(selected.error);
    }
    var desired := selected.value;
    var listed := shi.PuppetEnvironmentList();
    if listed.Err? {
      return notices, Err(listed.error);
    }
    var current := listed.value;
    if DropsProduction(desired, current) {
      notices := [ProductionNotAdded];
      desired := SeqMinus(desired, [Production]);
    }
    ghost var t1 := shi.State();
    for i := 0 to |desired|
      invariant CreateRun(desired, current, i, shi.State(), shi.failing) == CreateRun(desired, current, 0, t1, shi.failing)
    {
      if desired[i] !in current {
        var created := shi.PuppetEnvironmentCreate(desired[i]);
        if created.Err? {
          return notices, Err(created.error);
        }
      }
    }
    var toDelete := SeqMinus(current, desired);
    ghost var t2 := shi.State();
    ghost var n2 := notices;
    for i := 0 to |toDelete|
      invariant RemoveRun(toDelete, i, shi.State(), shi.failing, notices) == RemoveRun(toDelete, 0, t2, shi.failing, n2)
    {
      if toDelete[i] == Production {
        notices := notices + [ProductionNotRemoved];
      } else {
        var deleted := shi.PuppetEnvironmentDelete(toDelete[i]);
        if deleted.Err? {
          return notices, Err(deleted.error);
        }
      }
    }
    r := Ok(());
  }
}
