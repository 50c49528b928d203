/** What one run of the standalone script guarantees: bad input issues no
    command, `production` is never created and never deleted, the missing
    names are created (each once per occurrence in the desired list) before
    the unwanted ones are deleted, the first failing command ends the run,
    and a successful run leaves every name but `production` as desired. */
module ScriptProperties {
  import opened Wrappers
  import opened Names
  import opened Hammer
  import opened Script
  import opened SyncerProperties
  import opened SyncProperties

  /** One delete call per name, in order. */
  function Deletes(names: seq<Name>): seq<Call>
  {
    seq(|names|, k requires 0 <= k < |names| => DeleteEnvironment(names[k]))
  }

  // ---------------------------------------------------------------------------
  // The create loop

  /** The inventory after the create loop is what its calls made of it. */
  lemma {:induction false} CreateRunFollows(desired: seq<Name>, current: seq<Name>, i: nat, t: ToolState,
                                            failing: set<Call>)
    requires i <= |desired|
    ensures Follows(t, CreateRun(desired, current, i, t, failing).tool, failing)
    decreases |desired| - i
  {
    if i == |desired| {
      FollowsRefl(t, failing);
    } else if desired[i] in current {
      CreateRunFollows(desired, current, i + 1, t, failing);
    } else {
      var c := CreateEnvironment(desired[i]);
      var t1 := Perform(t, c, failing);
      PerformFollows(t, c, failing);
      if c !in failing {
        CreateRunFollows(desired, current, i + 1, t1, failing);
        FollowsTrans(t, t1, CreateRun(desired, current, i + 1, t1, failing).tool, failing);
      }
    }
  }

  /** The create loop issues the creates of `desired[i..] - current` in
      order, stopping at the first that fails, which is then its error; it
      succeeds exactly when none of them fails. */
  lemma {:induction false} CreateRunFacts(desired: seq<Name>, current: seq<Name>, i: nat, t: ToolState,
                                          failing: set<Call>)
    requires i <= |desired|
    ensures var run := CreateRun(desired, current, i, t, failing);
            var missing := SeqMinus(desired[i..], current);
            Extends(t, run.tool) && FailFast(Issued(t, run.tool), run.result, failing) &&
            (run.result.Err? ==> run.result.error.ExternalOperationFailed?) &&
            Issued(t, run.tool) <= Creates(missing) &&
            (run.result.Ok? <==> forall c :: c in Creates(missing) ==> c !in failing) &&
            (run.result.Ok? ==> Issued(t, run.tool) == Creates(missing))
    decreases |desired| - i
  {
    var run := CreateRun(desired, current, i, t, failing);
    if i == |desired| {
      FollowsRefl(t, failing);
    } else {
      var d := desired[i];
      var rest := SeqMinus(desired[i + 1..], current);
      assert desired[i..][1..] == desired[i + 1..];
      if d in current {
        assert SeqMinus(desired[i..], current) == rest;
        CreateRunFacts(desired, current, i + 1, t, failing);
      } else {
        var c := CreateEnvironment(d);
        var t1 := Perform(t, c, failing);
        assert SeqMinus(desired[i..], current) == [d] + rest;
        assert Creates([d] + rest) == [c] + Creates(rest);
        PerformExtends(t, c, failing);
        if c !in failing {
          CreateRunFacts(desired, current, i + 1, t1, failing);
          ExtendsTrans(t, t1, run.tool);
          FailFastAppend([c], Issued(t1, run.tool), run.result, failing);
        }
      }
    }
  }

  /** After a successful create loop the names of `desired[i..] - current`
      have been appended to the inventory, and host assignments are
      untouched. */
  lemma {:induction false} CreateRunInventory(desired: seq<Name>, current: seq<Name>, i: nat, t: ToolState,
                                              failing: set<Call>)
    requires i <= |desired|
    ensures var run := CreateRun(desired, current, i, t, failing);
            run.result.Ok? ==>
              run.tool.world.hosts == t.world.hosts &&
              run.tool.world.environments == t.world.environments + SeqMinus(desired[i..], current)
    decreases |desired| - i
  {
    var run := CreateRun(desired, current, i, t, failing);
    if i < |desired| && run.result.Ok? {
      var d := desired[i];
      var rest := SeqMinus(desired[i + 1..], current);
      assert desired[i..][1..] == desired[i + 1..];
      if d in current {
        assert SeqMinus(desired[i..], current) == rest;
        CreateRunInventory(desired, current, i + 1, t, failing);
      } else {
        var t1 := Perform(t, CreateEnvironment(d), failing);
        assert SeqMinus(desired[i..], current) == [d] + rest;
        CreateRunInventory(desired, current, i + 1, t1, failing);
        assert t.world.environments + [d] + rest == t.world.environments + ([d] + rest);
      }
    }
  }

  // ---------------------------------------------------------------------------
  // The delete loop

  /** The inventory after the delete loop is what its calls made of it. */
  lemma {:induction false} RemoveRunFollows(toDelete: seq<Name>, i: nat, t: ToolState, failing: set<Call>,
                                            notices: seq<Notice>)
    requires i <= |toDelete|
    ensures Follows(t, RemoveRun(toDelete, i, t, failing, notices).tool, failing)
    decreases |toDelete| - i
  {
    if i == |toDelete| {
      FollowsRefl(t, failing);
    } else if toDelete[i] == Production {
      RemoveRunFollows(toDelete, i + 1, t, failing, notices + [ProductionNotRemoved]);
    } else {
      var c := DeleteEnvironment(toDelete[i]);
      var t1 := Perform(t, c, failing);
      PerformFollows(t, c, failing);
      if c !in failing {
        RemoveRunFollows(toDelete, i + 1, t1, failing, notices);
        FollowsTrans(t, t1, RemoveRun(toDelete, i + 1, t1, failing, notices).tool, failing);
      }
    }
  }

  /** The delete loop issues the deletes of `toDelete[i..]` without
      `production`, in order, stopping at the first that fails, which is
      then its error; it succeeds exactly when none of them fails. */
  lemma {:induction false} RemoveRunFacts(toDelete: seq<Name>, i: nat, t: ToolState, failing: set<Call>,
                                          notices: seq<Notice>)
    requires i <= |toDelete|
    ensures var out := RemoveRun(toDelete, i, t, failing, notices);
            var doomed := SeqMinus(toDelete[i..], [Production]);
            Extends(t, out.tool) && FailFast(Issued(t, out.tool), out.result, failing) &&
            (out.result.Err? ==> out.result.error.ExternalOperationFailed?) &&
            Issued(t, out.tool) <= Deletes(doomed) &&
            (out.result.Ok? <==> forall c :: c in Deletes(doomed) ==> c !in failing) &&
            (out.result.Ok? ==> Issued(t, out.tool) == Deletes(doomed))
    decreases |toDelete| - i
  {
    var out := RemoveRun(toDelete, i, t, failing, notices);
    if i == |toDelete| {
      FollowsRefl(t, failing);
    } else {
      var d := toDelete[i];
      var rest := SeqMinus(toDelete[i + 1..], [Production]);
      assert toDelete[i..][1..] == toDelete[i + 1..];
      if d == Production {
        assert SeqMinus(toDelete[i..], [Production]) == rest;
        RemoveRunFacts(toDelete, i + 1, t, failing, notices + [ProductionNotRemoved]);
      } else {
        var c := DeleteEnvironment(d);
        var t1 := Perform(t, c, failing);
        assert SeqMinus(toDelete[i..], [Production]) == [d] + rest;
        assert Deletes([d] + rest) == [c] + Deletes(rest);
        PerformExtends(t, c, failing);
        if c !in failing {
          RemoveRunFacts(toDelete, i + 1, t1, failing, notices);
          ExtendsTrans(t, t1, out.tool);
          FailFastAppend([c], Issued(t1, out.tool), out.result, failing);
        }
      }
    }
  }

  /** After a successful delete loop, the names of `toDelete[i..]` other
      than `production` are gone from the inventory and nothing else is. */
  lemma {:induction false} RemoveRunInventory(toDelete: seq<Name>, i: nat, t: ToolState, failing: set<Call>,
                                              notices: seq<Notice>)
    requires i <= |toDelete|
    ensures var out := RemoveRun(toDelete, i, t, failing, notices);
            out.result.Ok? ==>
              out.tool.world.environments == SeqMinus(t.world.environments, SeqMinus(toDelete[i..], [Production]))
    decreases |toDelete| - i
  {
    if i == |toDelete| {
      SeqMinusKeepsAll(t.world.environments, []);
    } else {
      var d := toDelete[i];
      var rest := SeqMinus(toDelete[i + 1..], [Production]);
      assert toDelete[i..][1..] == toDelete[i + 1..];
      if d == Production {
        assert SeqMinus(toDelete[i..], [Production]) == rest;
        RemoveRunInventory(toDelete, i + 1, t, failing, notices + [ProductionNotRemoved]);
      } else {
        var c := DeleteEnvironment(d);
        assert SeqMinus(toDelete[i..], [Production]) == [d] + rest;
        if c !in failing {
          RemoveRunInventory(toDelete, i + 1, Perform(t, c, failing), failing, notices);
          SeqMinusTwice(t.world.environments, [d], rest);
        }
      }
    }
  }

  /** The delete loop adds only `production` warnings to the notices, and
      when it succeeds it has added one exactly when `production` was among
      the names to delete. */
  lemma {:induction false} RemoveRunNotices(toDelete: seq<Name>, i: nat, t: ToolState, failing: set<Call>,
                                            notices: seq<Notice>)
    requires i <= |toDelete|
    ensures var out := RemoveRun(toDelete, i, t, failing, notices);
            (forall n :: n in out.notices ==> n in notices || n == ProductionNotRemoved) &&
            (out.result.Ok? ==>
               forall n :: n in out.notices <==>
                           n in notices || (n == ProductionNotRemoved && Production in toDelete[i..]))
    decreases |toDelete| - i
  {
    if i < |toDelete| {
      assert toDelete[i..] == [toDelete[i]] + toDelete[i + 1..];
      if toDelete[i] == Production {
        RemoveRunNotices(toDelete, i + 1, t, failing, notices + [ProductionNotRemoved]);
      } else {
        RemoveRunNotices(toDelete, i + 1, Perform(t, DeleteEnvironment(toDelete[i]), failing), failing, notices);
      }
    }
  }

  // ---------------------------------------------------------------------------
  // After the listing

  /** Membership in a list of creates. */
  lemma InCreates(names: seq<Name>, c: Call)
    ensures c in Creates(names) <==> c.CreateEnvironment? && c.name in names
  {
    if c in Creates(names) {
      var k :| 0 <= k < |names| && Creates(names)[k] == c;
    }
    if c.CreateEnvironment? && c.name in names {
      var k :| 0 <= k < |names| && names[k] == c.name;
      assert Creates(names)[k] == c;
    }
  }

  /** Membership in a list of deletes. */
  lemma InDeletes(names: seq<Name>, c: Call)
    ensures c in Deletes(names) <==> c.DeleteEnvironment? && c.name in names
  {
    if c in Deletes(names) {
      var k :| 0 <= k < |names| && Deletes(names)[k] == c;
    }
    if c.DeleteEnvironment? && c.name in names {
      var k :| 0 <= k < |names| && names[k] == c.name;
      assert Deletes(names)[k] == c;
    }
  }

  /** The names the script creates when nothing fails: the desired names,
      after the `production` rule, that do not exist, in desired order. */
  function Missing(desired: seq<Name>, current: seq<Name>): seq<Name>
  {
    SeqMinus(AdjustDesired(desired, current), current)
  }

  /** The names the script deletes when nothing fails: the existing names
      that are not desired, after the `production` rule, other than
      `production`, in listing order. */
  function Doomed(desired: seq<Name>, current: seq<Name>): seq<Name>
  {
    SeqMinus(SeqMinus(current, AdjustDesired(desired, current)), [Production])
  }

  /** After the listing, the script follows its plan up to the first
      command that fails, which is then its error. */
  lemma ReconcilePlan(desired: seq<Name>, current: seq<Name>, t: ToolState, failing: set<Call>)
    ensures var out := Reconcile(desired, current, t, failing);
            Extends(t, out.tool) &&
            Issued(t, out.tool) <= Creates(Missing(desired, current)) + Deletes(Doomed(desired, current)) &&
            FailFast(Issued(t, out.tool), out.result, failing) &&
            (out.result.Err? ==> out.result.error.ExternalOperationFailed?)
  {
    var adjusted := AdjustDesired(desired, current);
    var notices := if DropsProduction(desired, current) then [ProductionNotAdded] else [];
    var created := CreateRun(adjusted, current, 0, t, failing);
    assert adjusted[0..] == adjusted;
    CreateRunFacts(adjusted, current, 0, t, failing);
    if created.result.Ok? {
      var toDelete := SeqMinus(current, adjusted);
      var out := RemoveRun(toDelete, 0, created.tool, failing, notices);
      assert toDelete[0..] == toDelete;
      RemoveRunFacts(toDelete, 0, created.tool, failing, notices);
      ExtendsTrans(t, created.tool, out.tool);
      FailFastAppend(Issued(t, created.tool), Issued(created.tool, out.tool), out.result, failing);
    }
  }

  /** After the listing, the script succeeds exactly when no command of its
      plan fails, and then it has made exactly the commands of its plan. */
  lemma ReconcileSucceeds(desired: seq<Name>, current: seq<Name>, t: ToolState, failing: set<Call>)
    ensures var out := Reconcile(desired, current, t, failing);
            var plan := Creates(Missing(desired, current)) + Deletes(Doomed(desired, current));
            (out.result.Ok? <==> forall c :: c in plan ==> c !in failing) &&
            (out.result.Ok? ==> Issued(t, out.tool) == plan)
  {
    var adjusted := AdjustDesired(desired, current);
    var notices := if DropsProduction(desired, current) then [ProductionNotAdded] else [];
    var created := CreateRun(adjusted, current, 0, t, failing);
    assert adjusted[0..] == adjusted;
    CreateRunFacts(adjusted, current, 0, t, failing);
    if created.result.Ok? {
      var toDelete := SeqMinus(current, adjusted);
      var out := RemoveRun(toDelete, 0, created.tool, failing, notices);
      assert toDelete[0..] == toDelete;
      RemoveRunFacts(toDelete, 0, created.tool, failing, notices);
      ExtendsTrans(t, created.tool, out.tool);
    }
  }

  /** The inventory after the script's work following the listing is what
      its commands made of it. */
  lemma ReconcileFollows(desired: seq<Name>, current: seq<Name>, t: ToolState, failing: set<Call>)
    ensures Follows(t, Reconcile(desired, current, t, failing).tool, failing)
  {
    var adjusted := AdjustDesired(desired, current);
    var notices := if DropsProduction(desired, current) then [ProductionNotAdded] else [];
    var created := CreateRun(adjusted, current, 0, t, failing);
    CreateRunFollows(adjusted, current, 0, t, failing);
    if created.result.Ok? {
      var toDelete := SeqMinus(current, adjusted);
      RemoveRunFollows(toDelete, 0, created.tool, failing, notices);
      FollowsTrans(t, created.tool, RemoveRun(toDelete, 0, created.tool, failing, notices).tool, failing);
    }
  }

  // ---------------------------------------------------------------------------
  // One run of the script

  /** The commands a run makes when none of them fails: the listing, the
      creates of the missing names, then the deletes of the unwanted ones. */
  function Planned(desired: seq<Name>, current: seq<Name>): seq<Call>
  {
    [ListEnvironments] + Creates(Missing(desired, current)) + Deletes(Doomed(desired, current))
  }

  /** A run on valid input follows its plan up to the first command that
      fails, which is then its error. */
  lemma ScriptPlan(o: Options, fileExists: bool, fileContents: seq<Name>, desired: seq<Name>,
                   t: ToolState, failing: set<Call>)
    requires ValidateOptions(o).Ok?
    requires SelectDesired(o, fileExists, fileContents) == Ok(desired)
    ensures var run := ScriptRun(o, fileExists, fileContents, t, failing);
            Extends(t, run.tool) && Issued(t, run.tool) <= Planned(desired, t.world.environments) &&
            FailFast(Issued(t, run.tool), run.result, failing) &&
            (run.result.Err? ==> run.result.error.ExternalOperationFailed?)
  {
    var current := t.world.environments;
    var t1 := Perform(t, ListEnvironments, failing);
    PerformExtends(t, ListEnvironments, failing);
    if ListEnvironments !in failing {
      var out := Reconcile(desired, current, t1, failing);
      ReconcilePlan(desired, current, t1, failing);
      ExtendsTrans(t, t1, out.tool);
      FailFastAppend([ListEnvironments], Issued(t1, out.tool), out.result, failing);
      assert Planned(desired, current) ==
             [ListEnvironments] + (Creates(Missing(desired, current)) + Deletes(Doomed(desired, current)));
    }
  }

  /** A run on valid input succeeds exactly when no command of its plan
      fails, and then it has made exactly the commands of its plan. */
  lemma ScriptSucceeds(o: Options, fileExists: bool, fileContents: seq<Name>, desired: seq<Name>,
                       t: ToolState, failing: set<Call>)
    requires ValidateOptions(o).Ok?
    requires SelectDesired(o, fileExists, fileContents) == Ok(desired)
    ensures var run := ScriptRun(o, fileExists, fileContents, t, failing);
            var plan := Planned(desired, t.world.environments);
            (run.result.Ok? <==> forall c :: c in plan ==> c !in failing) &&
            (run.result.Ok? ==> Issued(t, run.tool) == plan)
  {
    var current := t.world.environments;
    var t1 := Perform(t, ListEnvironments, failing);
    var tail := Creates(Missing(desired, current)) + Deletes(Doomed(desired, current));
    assert Planned(desired, current) == [ListEnvironments] + tail;
    if ListEnvironments !in failing {
      var out := Reconcile(desired, current, t1, failing);
      ReconcilePlan(desired, current, t1, failing);
      ReconcileSucceeds(desired, current, t1, failing);
      PerformExtends(t, ListEnvironments, failing);
      ExtendsTrans(t, t1, out.tool);
    }
  }

  /** The inventory after a run is what its commands made of it. */
  lemma ScriptFollows(o: Options, fileExists: bool, fileContents: seq<Name>, t: ToolState, failing: set<Call>)
    ensures Follows(t, ScriptRun(o, fileExists, fileContents, t, failing).tool, failing)
  {
    var selected := SelectDesired(o, fileExists, fileContents);
    FollowsRefl(t, failing);
    if ValidateOptions(o).Ok? && selected.Ok? {
      var t1 := Perform(t, ListEnvironments, failing);
      PerformFollows(t, ListEnvironments, failing);
      if ListEnvironments !in failing {
        ReconcileFollows(selected.value, t.world.environments, t1, failing);
        FollowsTrans(t, t1, Reconcile(selected.value, t.world.environments, t1, failing).tool, failing);
      }
    }
  }

  /** Bad input issues no command: the run fails with no input given
      exactly when neither input is given, with conflicting inputs exactly
      when both are, with a missing file exactly when the file given does
      not exist, and never with "no environments specified". */
  lemma ScriptBadInput(o: Options, fileExists: bool, fileContents: seq<Name>, t: ToolState, failing: set<Call>)
    ensures var run := ScriptRun(o, fileExists, fileContents, t, failing);
            ((ValidateOptions(o).Err? || SelectDesired(o, fileExists, fileContents).Err?) ==>
               run.tool == t && run.notices == []) &&
            (run.result == Err(NoInputGiven) <==> o.file.None? && o.environments.None?) &&
            (run.result == Err(ConflictingInputs) <==> o.file.Some? && o.environments.Some?) &&
            (run.result.Err? && run.result.error.FileNotFound? <==>
               o.file.Some? && o.environments.None? && !fileExists) &&
            run.result != Err(NoEnvironmentsSpecified)
  {
    var selected := SelectDesired(o, fileExists, fileContents);
    if ValidateOptions(o).Ok? && selected.Ok? {
      ScriptPlan(o, fileExists, fileContents, selected.value, t, failing);
    }
  }

  /** A command a run may issue when `desired` is selected and `current`
      is listed: the listing; a create of a desired name that does not
      exist and is not `production`; or a delete of an existing name that
      is not desired and is not `production`. */
  predicate ScriptCall(c: Call, desired: seq<Name>, current: seq<Name>)
  {
    c == ListEnvironments ||
    (c.CreateEnvironment? && c.name in desired && c.name !in current && c.name != Production) ||
    (c.DeleteEnvironment? && c.name in current && c.name !in desired && c.name != Production)
  }

  /** Every command of a run on valid input is one it may issue. */
  lemma ScriptCalls(o: Options, fileExists: bool, fileContents: seq<Name>, desired: seq<Name>,
                    t: ToolState, failing: set<Call>)
    requires ValidateOptions(o).Ok?
    requires SelectDesired(o, fileExists, fileContents) == Ok(desired)
    ensures var run := ScriptRun(o, fileExists, fileContents, t, failing);
            forall c :: c in Issued(t, run.tool) ==> ScriptCall(c, desired, t.world.environments)
  {
    var run := ScriptRun(o, fileExists, fileContents, t, failing);
    var current := t.world.environments;
    var plan := Planned(desired, current);
    ScriptPlan(o, fileExists, fileContents, desired, t, failing);
    var calls := Issued(t, run.tool);
    forall c | c in calls
      ensures ScriptCall(c, desired, current)
    {
      assert c in plan;
      InCreates(Missing(desired, current), c);
      InDeletes(Doomed(desired, current), c);
    }
  }

  /** No run, whatever its input, creates or deletes `production`. */
  lemma ScriptKeepsProduction(o: Options, fileExists: bool, fileContents: seq<Name>, t: ToolState,
                              failing: set<Call>)
    ensures var run := ScriptRun(o, fileExists, fileContents, t, failing);
            CreateEnvironment(Production) !in Issued(t, run.tool) &&
            DeleteEnvironment(Production) !in Issued(t, run.tool)
  {
    var selected := SelectDesired(o, fileExists, fileContents);
    FollowsRefl(t, failing);
    if ValidateOptions(o).Ok? && selected.Ok? {
      ScriptCalls(o, fileExists, fileContents, selected.value, t, failing);
    }
  }

  /** A run makes all its creates before its first delete. */
  lemma ScriptOrder(o: Options, fileExists: bool, fileContents: seq<Name>, t: ToolState, failing: set<Call>)
    ensures var run := ScriptRun(o, fileExists, fileContents, t, failing);
            CreatesBeforeDeletes(Issued(t, run.tool))
  {
    var run := ScriptRun(o, fileExists, fileContents, t, failing);
    var selected := SelectDesired(o, fileExists, fileContents);
    FollowsRefl(t, failing);
    if ValidateOptions(o).Ok? && selected.Ok? {
      var current := t.world.environments;
      var missing := Missing(selected.value, current);
      var doomed := Doomed(selected.value, current);
      var plan := Planned(selected.value, current);
      ScriptPlan(o, fileExists, fileContents, selected.value, t, failing);
      var calls := Issued(t, run.tool);
      forall a, b | 0 <= a < b < |calls| && calls[a].DeleteEnvironment?
        ensures !calls[b].CreateEnvironment?
      {
        assert calls[a] == plan[a] && calls[b] == plan[b];
        if a > |missing| {
          assert plan[b] == Deletes(doomed)[b - 1 - |missing|];
        }
      }
    }
  }

  /** Each name is created as many times as the creates list it. */
  lemma {:induction false} CreatesCount(names: seq<Name>, x: Name)
    ensures multiset(Creates(names))[CreateEnvironment(x)] == multiset(names)[x]
    decreases |names|
  {
    if names != [] {
      assert names == [names[0]] + names[1..];
      assert Creates(names) == [CreateEnvironment(names[0])] + Creates(names[1..]);
      CreatesCount(names[1..], x);
    }
  }

  /** A successful run creates a missing name other than `production` once
      for each time it is desired: the listing is not updated while the
      creates are made, so a name desired twice is created twice. */
  lemma ScriptCreatesEachOccurrence(o: Options, fileExists: bool, fileContents: seq<Name>, desired: seq<Name>,
                                    t: ToolState, failing: set<Call>, x: Name)
    requires ValidateOptions(o).Ok?
    requires SelectDesired(o, fileExists, fileContents) == Ok(desired)
    requires x !in t.world.environments && x != Production
    ensures var run := ScriptRun(o, fileExists, fileContents, t, failing);
            run.result.Ok? ==> multiset(Issued(t, run.tool))[CreateEnvironment(x)] == multiset(desired)[x]
  {
    var run := ScriptRun(o, fileExists, fileContents, t, failing);
    var current := t.world.environments;
    var adjusted := AdjustDesired(desired, current);
    var missing := Missing(desired, current);
    var doomed := Doomed(desired, current);
    if run.result.Ok? {
      ScriptSucceeds(o, fileExists, fileContents, desired, t, failing);
      assert Issued(t, run.tool) == [ListEnvironments] + Creates(missing) + Deletes(doomed);
      InDeletes(doomed, CreateEnvironment(x));
      CreatesCount(missing, x);
      SeqMinusCount(adjusted, current);
      SeqMinusCount(desired, [Production]);
    }
  }

  /** When the desired and the existing names are the same, a run whose
      listing succeeds issues no other command, warns of nothing and changes
      nothing. */
  lemma ScriptSameNames(o: Options, fileExists: bool, fileContents: seq<Name>, desired: seq<Name>,
                        t: ToolState, failing: set<Call>)
    requires ValidateOptions(o).Ok?
    requires SelectDesired(o, fileExists, fileContents) == Ok(desired)
    requires ListEnvironments !in failing
    requires forall x :: x in desired <==> x in t.world.environments
    ensures var run := ScriptRun(o, fileExists, fileContents, t, failing);
            Issued(t, run.tool) == [ListEnvironments] && run.result.Ok? && run.notices == [] &&
            run.tool.world == t.world
  {
    var current := t.world.environments;
    SeqMinusEmpty(desired, current);
    SeqMinusEmpty(current, desired);
    var t1 := Perform(t, ListEnvironments, failing);
    assert desired[0..] == desired;
    CreateRunFacts(desired, current, 0, t1, failing);
    CreateRunInventory(desired, current, 0, t1, failing);
    ScriptSucceeds(o, fileExists, fileContents, desired, t, failing);
  }

  /** After a successful run the inventory holds every desired name other
      than `production`, holds `production` exactly when it did before, and
      holds nothing else. */
  lemma ScriptInventory(o: Options, fileExists: bool, fileContents: seq<Name>, desired: seq<Name>,
                        t: ToolState, failing: set<Call>)
    requires ValidateOptions(o).Ok?
    requires SelectDesired(o, fileExists, fileContents) == Ok(desired)
    ensures var run := ScriptRun(o, fileExists, fileContents, t, failing);
            var current := t.world.environments;
            run.result.Ok? ==>
              forall x :: x in run.tool.world.environments <==>
                          (x in desired && x != Production) || (x == Production && x in current)
  {
    var run := ScriptRun(o, fileExists, fileContents, t, failing);
    var current := t.world.environments;
    var adjusted := AdjustDesired(desired, current);
    var notices := if DropsProduction(desired, current) then [ProductionNotAdded] else [];
    var t1 := Perform(t, ListEnvironments, failing);
    if run.result.Ok? {
      var created := CreateRun(adjusted, current, 0, t1, failing);
      assert adjusted[0..] == adjusted;
      CreateRunInventory(adjusted, current, 0, t1, failing);
      var toDelete := SeqMinus(current, adjusted);
      assert toDelete[0..] == toDelete;
      RemoveRunInventory(toDelete, 0, created.tool, failing, notices);
    }
  }

  /** A successful run warns that `production` was not added exactly when
      it was desired but did not exist, and that it was not removed exactly
      when it existed but was not desired; it prints no other warning. */
  lemma ScriptNotices(o: Options, fileExists: bool, fileContents: seq<Name>, desired: seq<Name>,
                      t: ToolState, failing: set<Call>)
    requires ValidateOptions(o).Ok?
    requires SelectDesired(o, fileExists, fileContents) == Ok(desired)
    ensures var run := ScriptRun(o, fileExists, fileContents, t, failing);
            var current := t.world.environments;
            run.result.Ok? ==>
              (ProductionNotAdded in run.notices <==> Production in desired && Production !in current) &&
              (ProductionNotRemoved in run.notices <==> Production in current && Production !in desired) &&
              forall n :: n in run.notices ==> n == ProductionNotAdded || n == ProductionNotRemoved
  {
    var run := ScriptRun(o, fileExists, fileContents, t, failing);
    var current := t.world.environments;
    var adjusted := AdjustDesired(desired, current);
    var notices := if DropsProduction(desired, current) then [ProductionNotAdded] else [];
    var t1 := Perform(t, ListEnvironments, failing);
    if run.result.Ok? {
      var created := CreateRun(adjusted, current, 0, t1, failing);
      var toDelete := SeqMinus(current, adjusted);
      assert run == Reconcile(desired, current, t1, failing);
      assert run == RemoveRun(toDelete, 0, created.tool, failing, notices);
      assert toDelete[0..] == toDelete;
      RemoveRunNotices(toDelete, 0, created.tool, failing, notices);
    }
  }
}
