/**
 * reconcileDatabases: the difference between spec.databases and
 * status.databases, and what its execs leave on primary storage when the
 * operator stops anywhere among them and starts over.
 */
module Databases {
  import opened Wrappers
  import opened Sequences

  /** The elements of s that are not in t, in the order of s. */
  function Outside(s: seq<string>, t: seq<string>): seq<string> {
    if s == [] then []
    else Outside(s[..|s| - 1], t) + if s[|s| - 1] in t then [] else [s[|s| - 1]]
  }

  function Pending(spec: seq<string>, status: seq<string>): seq<string> {
    Outside(spec, status)
  }

  function Removed(spec: seq<string>, status: seq<string>): seq<string> {
    Outside(status, spec)
  }

  /** The status.databases a successful pass records. */
  function Settled(spec: seq<string>, status: seq<string>): seq<string> {
    Outside(status, Removed(spec, status)) + Pending(spec, status)
  }

  lemma {:induction false} OutsideElements(s: seq<string>, t: seq<string>)
    ensures forall x :: x in Outside(s, t) <==> x in s && x !in t
    ensures NoDuplicates(s) ==> NoDuplicates(Outside(s, t))
  {
    if s != [] {
      var init := s[..|s| - 1];
      OutsideElements(init, t);
      assert s == init + [s[|s| - 1]];
      assert forall k :: 0 <= k < |init| ==> init[k] == s[k];
      if NoDuplicates(s) {
        assert s[|s| - 1] !in init;
      }
    }
  }

  /**
   * The recorded list has no duplicates, is exactly the set of databases in
   * spec, and so counts them; nothing is recorded that spec does not have.
   */
  /** And they come in the order they had. */
  lemma {:induction false} OutsideKeepsOrder(s: seq<string>, t: seq<string>, i: nat, j: nat) returns (p: nat, q: nat)
    requires i < j < |Outside(s, t)|
    ensures p < q < |s| && s[p] == Outside(s, t)[i] && s[q] == Outside(s, t)[j]
  {
    var n := |s| - 1;
    var init := Outside(s[..n], t);
    if j < |init| {
      p, q := OutsideKeepsOrder(s[..n], t, i, j);
    } else {
      OutsideElements(s[..n], t);
      assert init[i] in s[..n];
      p :| 0 <= p < n && s[..n][p] == init[i];
      q := n;
    }
  }

  lemma SettledIsSpec(spec: seq<string>, status: seq<string>)
    requires NoDuplicates(spec) && NoDuplicates(status)
    ensures NoDuplicates(Settled(spec, status))
    ensures Elements(Settled(spec, status)) == Elements(spec)
    ensures |Settled(spec, status)| == |spec|
  {
    OutsideElements(spec, status);
    OutsideElements(status, spec);
    OutsideElements(status, Removed(spec, status));
    var kept, pending := Outside(status, Removed(spec, status)), Pending(spec, status);
    forall i, j | 0 <= i < |kept| && 0 <= j < |pending|
      ensures kept[i] != pending[j]
    {
      assert kept[i] in kept && pending[j] in pending;
    }
    SameElementsSameLength(Settled(spec, status), spec);
  }

  lemma NothingToDo(spec: seq<string>, status: seq<string>)
    ensures Pending(spec, status) == [] && Removed(spec, status) == [] <==> Elements(status) == Elements(spec)
  {
    OutsideElements(spec, status);
    OutsideElements(status, spec);
    NoElements(Pending(spec, status));
    NoElements(Removed(spec, status));
    assert Elements(Pending(spec, status)) == Elements(spec) - Elements(status);
    assert Elements(Removed(spec, status)) == Elements(status) - Elements(spec);
  }

  /**
   * The count test for Ready: once no listed database has left spec, counting
   * the listed ones against spec decides whether they are the same set.
   */
  lemma CountDecides(spec: seq<string>, status: seq<string>)
    requires NoDuplicates(spec) && NoDuplicates(status) && Removed(spec, status) == []
    ensures |status| >= |spec| <==> Elements(status) == Elements(spec)
  {
    OutsideElements(status, spec);
    CountsElements(spec);
    CountsElements(status);
    ContainedIsNoLarger(Elements(status), Elements(spec));
  }

  /** The count test, for a list that names nothing but what spec does. */
  lemma CountDecidesWithin(spec: seq<string>, status: seq<string>)
    requires NoDuplicates(spec) && NoDuplicates(status) && Elements(status) <= Elements(spec)
    ensures |status| >= |spec| <==> Elements(status) == Elements(spec)
  {
    OutsideElements(status, spec);
    assert forall db <- status :: db in Elements(status) && db in Elements(spec);
    NoElements(Removed(spec, status));
    CountDecides(spec, status);
  }

  /** The two loops filling pending and removed, with their look-up maps. */
  method Diff(spec: seq<string>, status: seq<string>) returns (pending: seq<string>, removed: seq<string>)
    ensures pending == Pending(spec, status)
    ensures removed == Removed(spec, status)
  {
    var desired: map<string, bool> := map[];
    for k := 0 to |spec|
      invariant forall x :: x in desired <==> x in spec[..k]
    {
      desired := desired[spec[k] := true];
    }
    var created: map<string, bool> := map[];
    for k := 0 to |status|
      invariant forall x :: x in created <==> x in status[..k]
    {
      created := created[status[k] := true];
    }
    assert spec[..|spec|] == spec && status[..|status|] == status;
    pending := [];
    for k := 0 to |spec|
      invariant pending == Outside(spec[..k], status)
    {
      assert spec[..k + 1][..k] == spec[..k];
      if spec[k] !in created {
        pending := pending + [spec[k]];
      }
    }
    removed := [];
    for k := 0 to |status|
      invariant removed == Outside(status[..k], spec)
    {
      assert status[..k + 1][..k] == status[..k];
      if status[k] !in desired {
        removed := removed + [status[k]];
      }
    }
  }

  /** The loops that put the new list together from the old one. */
  method Merge(status: seq<string>, pending: seq<string>, removed: seq<string>) returns (databases: seq<string>)
    ensures databases == Outside(status, removed) + pending
  {
    databases := [];
    for k := 0 to |status|
      invariant databases == Outside(status[..k], removed)
    {
      assert status[..k + 1][..k] == status[..k];
      if status[k] !in removed {
        databases := databases + [status[k]];
      }
    }
    assert status[..|status|] == status;
    for k := 0 to |pending|
      invariant databases == Outside(status, removed) + pending[..k]
    {
      databases := databases + [pending[k]];
    }
  }

  // ---- Crashes ----

  /** One exec: dropping a database, or creating, restoring or just registering one. */
  datatype Command = Drop(db: string) | Provide(db: string)

  const EMPTY: nat := 0

  type Contents = map<string, nat>

  function Fresh(archives: Contents, db: string): nat {
    if db in archives then archives[db] else EMPTY
  }

  function Effect(files: Contents, archives: Contents, c: Command): Contents {
    match c
    case Drop(db) => files - {db}
    case Provide(db) => if db in files then files else files[db := Fresh(archives, db)]
  }

  function Execute(files: Contents, archives: Contents, commands: seq<Command>): Contents {
    if commands == [] then files
    else Effect(Execute(files, archives, commands[..|commands| - 1]), archives, commands[|commands| - 1])
  }

  function Drops(names: seq<string>): seq<Command> {
    seq(|names|, k requires 0 <= k < |names| => Drop(names[k]))
  }

  function Provides(names: seq<string>): seq<Command> {
    seq(|names|, k requires 0 <= k < |names| => Provide(names[k]))
  }

  function Plan(spec: seq<string>, status: seq<string>): seq<Command> {
    Drops(Removed(spec, status)) + Provides(Pending(spec, status))
  }

  lemma ExecuteNext(files: Contents, archives: Contents, commands: seq<Command>, n: nat)
    requires n < |commands|
    ensures Execute(files, archives, commands[..n + 1]) == Effect(Execute(files, archives, commands[..n]), archives, commands[n])
  {
    assert commands[..n + 1][..n] == commands[..n];
  }

  lemma {:induction false} ExecuteConcat(files: Contents, archives: Contents, first: seq<Command>, second: seq<Command>)
    ensures Execute(files, archives, first + second) == Execute(Execute(files, archives, first), archives, second)
  {
    if second == [] {
      assert first + second == first;
    } else {
      var n := |second| - 1;
      assert (first + second)[..|first| + n] == first + second[..n];
      ExecuteConcat(files, archives, first, second[..n]);
    }
  }

  lemma ExecutePlan(files: Contents, archives: Contents, removed: seq<string>, pending: seq<string>, n: nat)
    requires n <= |pending|
    ensures var plan := Drops(removed) + Provides(pending);
      Execute(files, archives, plan[..|removed| + n])
        == Execute(Execute(files, archives, Drops(removed)[..|removed|]), archives, Provides(pending)[..n])
  {
    var plan := Drops(removed) + Provides(pending);
    assert plan[..|removed| + n] == Drops(removed) + Provides(pending)[..n];
    assert Drops(removed)[..|removed|] == Drops(removed);
    ExecuteConcat(files, archives, Drops(removed), Provides(pending)[..n]);
  }

  /** Files after the operator stopped within its execs, once for each number in cuts, without recording anything. */
  function AfterCrashes(files: Contents, archives: Contents, plan: seq<Command>, cuts: seq<nat>): Contents {
    if cuts == [] then files
    else
      var before := AfterCrashes(files, archives, plan, cuts[..|cuts| - 1]);
      var cut := cuts[|cuts| - 1];
      Execute(before, archives, plan[..if cut <= |plan| then cut else |plan|])
  }

  lemma PlanCommands(spec: seq<string>, status: seq<string>)
    ensures var plan := Plan(spec, status);
      && (forall k :: 0 <= k < |plan| && plan[k].Drop? ==> plan[k].db in status && plan[k].db !in spec)
      && (forall k :: 0 <= k < |plan| && plan[k].Provide? ==> plan[k].db in spec && plan[k].db !in status)
      && (forall db :: db in spec && db !in status ==> Provide(db) in plan)
      && (forall db :: db in status && db !in spec ==> Drop(db) in plan)
  {
    OutsideElements(spec, status);
    OutsideElements(status, spec);
    var removed, pending, plan := Removed(spec, status), Pending(spec, status), Plan(spec, status);
    forall db | db in spec && db !in status
      ensures Provide(db) in plan
    {
      var k :| 0 <= k < |pending| && pending[k] == db;
      assert plan[|removed| + k] == Provide(db);
    }
    forall db | db in status && db !in spec
      ensures Drop(db) in plan
    {
      var k :| 0 <= k < |removed| && removed[k] == db;
      assert plan[k] == Drop(db);
    }
  }

  /** A plan in which no database is both dropped and provided. */
  ghost predicate Consistent(commands: seq<Command>) {
    forall db :: Drop(db) in commands ==> Provide(db) !in commands
  }

  /** What a consistent plan leaves under each name. */
  function Outcome(files: Contents, archives: Contents, commands: seq<Command>, db: string): Option<nat> {
    if Drop(db) in commands then None
    else if db in files then Some(files[db])
    else if Provide(db) in commands then Some(Fresh(archives, db))
    else None
  }

  function At(files: Contents, db: string): Option<nat> {
    if db in files then Some(files[db]) else None
  }

  lemma {:induction false} ExecuteOutcome(files: Contents, archives: Contents, commands: seq<Command>, db: string)
    requires Consistent(commands)
    ensures At(Execute(files, archives, commands), db) == Outcome(files, archives, commands, db)
  {
    if commands != [] {
      var init, last := commands[..|commands| - 1], commands[|commands| - 1];
      assert commands == init + [last];
      assert Consistent(init);
      ExecuteOutcome(files, archives, init, db);
    }
  }

  lemma SameFiles(a: Contents, b: Contents)
    requires forall db :: At(a, db) == At(b, db)
    ensures a == b
  {
    forall db
      ensures db in a <==> db in b
      ensures db in a ==> a[db] == b[db]
    {
      assert At(a, db) == At(b, db);
    }
  }

  /** Running a plan after any prefix of itself ends where running it once does. */
  lemma ResumeIsRestart(files: Contents, archives: Contents, plan: seq<Command>, cut: nat)
    requires Consistent(plan) && cut <= |plan|
    ensures Execute(Execute(files, archives, plan[..cut]), archives, plan) == Execute(files, archives, plan)
  {
    var partial := Execute(files, archives, plan[..cut]);
    assert Consistent(plan[..cut]);
    forall db
      ensures At(Execute(partial, archives, plan), db) == At(Execute(files, archives, plan), db)
    {
      ExecuteOutcome(files, archives, plan[..cut], db);
      ExecuteOutcome(partial, archives, plan, db);
      ExecuteOutcome(files, archives, plan, db);
    }
    SameFiles(Execute(partial, archives, plan), Execute(files, archives, plan));
  }

  lemma {:induction false} CrashesDoNotMatter(files: Contents, archives: Contents, plan: seq<Command>, cuts: seq<nat>)
    requires Consistent(plan)
    ensures Execute(AfterCrashes(files, archives, plan, cuts), archives, plan) == Execute(files, archives, plan)
  {
    if cuts != [] {
      var before := AfterCrashes(files, archives, plan, cuts[..|cuts| - 1]);
      var cut := cuts[|cuts| - 1];
      CrashesDoNotMatter(files, archives, plan, cuts[..|cuts| - 1]);
      ResumeIsRestart(before, archives, plan, if cut <= |plan| then cut else |plan|);
    }
  }

  /**
   * Crash-safe reconciliation: however often the operator stops among its
   * execs, once a pass completes, the files are those of one uninterrupted
   * pass. No file that was there is overwritten, databases that stay are left
   * alone, and one that was missing holds its backup, or nothing without one.
   */
  lemma ReconciliationIsCrashSafe(files: Contents, archives: Contents, spec: seq<string>, status: seq<string>, cuts: seq<nat>, db: string)
    ensures var plan := Plan(spec, status);
      var final := Execute(AfterCrashes(files, archives, plan, cuts), archives, plan);
      && final == Execute(files, archives, plan)
      && (db in status && db !in spec ==> db !in final)
      && (db in files && !(db in status && db !in spec) ==> At(final, db) == At(files, db))
      && (db in spec && db !in status && db !in files ==> At(final, db) == Some(Fresh(archives, db)))
  {
    var plan := Plan(spec, status);
    PlanCommands(spec, status);
    assert Consistent(plan);
    CrashesDoNotMatter(files, archives, plan, cuts);
    ExecuteOutcome(files, archives, plan, db);
  }

  /**
   * A completed pass leaves a database of spec on storage exactly when it was
   * there before or was not listed in status: the pass trusts status.databases.
   */
  lemma ProvidedExactlyWhen(files: Contents, archives: Contents, spec: seq<string>, status: seq<string>, db: string)
    requires db in spec
    ensures db in Execute(files, archives, Plan(spec, status)) <==> db in files || db !in status
  {
    PlanCommands(spec, status);
    assert Consistent(Plan(spec, status));
    ExecuteOutcome(files, archives, Plan(spec, status), db);
  }

  /**
   * So a database taken out of spec and put back is not created again when
   * the operator stopped between dropping it and recording that.
   */
  lemma ReaddedAfterCrashIsNotProvided()
    ensures var files, archives: Contents := map["a.fdb" := 7], map[];
      var dropped := Execute(files, archives, Plan([], ["a.fdb"])[..1]);
      && Plan([], ["a.fdb"]) == [Drop("a.fdb")]
      && "a.fdb" !in Execute(dropped, archives, Plan(["a.fdb"], ["a.fdb"]))
  {
    var files, archives: Contents := map["a.fdb" := 7], map[];
    assert Outside(["a.fdb"], []) == ["a.fdb"] by {
      assert ["a.fdb"][..0] == [];
    }
    var plan := Plan([], ["a.fdb"]);
    assert plan == [Drop("a.fdb")];
    assert plan[..1] == plan;
    ExecuteOutcome(files, archives, plan, "a.fdb");
    var dropped := Execute(files, archives, plan);
    ProvidedExactlyWhen(dropped, archives, ["a.fdb"], ["a.fdb"], "a.fdb");
  }
}
