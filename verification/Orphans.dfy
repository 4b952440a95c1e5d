/** orphanedBackups: backups on the volume of databases spec no longer names. */
module Orphans {
  import opened Text
  import opened Names
  import opened Sequences
  import opened Timestamps

  // ---- Sorting strings ----

  predicate Sorted(s: seq<string>) {
    forall i, j :: 0 <= i < j < |s| ==> !Less(s[j], s[i])
  }

  lemma {:induction false} LessIsTransitive(a: string, b: string, c: string)
    ensures Less(a, b) && Less(b, c) ==> Less(a, c)
  {
    if a != [] && b != [] && c != [] {
      LessIsTransitive(a[1..], b[1..], c[1..]);
    }
  }

  lemma {:induction false} LessIsAsymmetric(a: string, b: string)
    ensures !(Less(a, b) && Less(b, a))
  {
    if a != [] && b != [] {
      LessIsAsymmetric(a[1..], b[1..]);
    }
  }

  /** x at its place in a sorted sequence. */
  function Insert(x: string, s: seq<string>): seq<string> {
    if s == [] || Less(x, s[0]) then [x] + s else [s[0]] + Insert(x, s[1..])
  }

  lemma {:induction false} InsertAdds(x: string, s: seq<string>)
    ensures multiset(Insert(x, s)) == multiset(s) + multiset{x}
  {
    if s != [] && !Less(x, s[0]) {
      InsertAdds(x, s[1..]);
      assert s == [s[0]] + s[1..];
    }
  }

  lemma SortedFrom(x: string, s: seq<string>)
    requires Sorted(s) && forall y :: y in multiset(s) ==> !Less(y, x)
    ensures Sorted([x] + s)
  {
    forall j | 0 <= j < |s| ensures !Less(s[j], x) {
      assert s[j] in multiset(s);
    }
  }

  lemma FirstIsLeast(s: seq<string>, x: string, y: string)
    requires s != [] && Sorted(s) && Less(x, s[0]) && y in s
    ensures !Less(y, x)
  {
    LessIsTransitive(y, x, s[0]);
    LessIsAsymmetric(x, s[0]);
    LessIsAsymmetric(y, s[0]);
  }

  lemma {:induction false} InsertKeepsSorted(x: string, s: seq<string>)
    requires Sorted(s)
    ensures Sorted(Insert(x, s)) && multiset(Insert(x, s)) == multiset(s) + multiset{x}
  {
    InsertAdds(x, s);
    if s == [] {
    } else if Less(x, s[0]) {
      forall y | y in multiset(s) ensures !Less(y, x) {
        FirstIsLeast(s, x, y);
      }
      SortedFrom(x, s);
    } else {
      InsertKeepsSorted(x, s[1..]);
      forall y | y in multiset(Insert(x, s[1..])) ensures !Less(y, s[0]) {
        assert y == x || y in s[1..];
      }
      SortedFrom(s[0], Insert(x, s[1..]));
    }
  }

  /** slices.Sort. */
  method Sort(s: seq<string>) returns (t: seq<string>)
    ensures Sorted(t) && multiset(t) == multiset(s)
  {
    t := [];
    for k := 0 to |s|
      invariant Sorted(t) && multiset(t) == multiset(s[..k])
    {
      InsertKeepsSorted(s[k], t);
      t := Insert(s[k], t);
      assert s[..k + 1] == s[..k] + [s[k]];
    }
    assert s[..|s|] == s;
  }

  // ---- Orphaned backups ----

  /** What "ls -1" prints of a directory. */
  function Ls(directory: seq<string>): seq<string> {
    if directory == [] then []
    else Ls(directory[..|directory| - 1]) +
         if Hidden(directory[|directory| - 1]) then [] else [directory[|directory| - 1]]
  }

  lemma {:induction false} LsLists(directory: seq<string>)
    ensures forall file :: file in Ls(directory) <==> file in directory && !Hidden(file)
    ensures NoDuplicates(directory) ==> NoDuplicates(Ls(directory))
  {
    if directory != [] {
      var init, last := directory[..|directory| - 1], directory[|directory| - 1];
      LsLists(init);
      assert directory == init + [last];
      assert NoDuplicates(directory) ==> last !in init;
    }
  }

  /** The listed file is the backup of the database, and spec does not name it. */
  predicate IsOrphan(file: string, spec: seq<string>, db: string) {
    HasSuffix(file, ".fbk") && !IsSecurityBackup(file) && db == TrimSuffix(file, ".fbk") + ".fdb" && db !in spec
  }

  method OrphanedBackups(spec: seq<string>, directory: seq<string>) returns (orphaned: seq<string>)
    ensures Sorted(orphaned)
    ensures forall db :: db in orphaned <==> exists file <- Ls(directory) :: IsOrphan(file, spec, db)
    ensures NoDuplicates(directory) ==> NoDuplicates(orphaned)
  {
    var listing := Ls(directory);
    LsLists(directory);
    var found: seq<string> := [];
    ghost var files: seq<string> := [];
    for k := 0 to |listing|
      invariant |files| == |found|
      invariant forall i :: 0 <= i < |found| ==> files[i] in listing[..k] && IsOrphan(files[i], spec, found[i])
      invariant forall file <- listing[..k], db :: IsOrphan(file, spec, db) ==> db in found
      invariant NoDuplicates(listing) ==> NoDuplicates(files)
    {
      var name := listing[k];
      assert listing[..k + 1] == listing[..k] + [name];
      assert NoDuplicates(listing) ==> name !in listing[..k];
      if HasSuffix(name, ".fbk") && !IsSecurityBackup(name) {
        var db := TrimSuffix(name, ".fbk") + ".fdb";
        if db !in spec {
          files := files + [name];
          found := found + [db];
        }
      }
    }
    assert listing[..|listing|] == listing;
    if NoDuplicates(listing) {
      forall i, j | 0 <= i < j < |found| ensures found[i] != found[j] {
        assert IsOrphan(files[i], spec, found[i]) && IsOrphan(files[j], spec, found[j]);
        OneFileEach(files[i], files[j], spec, found[i]);
      }
    }
    orphaned := Sort(found);
    SameMultiset(orphaned, found);
  }

  lemma OneFileEach(a: string, b: string, spec: seq<string>, db: string)
    ensures IsOrphan(a, spec, db) && IsOrphan(b, spec, db) ==> a == b
  {
    if IsOrphan(a, spec, db) && IsOrphan(b, spec, db) {
      assert a == db[..|db| - 4] + ".fbk" && b == db[..|db| - 4] + ".fbk";
    }
  }

  lemma SameMultiset(s: seq<string>, t: seq<string>)
    requires multiset(s) == multiset(t)
    ensures forall x :: x in s <==> x in t
    ensures NoDuplicates(t) ==> NoDuplicates(s)
  {
    forall x ensures x in s <==> x in t {
      assert x in s <==> x in multiset(s);
      assert x in t <==> x in multiset(t);
    }
    if NoDuplicates(t) {
      forall i, j | 0 <= i < j < |s| ensures s[i] != s[j] {
        OnceEach(t, s[i]);
        TwiceIn(s, i, j);
      }
    }
  }

  lemma TwiceIn(s: seq<string>, i: nat, j: nat)
    requires i < j < |s|
    ensures s[i] == s[j] ==> multiset(s)[s[i]] >= 2
  {
    assert s == s[..i] + [s[i]] + s[i + 1..j] + [s[j]] + s[j + 1..];
  }

  lemma {:induction false} OnceEach(t: seq<string>, x: string)
    requires NoDuplicates(t)
    ensures multiset(t)[x] <= 1
  {
    if t != [] {
      var init := t[..|t| - 1];
      OnceEach(init, x);
      assert t == init + [t[|t| - 1]];
      assert t[|t| - 1] !in init;
      assert multiset(init)[t[|t| - 1]] == 0;
    }
  }

  /**
   * For an admissible name: it is reported exactly when the file its backup is
   * written to is there, spec does not name it, and it has no leading dot.
   * Security backups never are.
   */
  lemma ReportedExactly(spec: seq<string>, directory: seq<string>, db: string)
    requires AdmissibleName(db)
    ensures (exists file <- Ls(directory) :: IsOrphan(file, spec, db)) <==>
            BackupFileName(db) in directory && db !in spec && !Hidden(db)
    ensures forall file, other :: IsSecurityBackup(file) ==> !IsOrphan(file, spec, other)
  {
    var backup := BackupFileName(db);
    var stem := db[..|db| - 4];
    assert db == stem + ".fdb" && backup == stem + ".fbk";
    assert backup[|backup| - 4..] == ".fbk" && backup[..|backup| - 4] == stem;
    assert IsOrphan(backup, spec, db) <==> db !in spec;
    assert Hidden(backup) <==> Hidden(db);
    LsLists(directory);
    forall file <- Ls(directory) | IsOrphan(file, spec, db) ensures file == backup {
      assert file == db[..|db| - 4] + ".fbk";
    }
  }
}
