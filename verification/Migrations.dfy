/** The migration runner: each script is committed together with its name in schema_migrations, and the process may
    die between any two commits, or inside one, which rolls it back.
 */
module Migrations {

  // ---- The order of the files ----

  /** Python's order on strings. */
  predicate Before(a: string, b: string) {
    if b == [] then false
    else if a == [] then true
    else a[0] < b[0] || (a[0] == b[0] && Before(a[1..], b[1..]))
  }

  predicate Sorted(names: seq<string>) {
    forall i, j :: 0 <= i < j < |names| ==> !Before(names[j], names[i])
  }

  /** After `k` characters in common, `a` ends or has the lower character. */
  predicate Splits(a: string, b: string, k: nat) {
    k <= |a| && k < |b| && a[..k] == b[..k] && (k == |a| || a[k] < b[k])
  }

  /** The order of names, read off their first difference. */
  ghost predicate Precedes(a: string, b: string) {
    exists k :: Splits(a, b, k)
  }

  /** The first different character decides, wherever it is and whatever follows. */
  lemma {:induction false} FirstDifferenceDecides(p: string, x: char, y: char, s: string, t: string)
    requires x < y
    ensures Before(p + [x] + s, p + [y] + t) && !Before(p + [y] + t, p + [x] + s)
  {
    if p == [] {
      assert [] + [x] + s == [x] + s && [] + [y] + t == [y] + t;
    } else {
      FirstDifferenceDecides(p[1..], x, y, s, t);
      assert (p + [x] + s)[1..] == p[1..] + [x] + s && (p + [y] + t)[1..] == p[1..] + [y] + t;
    }
  }

  /** A name comes before any longer one that begins with it. */
  lemma {:induction false} PrefixComesFirst(p: string, x: char, s: string)
    ensures Before(p, p + [x] + s) && !Before(p + [x] + s, p)
  {
    if p == [] {
      assert [] + [x] + s == [x] + s;
    } else {
      PrefixComesFirst(p[1..], x, s);
      assert (p + [x] + s)[1..] == p[1..] + [x] + s;
    }
  }

  /** The comparison of the sort is that order. */
  lemma BeforeIsPrecedes(a: string, b: string)
    ensures Before(a, b) <==> Precedes(a, b)
  {
    if Before(a, b) {
      var k := WhereSplit(a, b);
    }
    forall k | Splits(a, b, k) ensures Before(a, b) {
      SplitIsBefore(a, b, k);
    }
  }

  lemma SplitIsBefore(a: string, b: string, k: nat)
    requires Splits(a, b, k)
    ensures Before(a, b)
  {
    assert b == b[..k] + [b[k]] + b[k + 1..];
    if k == |a| {
      PrefixComesFirst(a, b[k], b[k + 1..]);
      assert a == b[..k];
    } else {
      assert a == a[..k] + [a[k]] + a[k + 1..];
      FirstDifferenceDecides(a[..k], a[k], b[k], a[k + 1..], b[k + 1..]);
    }
  }

  lemma {:induction false} WhereSplit(a: string, b: string) returns (k: nat)
    requires Before(a, b)
    ensures Splits(a, b, k)
  {
    if a == [] || a[0] < b[0] {
      k := 0;
    } else {
      var j := WhereSplit(a[1..], b[1..]);
      k := j + 1;
      assert a[..k] == [a[0]] + a[1..][..j] && b[..k] == [b[0]] + b[1..][..j];
    }
  }

  predicate Distinct(names: seq<string>) {
    forall i, j :: 0 <= i < j < |names| ==> names[i] != names[j]
  }

  function Insert(name: string, names: seq<string>): seq<string> {
    if names == [] || !Before(names[0], name) then [name] + names else [names[0]] + Insert(name, names[1..])
  }

  /** _migration_files: whatever order the directory lists them in, sorted by name. */
  function MigrationFiles(found: seq<string>): seq<string> {
    if found == [] then [] else Insert(found[0], MigrationFiles(found[1..]))
  }

  lemma {:induction false} BeforeIsTotal(a: string, b: string)
    ensures Before(a, b) ==> !Before(b, a)
    ensures a != b ==> Before(a, b) || Before(b, a)
  {
    if a != [] && b != [] {
      BeforeIsTotal(a[1..], b[1..]);
      assert a == [a[0]] + a[1..] && b == [b[0]] + b[1..];
    }
  }

  lemma {:induction false} NotBeforeIsTransitive(a: string, b: string, c: string)
    requires !Before(b, a) && !Before(c, b)
    ensures !Before(c, a)
  {
    if a != [] && b != [] && c != [] && a[0] == b[0] == c[0] {
      NotBeforeIsTransitive(a[1..], b[1..], c[1..]);
    }
  }

  lemma {:induction false} InsertAdds(name: string, names: seq<string>)
    ensures multiset(Insert(name, names)) == multiset(names) + multiset{name}
  {
    if names != [] && Before(names[0], name) {
      InsertAdds(name, names[1..]);
      assert names == [names[0]] + names[1..];
    }
  }

  lemma {:induction false} InsertKeepsSorted(name: string, names: seq<string>)
    requires Sorted(names)
    ensures Sorted(Insert(name, names))
  {
    if names != [] && Before(names[0], name) {
      var rest := Insert(name, names[1..]);
      InsertKeepsSorted(name, names[1..]);
      InsertAdds(name, names[1..]);
      BeforeIsTotal(names[0], name);
      forall j | 0 <= j < |rest| ensures !Before(rest[j], names[0]) {
        assert rest[j] in multiset(rest);
        assert rest[j] == name || rest[j] in names[1..];
      }
    } else if names != [] {
      forall j | 0 <= j < |names| ensures !Before(names[j], name) {
        if j > 0 { NotBeforeIsTransitive(name, names[0], names[j]); }
      }
    }
  }

  /** The runner sees every file once, in ascending order of their names. */
  lemma FilesAreSorted(found: seq<string>)
    ensures multiset(MigrationFiles(found)) == multiset(found)
    ensures var files := MigrationFiles(found);
            forall i, j :: 0 <= i < j < |files| ==> files[i] == files[j] || Precedes(files[i], files[j])
  {
    SortSorts(found);
    var files := MigrationFiles(found);
    forall i, j | 0 <= i < j < |files| ensures files[i] == files[j] || Precedes(files[i], files[j]) {
      BeforeIsTotal(files[i], files[j]);
      BeforeIsPrecedes(files[i], files[j]);
    }
  }

  lemma {:induction false} SortSorts(found: seq<string>)
    ensures Sorted(MigrationFiles(found))
    ensures multiset(MigrationFiles(found)) == multiset(found)
  {
    if found != [] {
      SortSorts(found[1..]);
      InsertKeepsSorted(found[0], MigrationFiles(found[1..]));
      InsertAdds(found[0], MigrationFiles(found[1..]));
      assert found == [found[0]] + found[1..];
    }
  }

  lemma DistinctFiles(found: seq<string>)
    requires Distinct(found)
    ensures Distinct(MigrationFiles(found))
  {
    FilesAreSorted(found);
    var files := MigrationFiles(found);
    forall i, j | 0 <= i < j < |files| ensures files[i] != files[j] {
      OnceEach(found, files[j]);
      CountUpTo(files, i, j);
    }
  }

  /** A name that occurs at two places counts twice. */
  lemma CountUpTo(names: seq<string>, i: nat, j: nat)
    requires i < j < |names|
    ensures names[i] == names[j] ==> multiset(names)[names[j]] >= 2
  {
    assert names == names[..j] + [names[j]] + names[j + 1..];
    assert names[..j][i] == names[i];
    assert names[i] in multiset(names[..j]);
  }

  lemma {:induction false} OnceEach(names: seq<string>, name: string)
    requires Distinct(names)
    ensures multiset(names)[name] <= 1
  {
    if names != [] {
      OnceEach(names[1..], name);
      assert names == [names[0]] + names[1..];
      if names[0] == name {
        assert forall j :: 1 <= j < |names| ==> names[j] != name;
        assert name !in names[1..];
      }
    }
  }

  // ---- The runner ----

  /** The names in schema_migrations, whether a table called users exists, and the scripts executed so far. */
  datatype Database = Database(tracked: set<string>, users: bool, executed: seq<string>)

  /** The first transaction: on a database that has users but does not track its first migration, that migration
      is marked as applied without being run. */
  function Baseline(db: Database, files: seq<string>): Database
    requires files != []
  {
    if files[0] !in db.tracked && db.users then db.(tracked := db.tracked + {files[0]}) else db
  }

  /** One script and its tracking row, in one transaction. `creators` are the scripts that create users. */
  function Commit(db: Database, name: string, creators: set<string>): Database {
    Database(db.tracked + {name}, db.users || name in creators, db.executed + [name])
  }

  /** The loop over the files, given the names found applied, and the number of commits before the process dies;
      also how many of those are left. */
  function Sweep(db: Database, files: seq<string>, applied: set<string>, commits: nat, creators: set<string>)
    : (Database, nat)
  {
    if files == [] then (db, commits)
    else
      var (d, left) := Sweep(db, files[..|files| - 1], applied, commits, creators);
      var name := files[|files| - 1];
      if name in applied || left == 0 then (d, left) else (Commit(d, name, creators), left - 1)
  }

  /** One start of the server that survives `commits` commits. */
  function Start(db: Database, files: seq<string>, commits: nat, creators: set<string>): Database {
    if files == [] || commits == 0 then db
    else
      var based := Baseline(db, files);
      Sweep(based, files, based.tracked, commits - 1, creators).0
  }

  function Starts(db: Database, files: seq<string>, commits: seq<nat>, creators: set<string>): Database
    decreases |commits|
  {
    if commits == [] then db
    else Start(Starts(db, files, commits[..|commits| - 1], creators), files, commits[|commits| - 1], creators)
  }

  // ---- What any pattern of crashes leaves behind ----

  function Names(files: seq<string>): set<string> {
    set name | name in files
  }

  function Min(a: nat, b: nat): nat { if a < b then a else b }
  function Max(a: nat, b: nat): nat { if a < b then b else a }

  /** The first file is never run on a database that already had users. */
  function Skipped(users: bool): nat {
    if users then 1 else 0
  }

  /** The database when the first `k` files are tracked, one file after the other. */
  function At(files: seq<string>, users: bool, k: nat, creators: set<string>): Database
    requires k <= |files|
  {
    if k == 0 then Database({}, users, [])
    else
      var db := At(files, users, k - 1, creators);
      if k <= Skipped(users) then db.(tracked := db.tracked + {files[k - 1]}) else Commit(db, files[k - 1], creators)
  }

  /** What that database holds: a prefix of the names, and the scripts of that prefix in order, without a skipped
      first one. */
  lemma {:induction false} AtIsPrefix(files: seq<string>, users: bool, k: nat, creators: set<string>)
    requires k <= |files|
    ensures var db := At(files, users, k, creators);
            && db.tracked == Names(files[..k])
            && db.executed == (if k <= Skipped(users) then [] else files[Skipped(users)..k])
            && (db.users <==> users || exists name :: name in db.executed && name in creators)
  {
    if k > 0 {
      AtIsPrefix(files, users, k - 1, creators);
      assert files[..k] == files[..k - 1] + [files[k - 1]];
      if k > Skipped(users) {
        assert files[Skipped(users)..k] == files[Skipped(users)..k - 1] + [files[k - 1]];
      }
    }
  }

  /** How far a start that survives `commits` commits gets. */
  function Reached(files: seq<string>, users: bool, k: nat, commits: nat): nat {
    if files == [] || commits == 0 then k
    else Max(k, Min(|files|, Max(k, Skipped(users)) + commits - 1))
  }

  lemma {:induction false} TrackedPrefix(files: seq<string>, users: bool, k: nat, creators: set<string>, j: nat)
    requires Distinct(files) && k <= |files| && j < |files|
    ensures files[j] in At(files, users, k, creators).tracked <==> j < k
  {
    if k > 0 { TrackedPrefix(files, users, k - 1, creators, j); }
  }

  /** How far the loop is after the first `j` files, when `k` files are tracked. */
  function Swept(k: nat, j: nat, commits: nat): nat {
    if j <= k then k else Min(j, k + commits)
  }

  lemma SweepOneMore(db: Database, files: seq<string>, applied: set<string>, commits: nat, creators: set<string>,
                     j: nat)
    requires j < |files|
    ensures var (d, left) := Sweep(db, files[..j], applied, commits, creators);
            Sweep(db, files[..j + 1], applied, commits, creators)
            == if files[j] in applied || left == 0 then (d, left) else (Commit(d, files[j], creators), left - 1)
  {
    assert files[..j + 1][..j] == files[..j];
  }

  lemma AtNext(files: seq<string>, users: bool, k: nat, creators: set<string>)
    requires Skipped(users) <= k < |files|
    ensures At(files, users, k + 1, creators) == Commit(At(files, users, k, creators), files[k], creators)
  {
  }

  /** The loop along a chain of databases in which each file's commit leads from one to the next. */
  lemma {:induction false} SweepAlong(files: seq<string>, at: nat -> Database, start: nat, k: nat, commits: nat,
                                      creators: set<string>, j: nat)
    requires start <= k <= |files| && j <= |files|
    requires forall i :: start <= i < |files| ==> at(i + 1) == Commit(at(i), files[i], creators)
    requires forall i :: 0 <= i < |files| ==> (files[i] in at(k).tracked <==> i < k)
    ensures var r := Swept(k, j, commits);
            r >= k && Sweep(at(k), files[..j], at(k).tracked, commits, creators) == (at(r), commits - (r - k))
  {
    if j > 0 {
      var r := Swept(k, j - 1, commits);
      SweepAlong(files, at, start, k, commits, creators, j - 1);
      SweepOneMore(at(k), files, at(k).tracked, commits, creators, j - 1);
      if k < j && r < k + commits {
        assert r == j - 1;
        assert at(r + 1) == Commit(at(r), files[r], creators);
      }
    }
  }

  lemma SweepReaches(files: seq<string>, users: bool, k: nat, commits: nat, creators: set<string>)
    requires Distinct(files) && Skipped(users) <= k <= |files|
    ensures var db := At(files, users, k, creators);
            Sweep(db, files, db.tracked, commits, creators).0 == At(files, users, Min(|files|, k + commits), creators)
  {
    var at := (i: nat) => if i <= |files| then At(files, users, i, creators) else Database({}, users, []);
    forall i | Skipped(users) <= i < |files| ensures at(i + 1) == Commit(at(i), files[i], creators) {
      AtNext(files, users, i, creators);
    }
    forall i | 0 <= i < |files| ensures files[i] in at(k).tracked <==> i < k {
      TrackedPrefix(files, users, k, creators, i);
    }
    SweepAlong(files, at, Skipped(users), k, commits, creators, |files|);
    assert files[..|files|] == files;
  }

  lemma StartReaches(files: seq<string>, users: bool, k: nat, commits: nat, creators: set<string>)
    requires Distinct(files) && k <= |files|
    ensures Reached(files, users, k, commits) <= |files|
    ensures Start(At(files, users, k, creators), files, commits, creators)
         == At(files, users, Reached(files, users, k, commits), creators)
  {
    if files != [] && commits > 0 {
      BaselineReaches(files, users, k, creators);
      SweepReaches(files, users, Max(k, Skipped(users)), commits - 1, creators);
    }
  }

  /** The first transaction skips the first file exactly on a database that had users before anything ran. */
  lemma BaselineReaches(files: seq<string>, users: bool, k: nat, creators: set<string>)
    requires Distinct(files) && k <= |files| && files != []
    ensures Baseline(At(files, users, k, creators), files) == At(files, users, Max(k, Skipped(users)), creators)
  {
    TrackedPrefix(files, users, k, creators, 0);
  }

  function ReachedAfter(files: seq<string>, users: bool, commits: seq<nat>): nat
    decreases |commits|
  {
    if commits == [] then 0
    else Reached(files, users, ReachedAfter(files, users, commits[..|commits| - 1]), commits[|commits| - 1])
  }

  lemma {:induction false} StartsReach(files: seq<string>, users: bool, commits: seq<nat>, creators: set<string>)
    requires Distinct(files)
    ensures ReachedAfter(files, users, commits) <= |files|
    ensures Starts(Database({}, users, []), files, commits, creators)
         == At(files, users, ReachedAfter(files, users, commits), creators)
    decreases |commits|
  {
    if commits != [] {
      var before := commits[..|commits| - 1];
      StartsReach(files, users, before, creators);
      StartReaches(files, users, ReachedAfter(files, users, before), commits[|commits| - 1], creators);
    }
  }

  /** Over any pattern of crashes and restarts the tracked names are a prefix of the sorted file list, and the scripts
      executed, over all starts together, are that prefix in order and once each, without the first file if the
      database already had users. */
  lemma ExactlyOnceInOrder(found: seq<string>, users: bool, commits: seq<nat>, creators: set<string>)
    requires Distinct(found)
    ensures var files := MigrationFiles(found);
            var k := ReachedAfter(files, users, commits);
            var db := Starts(Database({}, users, []), files, commits, creators);
            && (forall i, j :: 0 <= i < j < |files| ==> Precedes(files[i], files[j]))
            && multiset(files) == multiset(found)
            && k <= |files|
            && db.tracked == Names(files[..k])
            && db.executed == (if k <= Skipped(users) then [] else files[Skipped(users)..k])
            && (db.users <==> users || exists name :: name in db.executed && name in creators)
  {
    var files := MigrationFiles(found);
    FilesAreSorted(found);
    DistinctFiles(found);
    StartsReach(files, users, commits, creators);
    AtIsPrefix(files, users, ReachedAfter(files, users, commits), creators);
  }

  lemma CleanStartReachesEnd(files: seq<string>, users: bool, commits: seq<nat>, creators: set<string>, enough: nat)
    requires Distinct(files) && enough > |files|
    ensures Start(Starts(Database({}, users, []), files, commits, creators), files, enough, creators)
         == At(files, users, |files|, creators)
  {
    StartsReach(files, users, commits, creators);
    var k := ReachedAfter(files, users, commits);
    StartReaches(files, users, k, enough, creators);
    assert Reached(files, users, k, enough) == |files|;
  }

  /** A start that does not crash completes the list, whatever happened before; the next one executes nothing. */
  lemma CleanStartCompletes(found: seq<string>, users: bool, commits: seq<nat>, creators: set<string>, enough: nat,
                            next: nat)
    requires Distinct(found) && enough > |found|
    ensures var files := MigrationFiles(found);
            var db := Starts(Database({}, users, []), files, commits, creators);
            var done := Start(db, files, enough, creators);
            && done.tracked == Names(found)
            && done.executed == (if users && files != [] then files[1..] else files)
            && Start(done, files, next, creators) == done
  {
    var files := MigrationFiles(found);
    FilesAreSorted(found);
    DistinctFiles(found);
    assert |multiset(files)| == |files| && |multiset(found)| == |found|;
    CleanStartReachesEnd(files, users, commits, creators, enough);
    StartReaches(files, users, |files|, next, creators);
    assert Reached(files, users, |files|, next) == |files|;
    AtIsPrefix(files, users, |files|, creators);
    assert files[..|files|] == files;
    SameNames(files, found);
  }

  lemma SameNames(a: seq<string>, b: seq<string>)
    requires multiset(a) == multiset(b)
    ensures Names(a) == Names(b)
  {
    forall name ensures name in a <==> name in b {
      assert name in multiset(a) <==> name in multiset(b);
    }
  }

  // ---- The runner as it runs ----

  class Server {
    var tracked: set<string>
    var users: bool
    var executed: seq<string>

    ghost function Value(): Database
      reads this
    {
      Database(tracked, users, executed)
    }

    constructor (users: bool)
      ensures Value() == Database({}, users, [])
    {
      tracked, executed := {}, [];
      this.users := users;
    }

    /** run_migrations; the process dies when it asks for more commits than it is given. */
    method RunMigrations(found: seq<string>, commits: nat, creators: set<string>)
      modifies this
      ensures Value() == Start(old(Value()), MigrationFiles(found), commits, creators)
    {
      var files := MigrationFiles(found);
      if files == [] || commits == 0 { return; }
      var applied := tracked;
      if files[0] !in applied && users {
        tracked := tracked + {files[0]};
        applied := applied + {files[0]};
      }
      ghost var based := Value();
      var left := commits - 1;
      for i := 0 to |files|
        invariant (Value(), left) == Sweep(based, files[..i], applied, commits - 1, creators)
      {
        assert files[..i + 1][..i] == files[..i];
        if files[i] !in applied && left > 0 {
          executed := executed + [files[i]];
          users := users || files[i] in creators;
          tracked := tracked + {files[i]};
          left := left - 1;
        }
      }
      assert files[..|files|] == files;
    }
  }
}
