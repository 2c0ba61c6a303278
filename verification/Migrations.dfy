/** The migration runner: discovering numbered files, planning against the ledger, applying.

    The hash is an arbitrary function; what rests on its being collision free says so. */
module Migrations {
  import opened Prelude
  import opened DecimalText
  import opened SqlText

  datatype Migration = Migration(version: string, name: string, sql: string, checksum: string)

  // One directory entry: ignored (hidden or not a file), not matching NNN_name.sql, or a migration.
  datatype Entry = Skipped | Stray(file: string) | Numbered(version: string, name: string, sql: string)

  datatype Directory = Missing | Listing(entries: seq<Entry>)

  datatype Row = Row(version: string, name: string, checksum: string)

  datatype Executed = Ran(statement: string) | Recorded(row: Row)

  // The database behind the two injected callables: its ledger and everything executed successfully.
  datatype Database = Database(ledger: seq<Row>, log: seq<Executed>)

  datatype MigrationError =
    | NoDirectory
    | StrayFiles(files: seq<string>)
    | NoMigrations
    | DuplicateVersion
    | NotContiguous
    | Modified
    | Vanished
    | StatementFailed(version: string)
    | LedgerFailed(version: string)

  // ----- checksums -----

  function ReplaceCrLf(s: string): string {
    if |s| >= 2 && s[0] == '\r' && s[1] == '\n' then "\n" + ReplaceCrLf(s[2..])
    else if s == "" then ""
    else [s[0]] + ReplaceCrLf(s[1..])
  }

  function ReplaceCr(s: string): string {
    if s == "" then "" else [if s[0] == '\r' then '\n' else s[0]] + ReplaceCr(s[1..])
  }

  function Checksum(hash: string -> string, sql: string): string {
    hash(ReplaceCr(ReplaceCrLf(sql)))
  }

  // The same file checked out where every line ends in CR LF.
  function WithCrLf(s: string): string {
    if s == "" then ""
    else (if s[0] == '\n' then "\r\n" else [s[0]]) + WithCrLf(s[1..])
  }

  lemma {:induction false} LineEndingsNormalise(s: string)
    requires '\r' !in s
    ensures ReplaceCr(ReplaceCrLf(WithCrLf(s))) == s && ReplaceCr(ReplaceCrLf(s)) == s
  {
    if s != "" {
      LineEndingsNormalise(s[1..]);
      var t := WithCrLf(s[1..]);
      if s[0] == '\n' {
        assert WithCrLf(s)[2..] == t;
        assert ReplaceCrLf(WithCrLf(s)) == "\n" + ReplaceCrLf(t);
      } else {
        assert WithCrLf(s)[1..] == t;
        assert ReplaceCrLf(WithCrLf(s)) == [s[0]] + ReplaceCrLf(t);
      }
      assert ReplaceCrLf(s) == [s[0]] + ReplaceCrLf(s[1..]);
      assert s == [s[0]] + s[1..];
    }
  }

  // A file checked out with other line endings does not read as modified.
  lemma {:induction false} ChecksumIgnoresLineEndings(hash: string -> string, sql: string)
    requires '\r' !in sql
    ensures Checksum(hash, WithCrLf(sql)) == Checksum(hash, sql)
  {
    LineEndingsNormalise(sql);
  }

  // The lines of a text, each of CR LF, CR and LF ending one.
  function Lines(s: string): (lines: seq<string>)
    ensures lines != []
    decreases |s|
  {
    if s == "" then [""]
    else if |s| >= 2 && s[0] == '\r' && s[1] == '\n' then [""] + Lines(s[2..])
    else if s[0] == '\r' || s[0] == '\n' then [""] + Lines(s[1..])
    else
      var rest := Lines(s[1..]);
      [[s[0]] + rest[0]] + rest[1..]
  }

  function Joined(lines: seq<string>): string
    requires lines != []
  {
    if |lines| == 1 then lines[0] else lines[0] + "\n" + Joined(lines[1..])
  }

  function Normalised(s: string): string {
    ReplaceCr(ReplaceCrLf(s))
  }

  lemma NormalisedStep(s: string)
    requires s != ""
    ensures |s| >= 2 && s[0] == '\r' && s[1] == '\n' ==> Normalised(s) == "\n" + Normalised(s[2..])
    ensures !(|s| >= 2 && s[0] == '\r' && s[1] == '\n') ==>
              Normalised(s) == [if s[0] == '\r' then '\n' else s[0]] + Normalised(s[1..])
  {
  }

  lemma {:induction false} JoinedAfterBreak(lines: seq<string>)
    requires lines != []
    ensures Joined([""] + lines) == "\n" + Joined(lines)
  {
    assert ([""] + lines)[1..] == lines;
    assert "" + "\n" + Joined(lines) == "\n" + Joined(lines);
  }

  lemma {:induction false} JoinedAfterChar(c: char, lines: seq<string>)
    requires lines != []
    ensures Joined([[c] + lines[0]] + lines[1..]) == [c] + Joined(lines)
  {
    var longer := [[c] + lines[0]] + lines[1..];
    assert longer[1..] == lines[1..];
    if |lines| > 1 {
      assert [c] + lines[0] + "\n" + Joined(lines[1..]) == [c] + (lines[0] + "\n" + Joined(lines[1..]));
    }
  }

  // What is hashed is the lines, joined with LF.
  lemma {:induction false} NormalisedJoinsLines(s: string)
    ensures Normalised(s) == Joined(Lines(s))
    decreases |s|
  {
    if s != "" {
      NormalisedStep(s);
      if |s| >= 2 && s[0] == '\r' && s[1] == '\n' {
        NormalisedJoinsLines(s[2..]);
        JoinedAfterBreak(Lines(s[2..]));
      } else {
        NormalisedJoinsLines(s[1..]);
        if s[0] == '\r' || s[0] == '\n' {
          JoinedAfterBreak(Lines(s[1..]));
        } else {
          JoinedAfterChar(s[0], Lines(s[1..]));
        }
      }
    }
  }

  lemma {:induction false} LinesStep(c: char, rest: string)
    requires c != '\r'
    ensures Lines([c] + rest) ==
            if c == '\n' then [""] + Lines(rest) else [[c] + Lines(rest)[0]] + Lines(rest)[1..]
  {
    assert ([c] + rest)[1..] == rest;
  }

  lemma {:induction false} NormalisedKeepsLines(s: string)
    ensures Lines(Normalised(s)) == Lines(s)
    decreases |s|
  {
    if s != "" {
      NormalisedStep(s);
      if |s| >= 2 && s[0] == '\r' && s[1] == '\n' {
        NormalisedKeepsLines(s[2..]);
        LinesStep('\n', Normalised(s[2..]));
      } else {
        NormalisedKeepsLines(s[1..]);
        LinesStep(if s[0] == '\r' then '\n' else s[0], Normalised(s[1..]));
      }
    }
  }

  // No two texts have the same hash.
  ghost predicate CollisionFree(hash: string -> string) {
    forall s, t :: hash(s) == hash(t) ==> s == t
  }

  /** With a hash free of collisions, two texts have the same checksum exactly when they read the same line by
      line, whatever ends their lines. */
  lemma {:induction false} ChecksumTellsLines(hash: string -> string, s: string, t: string)
    requires CollisionFree(hash)
    ensures Checksum(hash, s) == Checksum(hash, t) <==> Lines(s) == Lines(t)
  {
    NormalisedKeepsLines(s);
    NormalisedKeepsLines(t);
    NormalisedJoinsLines(s);
    NormalisedJoinsLines(t);
    assert Checksum(hash, s) == hash(Normalised(s)) && Checksum(hash, t) == hash(Normalised(t));
  }

  // Texts with plain line ends have the same checksum exactly when they are the same.
  lemma ChecksumTellsTexts(hash: string -> string, s: string, t: string)
    requires CollisionFree(hash) && '\r' !in s && '\r' !in t
    ensures Checksum(hash, s) == Checksum(hash, t) <==> s == t
  {
    LineEndingsNormalise(s);
    LineEndingsNormalise(t);
  }

  // ----- discovery -----

  function Load(hash: string -> string, e: Entry): Migration
    requires e.Numbered?
  {
    Migration(e.version, e.name, e.sql, Checksum(hash, e.sql))
  }

  function Found(hash: string -> string, entries: seq<Entry>): (ms: seq<Migration>)
  {
    if entries == [] then []
    else
      var e := entries[|entries| - 1];
      Found(hash, entries[..|entries| - 1]) + (if e.Numbered? then [Load(hash, e)] else [])
  }

  function Strays(entries: seq<Entry>): seq<string> {
    if entries == [] then []
    else
      var e := entries[|entries| - 1];
      Strays(entries[..|entries| - 1]) + (if e.Stray? then [e.file] else [])
  }

  predicate HasDuplicate(ms: seq<Migration>) {
    exists i, j :: 0 <= i < j < |ms| && ms[i].version == ms[j].version
  }

  // The numbering a directory of n migrations must have: 001, 002, ...
  function Expected(n: nat): (versions: seq<string>)
    ensures |versions| == n
  {
    if n == 0 then [] else Expected(n - 1) + [Pad3(n)]
  }

  function VersionList(ms: seq<Migration>): seq<string> {
    seq(|ms|, i requires 0 <= i < |ms| => ms[i].version)
  }

  predicate Contiguous(ms: seq<Migration>) {
    VersionList(ms) == Expected(|ms|)
  }

  function Discovery(hash: string -> string, dir: Directory): Result<seq<Migration>, MigrationError> {
    if dir.Missing? then Failure(NoDirectory)
    else
      var ms := Found(hash, dir.entries);
      if Strays(dir.entries) != [] then Failure(StrayFiles(Strays(dir.entries)))
      else if ms == [] then Failure(NoMigrations)
      else if HasDuplicate(ms) then Failure(DuplicateVersion)
      else if !Contiguous(ms) then Failure(NotContiguous)
      else Success(ms)
  }

  method Discover(hash: string -> string, dir: Directory) returns (r: Result<seq<Migration>, MigrationError>)
    ensures r == Discovery(hash, dir)
  {
    if dir.Missing? {
      return Failure(NoDirectory);
    }
    var migrations: seq<Migration> := [];
    var unmatched: seq<string> := [];
    for i := 0 to |dir.entries|
      invariant migrations == Found(hash, dir.entries[..i])
      invariant unmatched == Strays(dir.entries[..i])
    {
      assert dir.entries[..i + 1][..i] == dir.entries[..i];
      match dir.entries[i]
      case Skipped =>
      case Stray(file) => unmatched := unmatched + [file];
      case Numbered(_, _, _) => migrations := migrations + [Load(hash, dir.entries[i])];
    }
    assert dir.entries[..|dir.entries|] == dir.entries;
    if unmatched != [] {
      return Failure(StrayFiles(unmatched));
    }
    if migrations == [] {
      return Failure(NoMigrations);
    }
    if HasDuplicate(migrations) {
      return Failure(DuplicateVersion);
    }
    if !Contiguous(migrations) {
      return Failure(NotContiguous);
    }
    r := Success(migrations);
  }

  lemma {:induction false} ExpectedValues(n: nat)
    ensures forall i :: 0 <= i < n ==> Value(Expected(n)[i]) == i + 1
  {
    if n > 0 {
      ExpectedValues(n - 1);
      ValueOfPad3(n);
    }
  }

  lemma {:induction false} ExpectedIsDistinct(n: nat)
    ensures forall i, j :: 0 <= i < j < n ==> Expected(n)[i] != Expected(n)[j]
  {
    ExpectedValues(n);
    var e := Expected(n);
    forall i, j | 0 <= i < j < n
      ensures e[i] != e[j]
    {
      assert Value(e[i]) != Value(e[j]);
    }
  }

  lemma {:induction false} ExpectedIsPrefix(k: nat, n: nat)
    requires k <= n
    ensures Expected(n)[..k] == Expected(k)
  {
    if k < n {
      ExpectedIsPrefix(k, n - 1);
      assert Expected(n)[..k] == Expected(n - 1)[..k];
    }
  }

  lemma ContiguousIsDistinct(ms: seq<Migration>)
    requires Contiguous(ms)
    ensures !HasDuplicate(ms)
  {
    ExpectedIsDistinct(|ms|);
    assert forall i :: 0 <= i < |ms| ==> ms[i].version == VersionList(ms)[i];
  }

  /** Discovery accepts a directory exactly when every visible file is numbered, there is at least one,
      and listed in order their versions are 001, 002, ... without gap or repetition. */
  lemma DiscoveryExactly(hash: string -> string, dir: Directory)
    ensures Discovery(hash, dir).Success? <==>
            && dir.Listing?
            && Strays(dir.entries) == []
            && Found(hash, dir.entries) != []
            && Contiguous(Found(hash, dir.entries))
  {
    if dir.Listing? && Contiguous(Found(hash, dir.entries)) {
      ContiguousIsDistinct(Found(hash, dir.entries));
    }
  }

  // Two files of the directory carry the same number.
  predicate SameNumberTwice(entries: seq<Entry>) {
    exists i, j :: 0 <= i < j < |entries| && SameNumber(entries[i], entries[j])
  }

  predicate SameNumber(d: Entry, e: Entry) {
    d.Numbered? && e.Numbered? && d.version == e.version
  }

  lemma {:induction false} StraysExactly(entries: seq<Entry>)
    ensures Strays(entries) != [] <==> exists e <- entries :: e.Stray?
  {
    if entries != [] {
      var front, e := entries[..|entries| - 1], entries[|entries| - 1];
      StraysExactly(front);
      assert entries == front + [e];
    }
  }

  // The versions found are those of the numbered files.
  lemma {:induction false} FoundVersions(hash: string -> string, entries: seq<Entry>, v: string)
    ensures (exists m <- Found(hash, entries) :: m.version == v) <==>
            exists e <- entries :: e.Numbered? && e.version == v
  {
    if entries != [] {
      var front, e := entries[..|entries| - 1], entries[|entries| - 1];
      FoundVersions(hash, front, v);
      assert entries == front + [e];
      if e.Numbered? {
        assert Found(hash, entries) == Found(hash, front) + [Load(hash, e)];
      }
    }
  }

  lemma DuplicateLater(ms: seq<Migration>, m: Migration)
    ensures HasDuplicate(ms + [m]) <==> HasDuplicate(ms) || exists x <- ms :: x.version == m.version
  {
    var all := ms + [m];
    assert forall i :: 0 <= i < |ms| ==> all[i] == ms[i];
    if x :| x in ms && x.version == m.version {
      var i :| 0 <= i < |ms| && ms[i] == x;
      assert all[i].version == all[|ms|].version;
    }
    if HasDuplicate(ms) {
      var i, j :| 0 <= i < j < |ms| && ms[i].version == ms[j].version;
      assert all[i].version == all[j].version;
    }
  }

  lemma SameNumberLater(front: seq<Entry>, e: Entry)
    ensures SameNumberTwice(front + [e]) <==> SameNumberTwice(front) || exists d <- front :: SameNumber(d, e)
  {
    var all := front + [e];
    assert forall i :: 0 <= i < |front| ==> all[i] == front[i];
    if d :| d in front && SameNumber(d, e) {
      var i :| 0 <= i < |front| && front[i] == d;
      assert SameNumber(all[i], all[|front|]);
    }
    if SameNumberTwice(front) {
      var i, j :| 0 <= i < j < |front| && SameNumber(front[i], front[j]);
      assert SameNumber(all[i], all[j]);
    }
  }

  lemma {:induction false} DuplicatesExactly(hash: string -> string, entries: seq<Entry>)
    ensures HasDuplicate(Found(hash, entries)) <==> SameNumberTwice(entries)
  {
    if entries != [] {
      var front, e := entries[..|entries| - 1], entries[|entries| - 1];
      DuplicatesExactly(hash, front);
      assert entries == front + [e];
      SameNumberLater(front, e);
      if e.Numbered? {
        FoundVersions(hash, front, e.version);
        DuplicateLater(Found(hash, front), Load(hash, e));
        assert (exists d <- front :: SameNumber(d, e)) <==> exists d <- front :: d.Numbered? && d.version == e.version;
      } else {
        assert Found(hash, entries) == Found(hash, front);
        assert !exists d <- front :: SameNumber(d, e);
      }
    }
  }

  /** Which error discovery ends in: no directory, else a file without a number, else no file with one, else a
      number twice, else a number missing or out of order. */
  lemma DiscoveryErrors(hash: string -> string, dir: Directory)
    ensures var r, entries := Discovery(hash, dir), if dir.Listing? then dir.entries else [];
            var stray, some := exists e <- entries :: e.Stray?, exists e <- entries :: e.Numbered?;
            && (r == Failure(NoDirectory) <==> dir.Missing?)
            && (r.Failure? && r.error.StrayFiles? <==> stray)
            && (r == Failure(NoMigrations) <==> dir.Listing? && !stray && !some)
            && (r == Failure(DuplicateVersion) <==> !stray && SameNumberTwice(entries))
            && (r.Failure? ==>
                  r.error.NoDirectory? || r.error.StrayFiles? || r.error.NoMigrations? || r.error.DuplicateVersion?
                  || r.error.NotContiguous?)
  {
    if dir.Listing? {
      StraysExactly(dir.entries);
      DuplicatesExactly(hash, dir.entries);
      if e :| e in dir.entries && e.Numbered? {
        FoundVersions(hash, dir.entries, e.version);
      }
      var ms := Found(hash, dir.entries);
      if ms != [] {
        FoundVersions(hash, dir.entries, ms[0].version);
        assert ms[0] in ms;
      }
    }
  }

  // ----- planning -----

  // dict(rows): a later row for a version replaces an earlier one.
  function ToDict(rows: seq<Row>): map<string, string> {
    if rows == [] then map[]
    else ToDict(rows[..|rows| - 1])[rows[|rows| - 1].version := rows[|rows| - 1].checksum]
  }

  function Versions(ms: seq<Migration>): set<string> {
    set m <- ms :: m.version
  }

  function Unapplied(ms: seq<Migration>, applied: map<string, string>): seq<Migration> {
    if ms == [] then []
    else (if ms[0].version in applied then [] else [ms[0]]) + Unapplied(ms[1..], applied)
  }

  function Planned(ms: seq<Migration>, ledger: seq<Row>): Result<seq<Migration>, MigrationError> {
    var applied := ToDict(ledger);
    if exists m <- ms :: m.version in applied && applied[m.version] != m.checksum then Failure(Modified)
    else if !(applied.Keys <= Versions(ms)) then Failure(Vanished)
    else Success(Unapplied(ms, applied))
  }

  function PlanResult(
    hash: string -> string, dir: Directory, ledger: seq<Row>): Result<seq<Migration>, MigrationError>
  {
    match Discovery(hash, dir)
    case Failure(e) => Failure(e)
    case Success(ms) => Planned(ms, ledger)
  }

  // ----- applying -----

  // Outcome of the n-th call to execute during one apply.
  type Oracle = nat -> bool

  datatype Progress = Progress(db: Database, calls: nat, ok: bool)

  function RunStatements(db: Database, statements: seq<string>, ok: Oracle, n: nat): Progress
    decreases |statements|
  {
    if statements == [] then Progress(db, n, true)
    else if !ok(n) then Progress(db, n + 1, false)
    else RunStatements(db.(log := db.log + [Ran(statements[0])]), statements[1..], ok, n + 1)
  }

  function RowOf(m: Migration): Row {
    Row(m.version, m.name, m.checksum)
  }

  function Record(db: Database, m: Migration): Database {
    Database(db.ledger + [RowOf(m)], db.log + [Recorded(RowOf(m))])
  }

  type Applied = Result<seq<Migration>, MigrationError>

  // One migration: all its statements, then its ledger row; or the failure that stopped it.
  function ApplyStep(db: Database, m: Migration, ok: Oracle, n: nat): (Database, Option<MigrationError>, nat) {
    var p := RunStatements(db, Statements(m.sql), ok, n);
    if !p.ok then (p.db, Some(StatementFailed(m.version)), p.calls)
    else if !ok(p.calls) then (p.db, Some(LedgerFailed(m.version)), p.calls + 1)
    else (Record(p.db, m), None, p.calls + 1)
  }

  function ApplyPending(db: Database, pending: seq<Migration>, done: seq<Migration>, ok: Oracle, n: nat)
    : (Database, Applied)
    decreases |pending|
  {
    if pending == [] then (db, Success(done))
    else
      var (next, failure, calls) := ApplyStep(db, pending[0], ok, n);
      match failure
      case Some(error) => (next, Failure(error))
      case None => ApplyPending(next, pending[1..], done + [pending[0]], ok, calls)
  }

  function ApplyEffect(
    hash: string -> string, dir: Directory, dryRun: bool, ok: Oracle, db: Database): (Database, Applied)
  {
    match PlanResult(hash, dir, db.ledger)
    case Failure(e) => (db, Failure(e))
    case Success(pending) => if dryRun then (db, Success(pending)) else ApplyPending(db, pending, [], ok, 0)
  }

  class MigrationRunner {
    const hash: string -> string
    var ledger: seq<Row>
    var log: seq<Executed>

    constructor (hash: string -> string)
      ensures this.hash == hash && Db() == Database([], [])
    {
      this.hash := hash;
      ledger, log := [], [];
    }

    function Db(): Database
      reads this
    {
      Database(ledger, log)
    }

    method Execute(command: Executed, succeeds: bool) returns (ok: bool)
      modifies this
      ensures ok == succeeds
      ensures !ok ==> Db() == old(Db())
      ensures ok && command.Ran? ==> Db() == old(Db()).(log := old(log) + [command])
      ensures ok && command.Recorded? ==> Db() == Database(old(ledger) + [command.row], old(log) + [command])
    {
      ok := succeeds;
      if ok {
        log := log + [command];
        if command.Recorded? {
          ledger := ledger + [command.row];
        }
      }
    }

    method Plan(dir: Directory) returns (r: Result<seq<Migration>, MigrationError>)
      ensures r == PlanResult(hash, dir, ledger)
    {
      var found := Discover(hash, dir);
      match found
      case Failure(e) => r := Failure(e);
      case Success(ms) => r := Planned(ms, ledger);
    }

    // The inner loop of apply: statements in order, stopping at the first failure.
    method ExecuteAll(statements: seq<string>, ok: Oracle, n: nat) returns (good: bool, calls: nat)
      modifies this
      ensures Progress(Db(), calls, good) == RunStatements(old(Db()), statements, ok, n)
    {
      calls := n;
      var j := 0;
      assert statements[0..] == statements;
      while j < |statements|
        invariant 0 <= j <= |statements|
        invariant RunStatements(Db(), statements[j..], ok, calls) == RunStatements(old(Db()), statements, ok, n)
      {
        assert statements[j..][0] == statements[j] && statements[j..][1..] == statements[j + 1..];
        var ran := Execute(Ran(statements[j]), ok(calls));
        calls := calls + 1;
        if !ran {
          return false, calls;
        }
        j := j + 1;
      }
      good := true;
    }

    // One pass of the outer loop of apply.
    method ApplyOne(m: Migration, ok: Oracle, n: nat) returns (failure: Option<MigrationError>, calls: nat)
      modifies this
      ensures (Db(), failure, calls) == ApplyStep(old(Db()), m, ok, n)
    {
      var statements := SplitStatements(m.sql);
      var ran;
      ran, calls := ExecuteAll(statements, ok, n);
      if !ran {
        return Some(StatementFailed(m.version)), calls;
      }
      var recorded := Execute(Recorded(RowOf(m)), ok(calls));
      calls := calls + 1;
      failure := if recorded then None else Some(LedgerFailed(m.version));
    }

    method Apply(dir: Directory, dryRun: bool, ok: Oracle) returns (r: Applied)
      modifies this
      ensures (Db(), r) == ApplyEffect(hash, dir, dryRun, ok, old(Db()))
    {
      var plan := Plan(dir);
      if plan.Failure? {
        return Failure(plan.error);
      }
      if dryRun {
        return Success(plan.value);
      }
      var pending := plan.value;
      ghost var target := ApplyPending(Db(), pending, [], ok, 0);
      var done: seq<Migration> := [];
      var calls := 0;
      var i := 0;
      assert pending[0..] == pending;
      while i < |pending|
        invariant 0 <= i <= |pending|
        invariant ApplyPending(Db(), pending[i..], done, ok, calls) == target
      {
        assert pending[i..][0] == pending[i] && pending[i..][1..] == pending[i + 1..];
        var failure;
        failure, calls := ApplyOne(pending[i], ok, calls);
        if failure.Some? {
          return Failure(failure.value);
        }
        done := done + [pending[i]];
        i := i + 1;
      }
      r := Success(done);
    }
  }

  // ----- histories -----

  datatype Call = Call(dir: Directory, dryRun: bool, ok: Oracle)

  // The database after a sequence of apply calls; the directory may be edited between them.
  function History(hash: string -> string, calls: seq<Call>): Database {
    if calls == [] then Database([], [])
    else
      var c := calls[|calls| - 1];
      ApplyEffect(hash, c.dir, c.dryRun, c.ok, History(hash, calls[..|calls| - 1])).0
  }

  function LedgerVersions(ledger: seq<Row>): seq<string> {
    seq(|ledger|, i requires 0 <= i < |ledger| => ledger[i].version)
  }

  // The ledger holds exactly 001..k.
  predicate Prefix(ledger: seq<Row>) {
    LedgerVersions(ledger) == Expected(|ledger|)
  }

  function AsRun(statements: seq<string>): seq<Executed> {
    seq(|statements|, i requires 0 <= i < |statements| => Ran(statements[i]))
  }

  function RecordedRows(log: seq<Executed>): seq<Row> {
    if log == [] then []
    else
      var e := log[|log| - 1];
      RecordedRows(log[..|log| - 1]) + (if e.Recorded? then [e.row] else [])
  }

  // The ledger is 001..k, and holds what was recorded, in order.
  predicate Sound(db: Database) {
    Prefix(db.ledger) && RecordedRows(db.log) == db.ledger
  }

  lemma {:induction false} DictOfDistinct(ledger: seq<Row>)
    requires forall i, j :: 0 <= i < j < |ledger| ==> ledger[i].version != ledger[j].version
    ensures forall i :: 0 <= i < |ledger| ==>
              ledger[i].version in ToDict(ledger) && ToDict(ledger)[ledger[i].version] == ledger[i].checksum
    ensures forall v <- ToDict(ledger) :: exists i :: 0 <= i < |ledger| && ledger[i].version == v
  {
    if ledger != [] {
      var n := |ledger| - 1;
      var front := ledger[..n];
      DictOfDistinct(front);
      assert forall i :: 0 <= i < n ==> front[i] == ledger[i];
      forall v | v in ToDict(ledger)
        ensures exists i :: 0 <= i < |ledger| && ledger[i].version == v
      {
        if v in ToDict(front) {
          var i :| 0 <= i < n && front[i].version == v;
          assert ledger[i].version == v;
        } else {
          assert ledger[n].version == v;
        }
      }
    }
  }

  lemma {:induction false} UnappliedIsSuffix(ms: seq<Migration>, from: nat, applied: map<string, string>)
    requires from <= |ms|
    requires forall i :: 0 <= i < |ms| ==> (ms[i].version in applied <==> i < from)
    ensures Unapplied(ms, applied) == ms[from..]
  {
    if ms != [] {
      var rest := ms[1..];
      var after := if from == 0 then 0 else from - 1;
      forall i | 0 <= i < |rest|
        ensures rest[i].version in applied <==> i < after
      {
        assert rest[i] == ms[i + 1];
      }
      UnappliedIsSuffix(rest, after, applied);
      assert ms[from..] == (if from == 0 then [ms[0]] else []) + rest[after..];
    }
  }

  // Row i of the ledger and file i of the directory carry the same version, and no two versions agree.
  lemma Aligned(ms: seq<Migration>, ledger: seq<Row>)
    requires Contiguous(ms) && Prefix(ledger)
    ensures forall i :: 0 <= i < |ms| && i < |ledger| ==> ms[i].version == ledger[i].version
    ensures forall i, j :: 0 <= i < j < |ms| ==> ms[i].version != ms[j].version
    ensures forall i, j :: 0 <= i < j < |ledger| ==> ledger[i].version != ledger[j].version
  {
    var n, k := |ms|, |ledger|;
    ExpectedIsDistinct(n);
    ExpectedIsDistinct(k);
    assert forall i :: 0 <= i < n ==> ms[i].version == VersionList(ms)[i];
    assert forall i :: 0 <= i < k ==> ledger[i].version == LedgerVersions(ledger)[i];
    if n <= k {
      ExpectedIsPrefix(n, k);
      assert forall i :: 0 <= i < n ==> Expected(n)[i] == Expected(k)[i];
    } else {
      ExpectedIsPrefix(k, n);
      assert forall i :: 0 <= i < k ==> Expected(k)[i] == Expected(n)[i];
    }
  }

  lemma {:induction false} NotBeyond(ms: seq<Migration>, ledger: seq<Row>, i: nat)
    requires Contiguous(ms) && Prefix(ledger) && |ledger| <= i < |ms|
    ensures ms[i].version !in ToDict(ledger)
  {
    Aligned(ms, ledger);
    DictOfDistinct(ledger);
    forall j | 0 <= j < |ledger|
      ensures ledger[j].version != ms[i].version
    {
      assert ledger[j].version == ms[j].version;
    }
  }

  lemma {:induction false} AllOnDisk(ms: seq<Migration>, ledger: seq<Row>, v: string)
    requires Contiguous(ms) && Prefix(ledger) && |ledger| <= |ms| && v in ToDict(ledger)
    ensures v in Versions(ms)
  {
    Aligned(ms, ledger);
    DictOfDistinct(ledger);
    var j :| 0 <= j < |ledger| && ledger[j].version == v;
    assert ms[j] in ms;
  }

  lemma {:induction false} VanishedVersion(ms: seq<Migration>, ledger: seq<Row>)
    requires Contiguous(ms) && Prefix(ledger) && |ms| < |ledger|
    ensures ledger[|ms|].version in ToDict(ledger) && ledger[|ms|].version !in Versions(ms)
  {
    Aligned(ms, ledger);
    DictOfDistinct(ledger);
    forall i | 0 <= i < |ms|
      ensures ms[i].version != ledger[|ms|].version
    {
      assert ms[i].version == ledger[i].version;
    }
  }

  lemma {:induction false} AppliedVersions(ms: seq<Migration>, ledger: seq<Row>)
    requires Contiguous(ms) && Prefix(ledger)
    ensures forall i :: 0 <= i < |ms| ==> (ms[i].version in ToDict(ledger) <==> i < |ledger|)
    ensures forall i :: 0 <= i < |ms| && i < |ledger| ==> ToDict(ledger)[ms[i].version] == ledger[i].checksum
    ensures ToDict(ledger).Keys <= Versions(ms) <==> |ledger| <= |ms|
  {
    Aligned(ms, ledger);
    DictOfDistinct(ledger);
    forall i | |ledger| <= i < |ms| {
      NotBeyond(ms, ledger, i);
    }
    if |ms| < |ledger| {
      VanishedVersion(ms, ledger);
      assert ledger[|ms|].version in ToDict(ledger).Keys;
    } else {
      forall v | v in ToDict(ledger) {
        AllOnDisk(ms, ledger, v);
      }
    }
  }

  predicate ChecksumsKept(ms: seq<Migration>, ledger: seq<Row>) {
    |ledger| <= |ms| && forall i :: 0 <= i < |ledger| ==> ms[i].checksum == ledger[i].checksum
  }

  /** Against a ledger 001..k, a call gets past planning exactly when the directory still holds files
      001..k, all with the checksums recorded; what is pending is then everything after k. */
  lemma PlanExactly(ms: seq<Migration>, ledger: seq<Row>)
    requires Contiguous(ms) && Prefix(ledger)
    ensures Planned(ms, ledger).Success? <==> ChecksumsKept(ms, ledger)
    ensures Planned(ms, ledger).Success? ==> Planned(ms, ledger).value == ms[|ledger|..]
  {
    var applied := ToDict(ledger);
    AppliedVersions(ms, ledger);
    if |ledger| <= |ms| {
      UnappliedIsSuffix(ms, |ledger|, applied);
      if i :| 0 <= i < |ledger| && ms[i].checksum != ledger[i].checksum {
        assert ms[i] in ms && ms[i].version in applied && applied[ms[i].version] != ms[i].checksum;
      }
    }
  }

  lemma {:induction false} RunAppends(db: Database, statements: seq<string>, ok: Oracle, n: nat)
    ensures var p := RunStatements(db, statements, ok, n);
            && p.db.ledger == db.ledger
            && db.log <= p.db.log
            && (forall i :: |db.log| <= i < |p.db.log| ==> p.db.log[i].Ran?)
            && (p.ok ==> p.db.log == db.log + AsRun(statements))
    decreases |statements|
  {
    if statements == [] {
      assert db.log + AsRun(statements) == db.log;
    } else if ok(n) {
      var step := db.(log := db.log + [Ran(statements[0])]);
      RunAppends(step, statements[1..], ok, n + 1);
      assert AsRun(statements) == [Ran(statements[0])] + AsRun(statements[1..]);
      assert db.log + AsRun(statements) == step.log + AsRun(statements[1..]);
    }
  }

  lemma {:induction false} RowsUnchangedByRuns(log: seq<Executed>, longer: seq<Executed>)
    requires log <= longer && forall i :: |log| <= i < |longer| ==> longer[i].Ran?
    ensures RecordedRows(longer) == RecordedRows(log)
    decreases |longer|
  {
    if |longer| > |log| {
      RowsUnchangedByRuns(log, longer[..|longer| - 1]);
    } else {
      assert longer == log;
    }
  }

  lemma RecordIsSound(db: Database, m: Migration, db': Database)
    requires Sound(db) && m.version == Pad3(|db.ledger| + 1)
    requires db' == Record(db.(log := db.log + AsRun(Statements(m.sql))), m)
    ensures Sound(db')
  {
    var mid := db.log + AsRun(Statements(m.sql));
    RowsUnchangedByRuns(db.log, mid);
    var log := db'.log;
    assert log[..|log| - 1] == mid && log[|log| - 1] == Recorded(RowOf(m));
  }

  // Next to be applied: the files numbered after the ledger's last row.
  predicate Due(ledger: seq<Row>, pending: seq<Migration>) {
    LedgerVersions(ledger) + VersionList(pending) == Expected(|ledger| + |pending|)
  }

  // What one call leaves behind when it was asked to apply pending on top of ledger.
  predicate Outcome(ledger: seq<Row>, pending: seq<Migration>, done: seq<Migration>, r: (Database, Applied)) {
    && Sound(r.0)
    && ledger <= r.0.ledger
    && (r.1.Success? ==> r.1.value == done + pending && r.0.ledger == ledger + RowsOf(pending))
  }

  lemma OutcomeExtends(
      ledger: seq<Row>, pending: seq<Migration>, done: seq<Migration>, r: (Database, Applied))
    requires pending != []
    requires Outcome(ledger + [RowOf(pending[0])], pending[1..], done + [pending[0]], r)
    ensures Outcome(ledger, pending, done, r)
  {
    assert done + [pending[0]] + pending[1..] == done + pending;
    assert ledger + [RowOf(pending[0])] + RowsOf(pending[1..]) == ledger + RowsOf(pending);
  }

  lemma OutcomeOfNothing(db: Database, done: seq<Migration>)
    requires Sound(db)
    ensures Outcome(db.ledger, [], done, (db, Success(done)))
  {
    assert done + [] == done && db.ledger + RowsOf([]) == db.ledger;
  }

  lemma OutcomeOfFailure(
      ledger: seq<Row>, pending: seq<Migration>, done: seq<Migration>, r: (Database, Applied))
    requires Sound(r.0) && r.0.ledger == ledger && r.1.Failure?
    ensures Outcome(ledger, pending, done, r)
  {
  }

  // Applying the next due migration keeps the ledger sound; it gains the migration's row unless it failed.
  lemma StepIsSound(db: Database, pending: seq<Migration>, ok: Oracle, n: nat)
    requires Sound(db) && Due(db.ledger, pending) && pending != []
    ensures var (next, failure, _) := ApplyStep(db, pending[0], ok, n);
            && Sound(next)
            && next.ledger == (if failure.Some? then db.ledger else db.ledger + [RowOf(pending[0])])
            && (failure.None? ==> Due(next.ledger, pending[1..]))
  {
    var m := pending[0];
    var p := RunStatements(db, Statements(m.sql), ok, n);
    RunAppends(db, Statements(m.sql), ok, n);
    RowsUnchangedByRuns(db.log, p.db.log);
    DueNext(db.ledger, pending);
    if p.ok {
      DueHead(db.ledger, pending);
      RecordIsSound(db, m, Record(p.db, m));
    }
  }

  lemma {:induction false} ApplyPendingIsSound(
      db: Database, pending: seq<Migration>, done: seq<Migration>, ok: Oracle, n: nat)
    requires Sound(db) && Due(db.ledger, pending)
    ensures Outcome(db.ledger, pending, done, ApplyPending(db, pending, done, ok, n))
    decreases |pending|
  {
    if pending == [] {
      OutcomeOfNothing(db, done);
      return;
    }
    var (next, failure, calls) := ApplyStep(db, pending[0], ok, n);
    StepIsSound(db, pending, ok, n);
    var r := ApplyPending(db, pending, done, ok, n);
    if failure.None? {
      ApplyPendingIsSound(next, pending[1..], done + [pending[0]], ok, calls);
      OutcomeExtends(db.ledger, pending, done, r);
    } else {
      OutcomeOfFailure(db.ledger, pending, done, r);
    }
  }

  function RowsOf(ms: seq<Migration>): seq<Row> {
    seq(|ms|, i requires 0 <= i < |ms| => RowOf(ms[i]))
  }

  lemma DueHead(ledger: seq<Row>, pending: seq<Migration>)
    requires Due(ledger, pending) && pending != []
    ensures pending[0].version == Pad3(|ledger| + 1)
  {
    var k := |ledger|;
    var expected := Expected(k + |pending|);
    ExpectedIsPrefix(k + 1, k + |pending|);
    assert expected[k] == expected[..k + 1][k] == Expected(k + 1)[k] == Pad3(k + 1);
    assert (LedgerVersions(ledger) + VersionList(pending))[k] == pending[0].version;
  }

  lemma DueNext(ledger: seq<Row>, pending: seq<Migration>)
    requires Due(ledger, pending) && pending != []
    ensures Due(ledger + [RowOf(pending[0])], pending[1..])
  {
    var next := ledger + [RowOf(pending[0])];
    assert LedgerVersions(next) + VersionList(pending[1..]) == LedgerVersions(ledger) + VersionList(pending);
  }

  lemma DueAtFirst(ledger: seq<Row>, ms: seq<Migration>)
    requires Contiguous(ms) && Prefix(ledger) && |ledger| <= |ms|
    ensures Due(ledger, ms[|ledger|..])
  {
    var pending := ms[|ledger|..];
    ExpectedIsPrefix(|ledger|, |ms|);
    assert LedgerVersions(ledger) + VersionList(pending) == VersionList(ms);
  }

  lemma ApplyIsSound(hash: string -> string, c: Call, db: Database)
    requires Sound(db)
    ensures Sound(ApplyEffect(hash, c.dir, c.dryRun, c.ok, db).0)
    ensures db.ledger <= ApplyEffect(hash, c.dir, c.dryRun, c.ok, db).0.ledger
  {
    var plan := PlanResult(hash, c.dir, db.ledger);
    if plan.Success? {
      var ms := Found(hash, c.dir.entries);
      PlanExactly(ms, db.ledger);
      DueAtFirst(db.ledger, ms);
      ApplyPendingIsSound(db, plan.value, [], c.ok, 0);
    }
  }

  /** After any sequence of apply calls, whatever failed and whatever happened to the directory between
      them, the ledger is exactly 001..k, and it is what was recorded, in order. */
  lemma {:induction false} LedgerStaysSound(hash: string -> string, calls: seq<Call>)
    ensures Sound(History(hash, calls))
  {
    if calls != [] {
      var c := calls[|calls| - 1];
      LedgerStaysSound(hash, calls[..|calls| - 1]);
      ApplyIsSound(hash, c, History(hash, calls[..|calls| - 1]));
    }
  }

  // Rows are only ever appended.
  lemma {:induction false} LedgerOnlyGrows(hash: string -> string, calls: seq<Call>, upTo: nat)
    requires upTo <= |calls|
    ensures History(hash, calls[..upTo]).ledger <= History(hash, calls).ledger
    decreases |calls|
  {
    if upTo == |calls| {
      assert calls[..upTo] == calls;
    } else {
      var front := calls[..|calls| - 1];
      assert front[..upTo] == calls[..upTo];
      LedgerOnlyGrows(hash, front, upTo);
      LedgerStaysSound(hash, front);
      ApplyIsSound(hash, calls[|calls| - 1], History(hash, front));
    }
  }

  // ----- the files the rows record -----

  // The row names this file: its version, its name and the checksum of its text.
  predicate Names(hash: string -> string, row: Row, e: Entry) {
    && e.Numbered?
    && row.version == e.version && row.name == e.name && row.checksum == Checksum(hash, e.sql)
  }

  // Log entry p records this file right after all its statements had run, all at or after from.
  predicate RecordsFile(hash: string -> string, log: seq<Executed>, p: nat, e: Entry, from: nat)
    requires p < |log|
  {
    && log[p].Recorded? && Names(hash, log[p].row, e)
    && var run := AsRun(Statements(e.sql));
       from + |run| <= p && log[p - |run|..p] == run
  }

  ghost predicate RecordsOneOf(hash: string -> string, log: seq<Executed>, p: nat, entries: seq<Entry>, from: nat)
    requires p < |log|
  {
    exists e <- entries :: RecordsFile(hash, log, p, e, from)
  }

  // What was recorded from entry from on records files of this listing.
  ghost predicate FromFiles(hash: string -> string, log: seq<Executed>, from: nat, entries: seq<Entry>) {
    forall p :: from <= p < |log| && log[p].Recorded? ==> RecordsOneOf(hash, log, p, entries, from)
  }

  // m was loaded from this file.
  predicate LoadedFrom(hash: string -> string, m: Migration, e: Entry) {
    Names(hash, RowOf(m), e) && m.sql == e.sql
  }

  ghost predicate AllLoadedFrom(hash: string -> string, ms: seq<Migration>, entries: seq<Entry>) {
    forall m <- ms :: exists e <- entries :: LoadedFrom(hash, m, e)
  }

  lemma {:induction false} FewerLoaded(
    hash: string -> string, fewer: seq<Migration>, ms: seq<Migration>, entries: seq<Entry>)
    requires AllLoadedFrom(hash, ms, entries) && forall m <- fewer :: m in ms
    ensures AllLoadedFrom(hash, fewer, entries)
  {
  }

  lemma {:induction false} FoundIsListed(hash: string -> string, entries: seq<Entry>)
    ensures AllLoadedFrom(hash, Found(hash, entries), entries)
  {
    if entries != [] {
      var front, last := entries[..|entries| - 1], entries[|entries| - 1];
      FoundIsListed(hash, front);
      forall m | m in Found(hash, entries)
        ensures exists e <- entries :: LoadedFrom(hash, m, e)
      {
        if m in Found(hash, front) {
          var e :| e in front && LoadedFrom(hash, m, e);
          assert e in entries;
        } else {
          assert last in entries && LoadedFrom(hash, m, last);
        }
      }
    }
  }

  lemma FileStaysRecorded(
    hash: string -> string, log: seq<Executed>, longer: seq<Executed>, p: nat, e: Entry, from: nat)
    requires log <= longer && p < |log| && RecordsFile(hash, log, p, e, from)
    ensures RecordsFile(hash, longer, p, e, from)
  {
    var n := |AsRun(Statements(e.sql))|;
    assert longer[p - n..p] == log[p - n..p];
  }

  lemma {:induction false} RunsRecordNothing(
    hash: string -> string, log: seq<Executed>, longer: seq<Executed>, from: nat, entries: seq<Entry>)
    requires FromFiles(hash, log, from, entries) && log <= longer
    requires forall i :: |log| <= i < |longer| ==> longer[i].Ran?
    ensures FromFiles(hash, longer, from, entries)
  {
    forall p | from <= p < |longer| && longer[p].Recorded?
      ensures RecordsOneOf(hash, longer, p, entries, from)
    {
      assert log[p] == longer[p] && RecordsOneOf(hash, log, p, entries, from);
      var e :| e in entries && RecordsFile(hash, log, p, e, from);
      FileStaysRecorded(hash, log, longer, p, e, from);
    }
  }

  lemma NewestRecordsFile(hash: string -> string, log: seq<Executed>, m: Migration, e: Entry, from: nat)
    requires LoadedFrom(hash, m, e) && from <= |log|
    ensures var all := log + AsRun(Statements(m.sql)) + [Recorded(RowOf(m))];
            RecordsFile(hash, all, |all| - 1, e, from)
  {
    var run := AsRun(Statements(m.sql));
    var all := log + run + [Recorded(RowOf(m))];
    assert all[|log|..|log| + |run|] == run;
  }

  lemma RecordIsFromFiles(
    hash: string -> string, log: seq<Executed>, m: Migration, from: nat, entries: seq<Entry>)
    requires FromFiles(hash, log, from, entries) && from <= |log|
    requires AllLoadedFrom(hash, [m], entries)
    ensures FromFiles(hash, log + AsRun(Statements(m.sql)) + [Recorded(RowOf(m))], from, entries)
  {
    var mid := log + AsRun(Statements(m.sql));
    var all := mid + [Recorded(RowOf(m))];
    RunsRecordNothing(hash, log, mid, from, entries);
    assert m in [m];
    var file :| file in entries && LoadedFrom(hash, m, file);
    NewestRecordsFile(hash, log, m, file, from);
    forall p | from <= p < |all| && all[p].Recorded?
      ensures RecordsOneOf(hash, all, p, entries, from)
    {
      if p < |mid| {
        assert mid[p] == all[p] && RecordsOneOf(hash, mid, p, entries, from);
        var e :| e in entries && RecordsFile(hash, mid, p, e, from);
        FileStaysRecorded(hash, mid, all, p, e, from);
      }
    }
  }

  lemma StepIsFromFiles(
    hash: string -> string, db: Database, m: Migration, ok: Oracle, n: nat, from: nat, entries: seq<Entry>)
    requires FromFiles(hash, db.log, from, entries) && from <= |db.log| && AllLoadedFrom(hash, [m], entries)
    ensures var next := ApplyStep(db, m, ok, n).0;
            db.log <= next.log && FromFiles(hash, next.log, from, entries)
  {
    RunAppends(db, Statements(m.sql), ok, n);
    RunsRecordNothing(hash, db.log, RunStatements(db, Statements(m.sql), ok, n).db.log, from, entries);
    RecordIsFromFiles(hash, db.log, m, from, entries);
  }

  lemma {:induction false} PendingIsFromFiles(
    hash: string -> string, db: Database, pending: seq<Migration>, done: seq<Migration>, ok: Oracle, n: nat,
    from: nat, entries: seq<Entry>)
    requires FromFiles(hash, db.log, from, entries) && from <= |db.log| && AllLoadedFrom(hash, pending, entries)
    ensures var after := ApplyPending(db, pending, done, ok, n).0;
            db.log <= after.log && FromFiles(hash, after.log, from, entries)
    decreases |pending|
  {
    if pending != [] {
      var (next, failure, calls) := ApplyStep(db, pending[0], ok, n);
      FewerLoaded(hash, [pending[0]], pending, entries);
      FewerLoaded(hash, pending[1..], pending, entries);
      StepIsFromFiles(hash, db, pending[0], ok, n, from, entries);
      if failure.None? {
        PendingIsFromFiles(hash, next, pending[1..], done + [pending[0]], ok, calls, from, entries);
      }
    }
  }

  function Files(dir: Directory): seq<Entry> {
    if dir.Missing? then [] else dir.entries
  }

  lemma CallIsFromFiles(hash: string -> string, c: Call, db: Database)
    requires Sound(db)
    ensures var after := ApplyEffect(hash, c.dir, c.dryRun, c.ok, db).0;
            db.log <= after.log && FromFiles(hash, after.log, |db.log|, Files(c.dir))
  {
    var plan := PlanResult(hash, c.dir, db.ledger);
    if plan.Success? && !c.dryRun {
      var ms := Found(hash, c.dir.entries);
      PlanExactly(ms, db.ledger);
      FoundIsListed(hash, c.dir.entries);
      FewerLoaded(hash, plan.value, ms, c.dir.entries);
      PendingIsFromFiles(hash, db, plan.value, [], c.ok, 0, |db.log|, c.dir.entries);
    }
  }

  // The row at p was recorded by call i, from this file of its directory.
  predicate RecordedBy(hash: string -> string, calls: seq<Call>, p: nat, i: nat, e: Entry) {
    && i < |calls| && e in Files(calls[i].dir)
    && p < |History(hash, calls[..i + 1]).log| <= |History(hash, calls).log|
    && RecordsFile(hash, History(hash, calls).log, p, e, |History(hash, calls[..i]).log|)
  }

  lemma {:induction false} LogGrows(hash: string -> string, front: seq<Call>, call: Call)
    ensures History(hash, front).log <= History(hash, front + [call]).log
  {
    LedgerStaysSound(hash, front);
    CallIsFromFiles(hash, call, History(hash, front));
    assert (front + [call])[..|front|] == front;
  }

  // What the last call recorded, it recorded from its own directory.
  lemma LastRecords(hash: string -> string, front: seq<Call>, call: Call, p: nat) returns (e: Entry)
    requires var before, after := History(hash, front), History(hash, front + [call]);
             |before.log| <= p < |after.log| && after.log[p].Recorded?
    ensures RecordedBy(hash, front + [call], p, |front|, e)
  {
    var before, after, calls := History(hash, front), History(hash, front + [call]), front + [call];
    LedgerStaysSound(hash, front);
    CallIsFromFiles(hash, call, before);
    assert calls[..|front|] == front && calls[..|front| + 1] == calls;
    assert RecordsOneOf(hash, after.log, p, Files(call.dir), |before.log|);
    e :| e in Files(call.dir) && RecordsFile(hash, after.log, p, e, |before.log|);
  }

  lemma StaysRecorded(hash: string -> string, front: seq<Call>, call: Call, p: nat, i: nat, e: Entry)
    requires RecordedBy(hash, front, p, i, e)
    ensures RecordedBy(hash, front + [call], p, i, e)
  {
    var calls := front + [call];
    LogGrows(hash, front, call);
    assert front[..i] == calls[..i] && front[..i + 1] == calls[..i + 1];
    FileStaysRecorded(
      hash, History(hash, front).log, History(hash, calls).log, p, e, |History(hash, front[..i]).log|);
  }

  /** Over any history, whatever failed and however the directory was edited, every row was recorded by one
      call, from a file of that call's directory: it holds the file's version, name and checksum, and was
      recorded in that call right after all statements of the file had run. */
  lemma {:induction false} RowsRecordFiles(hash: string -> string, calls: seq<Call>, p: nat)
    returns (i: nat, e: Entry)
    requires p < |History(hash, calls).log| && History(hash, calls).log[p].Recorded?
    ensures RecordedBy(hash, calls, p, i, e)
  {
    var front, call := calls[..|calls| - 1], calls[|calls| - 1];
    assert calls == front + [call];
    LogGrows(hash, front, call);
    if p < |History(hash, front).log| {
      i, e := RowsRecordFiles(hash, front, p);
      StaysRecorded(hash, front, call, p, i, e);
    } else {
      i := |front|;
      e := LastRecords(hash, front, call, p);
    }
  }

  lemma {:induction false} RowWasRecorded(log: seq<Executed>, k: nat) returns (p: nat)
    requires k < |RecordedRows(log)|
    ensures p < |log| && log[p] == Recorded(RecordedRows(log)[k])
  {
    var n := |log| - 1;
    if k < |RecordedRows(log[..n])| {
      p := RowWasRecorded(log[..n], k);
    } else {
      p := n;
    }
  }

  // So row k of the ledger is numbered k + 1 and names a file that some call applied.
  lemma LedgerRecordsFiles(hash: string -> string, calls: seq<Call>, k: nat) returns (i: nat, e: Entry)
    requires k < |History(hash, calls).ledger|
    ensures i < |calls| && e in Files(calls[i].dir)
    ensures var row := History(hash, calls).ledger[k]; row.version == Pad3(k + 1) && Names(hash, row, e)
  {
    var db := History(hash, calls);
    LedgerStaysSound(hash, calls);
    var p := RowWasRecorded(db.log, k);
    i, e := RowsRecordFiles(hash, calls, p);
    assert RecordsFile(hash, db.log, p, e, |History(hash, calls[..i]).log|);
    ExpectedAt(|db.ledger|, k);
    assert LedgerVersions(db.ledger)[k] == db.ledger[k].version;
  }

  lemma {:induction false} ExpectedAt(n: nat, k: nat)
    requires k < n
    ensures Expected(n)[k] == Pad3(k + 1)
  {
    if k < n - 1 {
      ExpectedAt(n - 1, k);
    }
  }

  // ----- edited files -----

  // Row k of the ledger was recorded by some call right after it had run this text.
  ghost predicate AppliedAs(hash: string -> string, calls: seq<Call>, k: nat, sql: string)
    requires k < |History(hash, calls).ledger|
  {
    exists p, i, e :: AppliedBy(hash, calls, k, sql, p, i, e)
  }

  ghost predicate AppliedBy(
    hash: string -> string, calls: seq<Call>, k: nat, sql: string, p: nat, i: nat, e: Entry)
    requires k < |History(hash, calls).ledger|
  {
    && RecordedBy(hash, calls, p, i, e) && e.Numbered? && e.sql == sql
    && History(hash, calls).log[p] == Recorded(History(hash, calls).ledger[k])
  }

  // Every row was; and it holds the checksum of that text.
  lemma RowWasApplied(hash: string -> string, calls: seq<Call>, k: nat) returns (sql: string)
    requires k < |History(hash, calls).ledger|
    ensures AppliedAs(hash, calls, k, sql)
  {
    LedgerStaysSound(hash, calls);
    var p := RowWasRecorded(History(hash, calls).log, k);
    var i, e := RowsRecordFiles(hash, calls, p);
    sql := e.sql;
    assert AppliedBy(hash, calls, k, sql, p, i, e);
  }

  lemma {:induction false} AppliedChecksum(hash: string -> string, calls: seq<Call>, k: nat, sql: string)
    requires k < |History(hash, calls).ledger| && AppliedAs(hash, calls, k, sql)
    ensures History(hash, calls).ledger[k].checksum == Checksum(hash, sql)
  {
    var p, i, e :| AppliedBy(hash, calls, k, sql, p, i, e);
  }

  // File k of the directory is not, line by line, the text applied as row k.
  ghost predicate EditedAt(hash: string -> string, calls: seq<Call>, ms: seq<Migration>, k: nat) {
    && k < |ms| && k < |History(hash, calls).ledger|
    && exists sql :: AppliedAs(hash, calls, k, sql) && Lines(ms[k].sql) != Lines(sql)
  }

  lemma PlanRefuses(ms: seq<Migration>, ledger: seq<Row>)
    requires Contiguous(ms) && Prefix(ledger)
    ensures Planned(ms, ledger) == Failure(Modified) <==>
            exists k :: 0 <= k < |ms| && k < |ledger| && ms[k].checksum != ledger[k].checksum
    ensures Planned(ms, ledger) == Failure(Vanished) <==>
            |ms| < |ledger| && forall k :: 0 <= k < |ms| ==> ms[k].checksum == ledger[k].checksum
  {
    var applied := ToDict(ledger);
    AppliedVersions(ms, ledger);
    if k :| 0 <= k < |ms| && k < |ledger| && ms[k].checksum != ledger[k].checksum {
      assert ms[k] in ms && ms[k].version in applied && applied[ms[k].version] != ms[k].checksum;
    }
  }

  lemma {:induction false} LoadedChecksum(hash: string -> string, entries: seq<Entry>, k: nat)
    requires k < |Found(hash, entries)|
    ensures var m := Found(hash, entries)[k]; m.checksum == Checksum(hash, m.sql)
  {
    var front := entries[..|entries| - 1];
    if k < |Found(hash, front)| {
      LoadedChecksum(hash, front, k);
    }
  }

  lemma {:induction false} EditedIsTold(hash: string -> string, calls: seq<Call>, entries: seq<Entry>, k: nat)
    requires CollisionFree(hash) && k < |Found(hash, entries)| && k < |History(hash, calls).ledger|
    ensures EditedAt(hash, calls, Found(hash, entries), k) <==>
            Found(hash, entries)[k].checksum != History(hash, calls).ledger[k].checksum
  {
    var ms := Found(hash, entries);
    LoadedChecksum(hash, entries, k);
    var text := RowWasApplied(hash, calls, k);
    forall sql | AppliedAs(hash, calls, k, sql)
      ensures Lines(ms[k].sql) != Lines(sql) <==> ms[k].checksum != History(hash, calls).ledger[k].checksum
    {
      AppliedChecksum(hash, calls, k, sql);
      ChecksumTellsLines(hash, ms[k].sql, sql);
    }
  }

  /** Over any history, with a hash free of collisions: a well-numbered directory is refused as modified exactly
      when one of its files 001..k differs, beyond line ends, from the text that was applied under its number;
      and as vanished exactly when none does but files are missing. */
  lemma {:induction false} RefusedExactly(hash: string -> string, calls: seq<Call>, dir: Directory)
    requires CollisionFree(hash) && Discovery(hash, dir).Success?
    ensures var ms, ledger := Discovery(hash, dir).value, History(hash, calls).ledger;
            && (PlanResult(hash, dir, ledger) == Failure(Modified) <==> exists k :: EditedAt(hash, calls, ms, k))
            && (PlanResult(hash, dir, ledger) == Failure(Vanished) <==>
                |ms| < |ledger| && !exists k :: EditedAt(hash, calls, ms, k))
  {
    var ms, ledger := Found(hash, dir.entries), History(hash, calls).ledger;
    LedgerStaysSound(hash, calls);
    PlanRefuses(ms, ledger);
    forall k | 0 <= k < |ms| && k < |ledger|
      ensures EditedAt(hash, calls, ms, k) <==> ms[k].checksum != ledger[k].checksum
    {
      EditedIsTold(hash, calls, dir.entries, k);
    }
  }

  // ----- all that a call executes -----

  // The statements of a migration, then its row.
  function Block(m: Migration): seq<Executed> {
    AsRun(Statements(m.sql)) + [Recorded(RowOf(m))]
  }

  function Script(ms: seq<Migration>): seq<Executed> {
    if ms == [] then [] else Block(ms[0]) + Script(ms[1..])
  }

  function Did(db: Database, e: Executed): Database {
    Database(if e.Recorded? then db.ledger + [e.row] else db.ledger, db.log + [e])
  }

  // A script executed command by command, up to the first failure.
  function Executing(db: Database, script: seq<Executed>, ok: Oracle, n: nat): Progress
    decreases |script|
  {
    if script == [] then Progress(db, n, true)
    else if !ok(n) then Progress(db, n + 1, false)
    else Executing(Did(db, script[0]), script[1..], ok, n + 1)
  }

  lemma {:induction false} ExecutingBoth(db: Database, a: seq<Executed>, b: seq<Executed>, ok: Oracle, n: nat)
    ensures var p := Executing(db, a, ok, n);
            Executing(db, a + b, ok, n) == if p.ok then Executing(p.db, b, ok, p.calls) else p
    decreases |a|
  {
    if a == [] {
      assert a + b == b;
    } else {
      assert (a + b)[1..] == a[1..] + b;
      ExecutingBoth(Did(db, a[0]), a[1..], b, ok, n + 1);
    }
  }

  lemma {:induction false} StatementsExecute(db: Database, statements: seq<string>, ok: Oracle, n: nat)
    ensures RunStatements(db, statements, ok, n) == Executing(db, AsRun(statements), ok, n)
    decreases |statements|
  {
    if statements != [] {
      assert AsRun(statements)[1..] == AsRun(statements[1..]);
      StatementsExecute(Did(db, Ran(statements[0])), statements[1..], ok, n + 1);
    }
  }

  lemma {:induction false} RowExecutes(db: Database, m: Migration, ok: Oracle, n: nat)
    ensures Executing(db, [Recorded(RowOf(m))], ok, n) ==
            if ok(n) then Progress(Record(db, m), n + 1, true) else Progress(db, n + 1, false)
  {
  }

  lemma {:induction false} MigrationExecutes(db: Database, m: Migration, ok: Oracle, n: nat)
    ensures var (next, failure, calls) := ApplyStep(db, m, ok, n);
            Executing(db, Block(m), ok, n) == Progress(next, calls, failure.None?)
  {
    var p := RunStatements(db, Statements(m.sql), ok, n);
    StatementsExecute(db, Statements(m.sql), ok, n);
    ExecutingBoth(db, AsRun(Statements(m.sql)), [Recorded(RowOf(m))], ok, n);
    RowExecutes(p.db, m, ok, p.calls);
  }

  // Applying is executing one flat script.
  lemma {:induction false} PendingExecutes(
    db: Database, pending: seq<Migration>, done: seq<Migration>, ok: Oracle, n: nat)
    ensures var (after, applied) := ApplyPending(db, pending, done, ok, n);
            var p := Executing(db, Script(pending), ok, n);
            after == p.db && (applied.Success? <==> p.ok)
    decreases |pending|
  {
    if pending != [] {
      var (next, failure, calls) := ApplyStep(db, pending[0], ok, n);
      MigrationExecutes(db, pending[0], ok, n);
      ExecutingBoth(db, Block(pending[0]), Script(pending[1..]), ok, n);
      if failure.None? {
        PendingExecutes(next, pending[1..], done + [pending[0]], ok, calls);
      }
    }
  }

  // Of the commands of a script, executed as calls first, first + 1, ..., these return and the next, if any, fails.
  predicate StopsAfter(ok: Oracle, first: nat, c: nat, length: nat) {
    c <= length && (forall i :: first <= i < first + c ==> ok(i)) && (c < length ==> !ok(first + c))
  }

  // The rows of the commands executed, in order.
  function After(db: Database, executed: seq<Executed>): Database {
    Database(db.ledger + RecordedRows(executed), db.log + executed)
  }

  lemma {:induction false} RowsOfFirst(e: Executed, rest: seq<Executed>)
    ensures RecordedRows([e] + rest) == (if e.Recorded? then [e.row] else []) + RecordedRows(rest)
  {
    if rest == [] {
      assert [e] + rest == [e] && [e][..0] == [];
    } else {
      var front := rest[..|rest| - 1];
      assert ([e] + rest)[..|rest|] == [e] + front;
      RowsOfFirst(e, front);
    }
  }

  lemma AfterFirst(db: Database, e: Executed, rest: seq<Executed>)
    ensures After(Did(db, e), rest) == After(db, [e] + rest)
  {
    RowsOfFirst(e, rest);
  }

  lemma {:induction false} ExecutingStops(db: Database, script: seq<Executed>, ok: Oracle, n: nat) returns (c: nat)
    ensures var p := Executing(db, script, ok, n);
            StopsAfter(ok, n, c, |script|) && p.db == After(db, script[..c]) && (p.ok <==> c == |script|)
    decreases |script|
  {
    if script == [] || !ok(n) {
      c := 0;
      assert After(db, []) == db && script[..0] == [];
    } else {
      var more := ExecutingStops(Did(db, script[0]), script[1..], ok, n + 1);
      c := more + 1;
      AfterFirst(db, script[0], script[1..][..more]);
      assert script[..c] == [script[0]] + script[1..][..more];
    }
  }

  /** In any history, a call that is refused or dry changes nothing. Any other executes, from the files not yet
      in the ledger, their statements and rows in order up to the first call to execute that fails, and
      nothing else; it succeeds exactly when none does. */
  lemma CallsExecuteExactly(hash: string -> string, front: seq<Call>, call: Call) returns (c: nat)
    ensures var before, after := History(hash, front), History(hash, front + [call]);
            var plan := PlanResult(hash, call.dir, before.ledger);
            && (plan.Failure? || call.dryRun ==> after == before)
            && (plan.Success? ==>
                  && call.dir.Listing? && |before.ledger| <= |Found(hash, call.dir.entries)|
                  && plan.value == Found(hash, call.dir.entries)[|before.ledger|..])
            && (plan.Success? && !call.dryRun ==>
                  && StopsAfter(call.ok, 0, c, |Script(plan.value)|) && after == After(before, Script(plan.value)[..c])
                  && (ApplyEffect(hash, call.dir, false, call.ok, before).1.Success? <==> c == |Script(plan.value)|))
  {
    var before := History(hash, front);
    var plan := PlanResult(hash, call.dir, before.ledger);
    assert (front + [call])[..|front|] == front;
    LedgerStaysSound(hash, front);
    c := 0;
    if plan.Success? {
      PlanExactly(Found(hash, call.dir.entries), before.ledger);
      PendingExecutes(before, plan.value, [], call.ok, 0);
      c := ExecutingStops(before, Script(plan.value), call.ok, 0);
    }
  }

  // The directory still starts with the files the ledger recorded: same versions, same checksums.
  predicate Unchanged(ms: seq<Migration>, ledger: seq<Row>) {
    && |ledger| <= |ms|
    && forall i :: 0 <= i < |ledger| ==>
         ms[i].version == ledger[i].version && ms[i].checksum == ledger[i].checksum
  }

  /** In any history, a call gets past planning exactly when the directory is well numbered and still
      holds 001..k with the recorded checksums. */
  lemma {:induction false} PastPlanExactly(hash: string -> string, calls: seq<Call>, dir: Directory)
    ensures PlanResult(hash, dir, History(hash, calls).ledger).Success? <==>
            Discovery(hash, dir).Success? && Unchanged(Discovery(hash, dir).value, History(hash, calls).ledger)
  {
    var ledger := History(hash, calls).ledger;
    LedgerStaysSound(hash, calls);
    match Discovery(hash, dir)
    case Failure(_) =>
    case Success(ms) =>
      PlanExactly(ms, ledger);
      Aligned(ms, ledger);
  }

  lemma {:induction false} PendingRecorded(db: Database, pending: seq<Migration>, ok: Oracle)
    requires Sound(db) && Due(db.ledger, pending)
    requires ApplyPending(db, pending, [], ok, 0).1.Success?
    ensures var db' := ApplyPending(db, pending, [], ok, 0).0;
            Sound(db') && db'.ledger == db.ledger + RowsOf(pending)
  {
    ApplyPendingIsSound(db, pending, [], ok, 0);
  }

  lemma AllRecorded(ms: seq<Migration>, ledger: seq<Row>, all: seq<Row>)
    requires ChecksumsKept(ms, ledger) && all == ledger + RowsOf(ms[|ledger|..])
    ensures |all| == |ms| && ChecksumsKept(ms, all)
  {
  }

  // Applying all that is pending leaves a sound ledger of all migrations.
  lemma {:induction false} PendingReaches(db: Database, ms: seq<Migration>, ok: Oracle)
    requires Sound(db) && Contiguous(ms) && ChecksumsKept(ms, db.ledger)
    requires ApplyPending(db, ms[|db.ledger|..], [], ok, 0).1.Success?
    ensures var db' := ApplyPending(db, ms[|db.ledger|..], [], ok, 0).0;
            Sound(db') && |db'.ledger| == |ms| && ChecksumsKept(ms, db'.ledger)
  {
    var pending := ms[|db.ledger|..];
    DueAtFirst(db.ledger, ms);
    PendingRecorded(db, pending, ok);
    AllRecorded(ms, db.ledger, ApplyPending(db, pending, [], ok, 0).0.ledger);
  }

  lemma ApplyReaches(hash: string -> string, dir: Directory, ok: Oracle, db: Database)
    requires Sound(db)
    requires ApplyEffect(hash, dir, false, ok, db).1.Success?
    ensures var db' := ApplyEffect(hash, dir, false, ok, db).0;
            && Sound(db')
            && |db'.ledger| == |Found(hash, dir.entries)|
            && ChecksumsKept(Found(hash, dir.entries), db'.ledger)
  {
    var ms := Found(hash, dir.entries);
    PlanExactly(ms, db.ledger);
    PendingReaches(db, ms, ok);
  }

  // A successful apply repeated on the same directory executes nothing and applies nothing.
  lemma {:induction false} ApplyIsIdempotent(
    hash: string -> string, calls: seq<Call>, dir: Directory, ok: Oracle, again: Oracle)
    requires ApplyEffect(hash, dir, false, ok, History(hash, calls)).1.Success?
    ensures var db := ApplyEffect(hash, dir, false, ok, History(hash, calls)).0;
            ApplyEffect(hash, dir, false, again, db) == (db, Success([]))
  {
    LedgerStaysSound(hash, calls);
    ApplyReaches(hash, dir, ok, History(hash, calls));
    var ms := Found(hash, dir.entries);
    PlanExactly(ms, ApplyEffect(hash, dir, false, ok, History(hash, calls)).0.ledger);
    assert ms[|ms|..] == [];
  }
}
