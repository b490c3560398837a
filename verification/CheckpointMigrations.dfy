/** Explicit forward migrations of persisted checkpoint state (src/checkpoint_migrations.py). */
module CheckpointMigrations {
  import opened Prelude
  import opened Json

  /** A deterministic migration; its result is checked to be an object. */
  type Migration = Object -> Value

  type Table = map<string, (string, Migration)>

  datatype MigrationError = NotUniquelyForward | PathUnavailable | NotAnObject

  /** Following the table from `version`, having visited `seen`. */
  function Follow(table: Table, current: string, version: string, state: Object, seen: set<string>): Result<Object, MigrationError>
    decreases table.Keys - seen
  {
    if version == current then Ok(state)
    else if version in seen || version !in table then Err(PathUnavailable)
    else
      var migrated := table[version].1(state);
      if !migrated.Obj? then Err(NotAnObject)
      else Follow(table, current, table[version].0, migrated.fields, seen + {version})
  }

  class CheckpointStateMigrator {
    const currentVersion: string
    var migrations: Table

    constructor (currentVersion: string)
      ensures this.currentVersion == currentVersion && migrations == map[]
    {
      this.currentVersion := currentVersion;
      migrations := map[];
    }

    /** A second migration from one version, or one that goes nowhere, is refused and changes nothing. */
    method Register(from: string, to: string, migration: Migration) returns (r: Result<(), MigrationError>)
      modifies this
      ensures r.Ok? <==> from != to && from !in old(migrations)
      ensures r.Ok? ==> migrations == old(migrations)[from := (to, migration)]
      ensures r.Err? ==> r.error == NotUniquelyForward && migrations == old(migrations)
    {
      if from == to || from in migrations {
        return Err(NotUniquelyForward);
      }
      migrations := migrations[from := (to, migration)];
      return Ok(());
    }

    method Migrate(start: string, state: Object) returns (r: Result<Object, MigrationError>)
      ensures r == Follow(migrations, currentVersion, start, state, {})
    {
      if start == currentVersion {
        return Ok(state);
      }
      var version, result := start, state;
      var seen: set<string> := {};
      while version != currentVersion
        invariant Follow(migrations, currentVersion, start, state, {})
               == Follow(migrations, currentVersion, version, result, seen)
        decreases migrations.Keys - seen
      {
        if version in seen || version !in migrations {
          return Err(PathUnavailable);
        }
        seen := seen + {version};
        var (next, migration) := migrations[version];
        var migrated := migration(result);
        if !migrated.Obj? {
          return Err(NotAnObject);
        }
        result, version := migrated.fields, next;
      }
      return Ok(result);
    }
  }

  // ---------------------------------------------------------------- registered paths

  /** Versions linked by registered migrations, ending at the current version and nowhere before. */
  ghost predicate IsPath(table: Table, current: string, path: seq<string>) {
    && path != [] && path[|path| - 1] == current
    && forall i :: 0 <= i < |path| - 1 ==> path[i] != current && path[i] in table && table[path[i]].0 == path[i + 1]
  }

  /** The migrations along a path, composed, stopping at the first that does not return an object. */
  function Compose(table: Table, path: seq<string>, state: Object): Result<Object, MigrationError>
    requires forall i :: 0 <= i < |path| - 1 ==> path[i] in table
  {
    if |path| <= 1 then Ok(state)
    else
      var migrated := table[path[0]].1(state);
      if !migrated.Obj? then Err(NotAnObject) else Compose(table, path[1..], migrated.fields)
  }

  lemma PathTail(table: Table, current: string, path: seq<string>)
    requires IsPath(table, current, path) && |path| > 1
    ensures IsPath(table, current, path[1..])
  {
    forall i | 0 <= i < |path| - 2
      ensures path[1..][i] != current && path[1..][i] in table && table[path[1..][i]].0 == path[1..][i + 1] {
      assert path[1..][i] == path[i + 1];
    }
  }

  /** From one version there is at most one path. */
  lemma {:induction false} PathIsUnique(table: Table, current: string, p: seq<string>, q: seq<string>)
    requires IsPath(table, current, p) && IsPath(table, current, q) && p[0] == q[0]
    ensures p == q
    decreases |p|
  {
    if |p| > 1 && |q| > 1 {
      PathTail(table, current, p);
      PathTail(table, current, q);
      assert p[0] == q[0] && p[1] == q[1];
      PathIsUnique(table, current, p[1..], q[1..]);
      assert p == [p[0]] + p[1..] && q == [q[0]] + q[1..];
    }
  }

  lemma {:induction false} PathSuffix(table: Table, current: string, path: seq<string>, i: nat)
    requires IsPath(table, current, path) && i < |path|
    ensures IsPath(table, current, path[i..])
  {
    if i > 0 {
      PathTail(table, current, path);
      PathSuffix(table, current, path[1..], i - 1);
      assert path[1..][i - 1..] == path[i..];
    }
  }

  /** A path to the current version visits no version twice. */
  lemma PathHasNoRepeats(table: Table, current: string, path: seq<string>, i: nat, j: nat)
    requires IsPath(table, current, path) && i < j < |path|
    ensures path[i] != path[j]
  {
    if path[i] == path[j] {
      PathSuffix(table, current, path, i);
      PathSuffix(table, current, path, j);
      PathIsUnique(table, current, path[i..], path[j..]);
    }
  }

  lemma {:induction false} FollowTakesPath(table: Table, current: string, path: seq<string>, state: Object, seen: set<string>)
    requires IsPath(table, current, path)
    requires forall i :: 0 <= i < |path| - 1 ==> path[i] !in seen
    ensures Follow(table, current, path[0], state, seen) == Compose(table, path, state)
    decreases |path|
  {
    if |path| > 1 {
      assert path[0] != current && path[0] in table;
      var migrated := table[path[0]].1(state);
      if migrated.Obj? {
        PathTail(table, current, path);
        forall i | 0 <= i < |path[1..]| - 1 ensures path[1..][i] !in seen + {path[0]} {
          PathHasNoRepeats(table, current, path, 0, i + 1);
          assert path[1..][i] == path[i + 1];
        }
        FollowTakesPath(table, current, path[1..], migrated.fields, seen + {path[0]});
      }
    }
  }

  lemma {:induction false} FollowedPath(table: Table, current: string, version: string, state: Object, seen: set<string>) returns (path: seq<string>)
    requires Follow(table, current, version, state, seen).Ok?
    ensures IsPath(table, current, path) && path[0] == version
    decreases table.Keys - seen
  {
    if version == current {
      path := [version];
    } else {
      var next := table[version].0;
      var rest := FollowedPath(table, current, next, table[version].1(state).fields, seen + {version});
      path := [version] + rest;
      forall i | 0 <= i < |path| - 1 ensures path[i] != current && path[i] in table && table[path[i]].0 == path[i + 1] {
        if i > 0 {
          assert path[i] == rest[i - 1] && path[i + 1] == rest[i];
        }
      }
    }
  }

  /**
   Whatever is registered, cycles included, migrating returns `result` exactly when the one registered
   path from `version` reaches the current version and its migrations compose to `result`; when there is
   a path, a failure can only be a migration that returned no object.
   */
  lemma MigrationIsTheComposedPath(table: Table, current: string, version: string, state: Object, result: Object)
    ensures Follow(table, current, version, state, {}) == Ok(result)
       <==> exists path :: IsPath(table, current, path) && path[0] == version && Compose(table, path, state) == Ok(result)
    ensures forall path :: IsPath(table, current, path) && path[0] == version ==>
      Follow(table, current, version, state, {}) == Compose(table, path, state)
  {
    forall path | IsPath(table, current, path) && path[0] == version
      ensures Follow(table, current, version, state, {}) == Compose(table, path, state) {
      FollowTakesPath(table, current, path, state, {});
    }
    if Follow(table, current, version, state, {}) == Ok(result) {
      var path := FollowedPath(table, current, version, state, {});
      assert IsPath(table, current, path) && path[0] == version;
    }
  }

  /** Later registrations only add entries. */
  ghost predicate Extends(later: Table, earlier: Table) {
    forall version :: version in earlier ==> version in later && later[version] == earlier[version]
  }

  lemma {:induction false} ComposeExtends(earlier: Table, later: Table, current: string, path: seq<string>, state: Object)
    requires Extends(later, earlier) && IsPath(earlier, current, path)
    ensures IsPath(later, current, path) && Compose(later, path, state) == Compose(earlier, path, state)
    decreases |path|
  {
    if |path| > 1 {
      PathTail(earlier, current, path);
      var migrated := earlier[path[0]].1(state);
      if migrated.Obj? {
        ComposeExtends(earlier, later, current, path[1..], migrated.fields);
      }
    }
  }

  /** A migration that succeeded keeps its result whatever is registered afterwards. */
  lemma LaterRegistrationsKeepResults(earlier: Table, later: Table, current: string, version: string, state: Object)
    requires Extends(later, earlier) && Follow(earlier, current, version, state, {}).Ok?
    ensures Follow(later, current, version, state, {}) == Follow(earlier, current, version, state, {})
  {
    var path := FollowedPath(earlier, current, version, state, {});
    ComposeExtends(earlier, later, current, path, state);
    FollowTakesPath(earlier, current, path, state, {});
    FollowTakesPath(later, current, path, state, {});
  }
}
