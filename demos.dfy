/**
  The example scenarios at the bottom of the two manager scripts, stated
  on the model: two environments whose `database` configurations
  differ only in `url`.
*/
module Demos {
  import opened Json
  import opened Differ
  import opened Snapshots
  import opened EnvironmentConfig

  const DevelopmentDatabase: ConfigValue := map["url" := JStr("localhost"), "port" := JNum(5432)]
  const ProductionDatabase: ConfigValue := map["url" := JStr("prod.db.com"), "port" := JNum(5432)]

  /** What the scenario's set-up exports. */
  const DemoSnapshot: Snapshot := map[
    "development" := map["database" := DevelopmentDatabase],
    "production" := map["database" := ProductionDatabase]]

  /** The two demo values differ in `url` only; `port` is equal on both sides. */
  lemma DemoDifferences()
    ensures Differences(DevelopmentDatabase, ProductionDatabase) ==
      map["url" := DiffEntry(JStr("localhost"), JStr("prod.db.com"))]
  {
    assert PyEq(Get(DevelopmentDatabase, "port"), Get(ProductionDatabase, "port"));
    assert !PyEq(Get(DevelopmentDatabase, "url"), Get(ProductionDatabase, "url"));
    assert Differences(DevelopmentDatabase, ProductionDatabase).Keys == {"url"};
  }

  /** Importing the demo export into itself refuses `database` in both environments. */
  lemma DemoSnapshotSkipped()
    ensures Skipped(DemoSnapshot, DemoSnapshot).Keys == {"development", "production"}
    ensures forall e :: e in Skipped(DemoSnapshot, DemoSnapshot) ==>
      Skipped(DemoSnapshot, DemoSnapshot)[e] == {"database"}
  {
    SkippedOwnExport(DemoSnapshot);
  }

  /** Builds the manager both scripts start from. */
  method DemoManager() returns (m: EnvironmentManager)
    ensures fresh(m) && m.Valid() && fresh(m.Repr)
    ensures m.environments.Keys == {"development", "production"}
    ensures m.environments["development"].configurations == map["database" := DevelopmentDatabase]
    ensures m.environments["production"].configurations == map["database" := ProductionDatabase]
    ensures m.Export() == DemoSnapshot
  {
    m := new EnvironmentManager();
    var _ := m.AddEnvironment("development");
    var _ := m.AddEnvironment("production");
    var development := m.environments["development"];
    var _ := development.AddConfiguration("database", DevelopmentDatabase);
    var production := m.environments["production"];
    var _ := production.AddConfiguration("database", ProductionDatabase);
    m.ExportFromPoints(DemoSnapshot);
  }

  /**
    The script of the export/import copy: exporting, importing the export
    back and listing leaves both environments and their values in place.
    The import creates nothing and refuses `database` in both environments
    as already existing.
  */
  method ExportImportDemo() returns (names: set<string>, created: set<string>,
                                     skipped: map<string, set<string>>, after: Snapshot)
    ensures names == {"development", "production"}
    ensures created == {}
    ensures skipped.Keys == {"development", "production"}
    ensures forall e :: e in skipped ==> skipped[e] == {"database"}
    ensures after == DemoSnapshot
  {
    var m := DemoManager();
    var exported := m.Export();
    created, skipped := m.ImportConfigurations(exported);
    ImportOwnExport(exported);
    DemoSnapshotSkipped();
    names := m.ListEnvironments();
    after := m.Export();
  }

  /**
    Importing the export of one manager into a new one copies it: both
    environments are created and nothing is refused.
  */
  method CopyDemo() returns (created: set<string>, skipped: map<string, set<string>>, copy: Snapshot)
    ensures created == {"development", "production"}
    ensures skipped.Keys == {"development", "production"}
    ensures forall e :: e in skipped ==> skipped[e] == {}
    ensures copy == DemoSnapshot
  {
    var m := DemoManager();
    var exported := m.Export();
    var target := new EnvironmentManager();
    created, skipped := target.ImportConfigurations(exported);
    ImportIntoEmpty(exported);
    SkippedIntoEmpty(exported);
    copy := target.Export();
  }

  /**
    A removed environment is no longer the manager's: importing data that
    names it again creates a new environment and leaves the removed object
    as it was.
  */
  method RemovedEnvironmentUntouched() returns (removed: Environment, readded: Environment)
    ensures removed.configurations == map["database" := DevelopmentDatabase]
    ensures readded != removed
    ensures readded.configurations == map["database" := ProductionDatabase]
  {
    var m := DemoManager();
    removed := m.environments["development"];
    var _ := m.RemoveEnvironment("development");
    var _, _ := m.ImportConfigurations(map["development" := map["database" := ProductionDatabase]]);
    readded := m.environments["development"];
  }

  /**
    The script of the standalone manager: the comparison reports only `url`,
    and after removing `development` only `production` is listed.
  */
  method StandaloneDemo() returns (before: set<string>, comparison: Result<Comparison>, after: set<string>)
    ensures before == {"development", "production"}
    ensures comparison == Ok(Comparison(
      "development", DevelopmentDatabase, "production", ProductionDatabase,
      map["url" := DiffEntry(JStr("localhost"), JStr("prod.db.com"))]))
    ensures after == {"production"}
  {
    var m := DemoManager();
    before := m.ListEnvironments();
    comparison := m.CompareConfigurations("development", "production", "database");
    DemoDifferences();
    var _ := m.RemoveEnvironment("development");
    after := m.ListEnvironments();
  }
}
