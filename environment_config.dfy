/**
  The environment/configuration manager: a standalone versioned
  `Configuration`, an `Environment` holding a dict from configuration name
  to raw value, and an `EnvironmentManager` holding a dict from environment
  name to `Environment`, with guarded add/update/delete, comparison and
  in-memory export/import.

  The guarded operations return an `Outcome` tag for the message they
  print; import returns its `created` and `skipped` reports; every
  `ValueError` is returned as `Err`.
*/
module EnvironmentConfig {
  import opened Json
  import opened Differ
  import opened Snapshots

  /** What the guarded operations report. */
  datatype Outcome = Added | AlreadyExists | Updated | Deleted | Removed | DoesNotExist

  datatype Error = ValueError(message: string)

  datatype Result<T> = Ok(value: T) | Err(error: Error)

  const EnvironmentsMissing := "One or both environments do not exist."
  const ConfigurationMissing := "Configuration does not exist in one or both environments."

  /** The dict that `compare_configurations` returns. */
  datatype Comparison = Comparison(
    env1Name: string, env1Config: ConfigValue,
    env2Name: string, env2Config: ConfigValue,
    differences: DiffMap)

  /**
    A named value with a version counter. `history` lists every value the
    configuration has held, oldest first; the version is its length, so it
    is one more than the number of `SetConfigValue` calls.
  */
  class Configuration {
    const configName: string
    var configValue: ConfigValue
    var version: int
    ghost var history: seq<ConfigValue>

    ghost predicate Valid()
      reads this
    {
      |history| >= 1 && version == |history| && configValue == history[|history| - 1]
    }

    constructor (configName: string, configValue: ConfigValue)
      ensures Valid()
      ensures this.configName == configName && this.configValue == configValue
      ensures version == 1 && history == [configValue]
    {
      this.configName := configName;
      this.configValue := configValue;
      version := 1;
      history := [configValue];
    }

    method GetConfigValue() returns (value: ConfigValue)
      requires Valid()
      ensures value == history[|history| - 1]
    {
      value := configValue;
    }

    method SetConfigValue(newValue: ConfigValue)
      requires Valid()
      modifies this
      ensures Valid()
      ensures configValue == newValue && version == old(version) + 1
      ensures history == old(history) + [newValue]
    {
      configValue := newValue;
      version := version + 1;
      history := history + [newValue];
    }
  }

  /** A named dict of raw configuration values. */
  class Environment {
    const name: string
    var configurations: Configurations

    constructor (name: string)
      ensures this.name == name && configurations == map[]
    {
      this.name := name;
      configurations := map[];
    }

    /** Adds only a new name; an existing one keeps its value. */
    method AddConfiguration(configName: string, content: ConfigValue) returns (outcome: Outcome)
      modifies this
      ensures outcome == if configName in old(configurations) then AlreadyExists else Added
      ensures configName in old(configurations) ==> configurations == old(configurations)
      ensures configName !in old(configurations) ==>
        configurations == old(configurations)[configName := content]
    {
      if configName in configurations {
        outcome := AlreadyExists;
      } else {
        configurations := configurations[configName := content];
        outcome := Added;
      }
    }

    /** Replaces the value of an existing name only; the key set never changes. */
    method UpdateConfiguration(configName: string, content: ConfigValue) returns (outcome: Outcome)
      modifies this
      ensures outcome == if configName in old(configurations) then Updated else DoesNotExist
      ensures configurations.Keys == old(configurations).Keys
      ensures configName in old(configurations) ==>
        configurations == old(configurations)[configName := content]
      ensures configName !in old(configurations) ==> configurations == old(configurations)
    {
      if configName in configurations {
        configurations := configurations[configName := content];
        outcome := Updated;
      } else {
        outcome := DoesNotExist;
      }
    }

    /** Removes exactly the given name, if present. */
    method DeleteConfiguration(configName: string) returns (outcome: Outcome)
      modifies this
      ensures outcome == if configName in old(configurations) then Deleted else DoesNotExist
      ensures configurations == old(configurations) - {configName}
    {
      if configName in configurations {
        configurations := configurations - {configName};
        outcome := Deleted;
      } else {
        outcome := DoesNotExist;
      }
    }
  }

  /**
    A dict of environments. Every environment is stored under its own name,
    so two names never share one `Environment` object. `Repr` is exactly the
    set of environment objects the dict holds: a removed environment leaves
    it, so later operations cannot touch that object.
  */
  class EnvironmentManager {
    var environments: map<string, Environment>
    ghost var Repr: set<Environment>

    ghost predicate Valid()
      reads this
    {
      && (forall n :: n in environments ==> environments[n].name == n && environments[n] in Repr)
      && (forall e :: e in Repr ==> e.name in environments && environments[e.name] == e)
    }

    /** `export_configurations` without the file: `{env: env.configurations}`. */
    function Export(): (data: Snapshot)
      requires Valid()
      reads this, Repr
      ensures data.Keys == environments.Keys
      ensures forall n :: n in environments ==> data[n] == environments[n].configurations
    {
      map n | n in environments :: environments[n].configurations
    }

    /** The export is determined by the names and what each environment holds. */
    lemma ExportFromPoints(s: Snapshot)
      requires Valid()
      requires environments.Keys == s.Keys
      requires forall n :: n in environments ==> environments[n].configurations == s[n]
      ensures Export() == s
    {
    }

    constructor ()
      ensures Valid() && environments == map[] && Repr == {}
    {
      environments := map[];
      Repr := {};
    }

    /** Adds an empty environment under a new name; an existing one is kept. */
    method AddEnvironment(envName: string) returns (outcome: Outcome)
      requires Valid()
      modifies this
      ensures Valid() && fresh(Repr - old(Repr))
      ensures outcome == if envName in old(environments) then AlreadyExists else Added
      ensures envName in old(environments) ==> environments == old(environments)
      ensures envName !in old(environments) ==>
        envName in environments && fresh(environments[envName]) &&
        environments == old(environments)[envName := environments[envName]]
      ensures envName !in old(environments) ==>
        environments[envName].name == envName && environments[envName].configurations == map[]
    {
      if envName in environments {
        outcome := AlreadyExists;
      } else {
        var env := new Environment(envName);
        environments := environments[envName := env];
        Repr := Repr + {env};
        outcome := Added;
      }
    }

    /** Removes exactly the given name, if present. */
    method RemoveEnvironment(envName: string) returns (outcome: Outcome)
      requires Valid()
      modifies this
      ensures Valid()
      ensures outcome == if envName in old(environments) then Removed else DoesNotExist
      ensures environments == old(environments) - {envName}
      ensures Repr == if envName in old(environments) then old(Repr) - {old(environments[envName])} else old(Repr)
      ensures Export() == old(Export()) - {envName}
    {
      if envName in environments {
        Repr := Repr - {environments[envName]};
        environments := environments - {envName};
        outcome := Removed;
      } else {
        outcome := DoesNotExist;
      }
    }

    method ListEnvironments() returns (names: set<string>)
      requires Valid()
      ensures names == environments.Keys
      ensures names == Export().Keys
    {
      names := environments.Keys;
    }

    /**
      Fails when either environment is missing, then when the configuration
      is missing from either one; otherwise returns both raw values and
      their differences. It changes nothing.
    */
    method CompareConfigurations(env1Name: string, env2Name: string, configName: string)
      returns (r: Result<Comparison>)
      ensures env1Name !in environments || env2Name !in environments ==>
        r == Err(ValueError(EnvironmentsMissing))
      ensures env1Name in environments && env2Name in environments ==>
        var configs1 := environments[env1Name].configurations;
        var configs2 := environments[env2Name].configurations;
        && (configName !in configs1 || configName !in configs2 ==>
              r == Err(ValueError(ConfigurationMissing)))
        && (configName in configs1 && configName in configs2 ==>
              r == Ok(Comparison(env1Name, configs1[configName], env2Name, configs2[configName],
                                 Differences(configs1[configName], configs2[configName]))))
    {
      if env1Name !in environments || env2Name !in environments {
        return Err(ValueError(EnvironmentsMissing));
      }
      var env1 := environments[env1Name];
      var env2 := environments[env2Name];
      if configName !in env1.configurations || configName !in env2.configurations {
        return Err(ValueError(ConfigurationMissing));
      }
      var config1 := env1.configurations[configName];
      var config2 := env2.configurations[configName];
      var differences := FindDifferences(config1, config2);
      r := Ok(Comparison(env1Name, config1, env2Name, config2, differences));
    }

    /**
      One pass of the outer loop of `import_configurations`: creates the
      environment when it is missing, then sends each of its configurations
      through the duplicate guard. Nothing else changes. Reports whether the
      environment was created and which names the guard refused. The ghost
      `existing` names what the environment holds beforehand (nothing, when
      it is missing).
    */
    method ImportEnvironment(envName: string, configs: Configurations, ghost existing: Configurations)
      returns (created: bool, skipped: set<string>)
      requires Valid()
      requires if envName in environments then environments[envName].configurations == existing else existing == map[]
      modifies this, Repr
      ensures Valid() && fresh(Repr - old(Repr))
      ensures forall n :: n in old(environments) ==> n in environments && environments[n] == old(environments[n])
      ensures envName in environments && (envName !in old(environments) ==> fresh(environments[envName]))
      ensures Export() == old(Export())[envName := AddAbsent(existing, configs)]
      ensures created == (envName !in old(environments))
      ensures forall c :: c in skipped <==> c in configs && c in existing
    {
      created := envName !in environments;
      if created {
        var _ := AddEnvironment(envName);
      }
      var env := environments[envName];
      var todo := configs.Keys;
      ghost var added: set<string> := {};
      skipped := {};
      while todo != {}
        invariant todo !! added && todo + added == configs.Keys
        invariant forall c :: c in skipped <==> c in added && c in existing
        invariant forall c :: c in env.configurations <==> c in existing || c in added
        invariant forall c :: c in env.configurations ==>
          env.configurations[c] == if c in existing then existing[c] else configs[c]
        modifies env
        decreases todo
      {
        var configName :| configName in todo;
        var outcome := env.AddConfiguration(configName, configs[configName]);
        if outcome == AlreadyExists {
          skipped := skipped + {configName};
        }
        todo := todo - {configName};
        added := added + {configName};
      }
      AddAbsentFromPoints(existing, configs, env.configurations);
      ExportFromPoints(old(Export())[envName := AddAbsent(existing, configs)]);
    }

    /**
      `import_configurations` without the file: imports each environment of
      the data in turn. Existing environments are kept, never replaced.
      Reports the environments it created and, per environment of the data,
      the configuration names refused as already existing.
    */
    method ImportConfigurations(data: Snapshot) returns (created: set<string>, skipped: map<string, set<string>>)
      requires Valid()
      modifies this, Repr
      ensures Valid() && fresh(Repr - old(Repr))
      ensures forall n :: n in old(environments) ==> n in environments && environments[n] == old(environments[n])
      ensures forall n :: n in environments && n !in old(environments) ==> fresh(environments[n])
      ensures Export() == Import(old(Export()), data)
      ensures created == data.Keys - old(environments).Keys
      ensures skipped == Skipped(old(Export()), data)
    {
      ghost var start := Export();
      ghost var before := environments;
      ghost var done: set<string> := {};
      var pending := data.Keys;
      created := {};
      skipped := map[];
      while pending != {}
        invariant pending !! done && pending + done == data.Keys
        invariant Valid()
        invariant forall n :: n in environments && n !in before ==> fresh(environments[n])
        invariant forall n :: n in before ==> n in environments && environments[n] == before[n]
        invariant Export() == PartialImport(start, data, done)
        invariant ReportedSoFar(start, data, done, created, skipped)
        decreases pending
      {
        var envName :| envName in pending;
        ghost var existing: Configurations := map[];
        if envName in start {
          existing := start[envName];
        } else {
          AddAbsentIntoEmpty(data[envName]);
        }
        PartialImportStep(start, data, done, envName);
        var isNew, refused := ImportEnvironment(envName, data[envName], existing);
        ReportedSoFarStep(start, data, done, created, skipped, envName, isNew, refused);
        if isNew {
          created := created + {envName};
        }
        skipped := skipped[envName := refused];
        pending := pending - {envName};
        done := done + {envName};
      }
      PartialImportAll(start, data);
      ReportedSoFarAll(start, data, created, skipped);
    }
  }
}
