/**
  The in-memory side of export and import: the nested map
  `{environment: {configuration: value}}` and what importing one into a
  manager's current state does to that state.
*/
module Snapshots {
  import opened Json

  type Configurations = map<string, ConfigValue>
  type Snapshot = map<string, Configurations>

  /**
    What a sequence of guarded `add_configuration` calls leaves behind: every
    name of `existing` keeps its value, and the names only `incoming` has are
    added with their incoming value. Order does not matter because the
    names of `incoming` are distinct.
  */
  function AddAbsent(existing: Configurations, incoming: Configurations): Configurations {
    map c | c in existing.Keys + incoming.Keys :: if c in existing then existing[c] else incoming[c]
  }

  /**
    What importing `data` leaves under environment name `e`: an environment
    only the state has is untouched, one only the data has arrives whole,
    and one both have gets the data's missing configurations added.
  */
  function ImportedEnvironment(state: Snapshot, data: Snapshot, e: string): Configurations
    requires e in state || e in data
  {
    if e !in data then state[e]
    else if e in state then AddAbsent(state[e], data[e])
    else data[e]
  }

  /** The manager state after importing `data` into a manager whose export is `state`. */
  function Import(state: Snapshot, data: Snapshot): Snapshot {
    map e | e in state.Keys + data.Keys :: ImportedEnvironment(state, data, e)
  }

  /**
    The configuration names of environment `e` that importing `data` skips
    with "already exists": the ones the environment had before.
  */
  function SkippedIn(state: Snapshot, data: Snapshot, e: string): set<string>
    requires e in data
  {
    if e in state then data[e].Keys * state[e].Keys else {}
  }

  /** For every environment of the data, the configuration names import skips. */
  function Skipped(state: Snapshot, data: Snapshot): map<string, set<string>> {
    map e | e in data :: SkippedIn(state, data, e)
  }

  /** The state after importing the environments `done` of `data`, one at a time. */
  function PartialImport(state: Snapshot, data: Snapshot, done: set<string>): Snapshot
    requires done <= data.Keys
  {
    map e | e in state.Keys + done :: if e in done then ImportedEnvironment(state, data, e) else state[e]
  }

  /** Importing one more environment updates exactly its own entry. */
  lemma PartialImportStep(state: Snapshot, data: Snapshot, done: set<string>, e: string)
    requires done <= data.Keys && e in data && e !in done
    ensures PartialImport(state, data, done + {e}) ==
      PartialImport(state, data, done)[e := ImportedEnvironment(state, data, e)]
  {
    assert PartialImport(state, data, done + {e}).Keys ==
      PartialImport(state, data, done)[e := ImportedEnvironment(state, data, e)].Keys;
  }

  /** Once every environment of the data is done, the state is `Import`. */
  lemma PartialImportAll(state: Snapshot, data: Snapshot)
    ensures PartialImport(state, data, data.Keys) == Import(state, data)
  {
  }

  /**
    What importing the environments `done` of `data` into `state` has
    reported so far: `created` holds the ones that were missing, and
    `skipped` lists for each of them the names refused as already existing.
  */
  ghost predicate ReportedSoFar(state: Snapshot, data: Snapshot, done: set<string>,
                                created: set<string>, skipped: map<string, set<string>>) {
    && (forall e :: e in created <==> e in done && e !in state)
    && (forall e :: e in skipped <==> e in done)
    && (forall e, c :: e in skipped ==>
          (c in skipped[e] <==> e in data && c in data[e] && e in state && c in state[e]))
  }

  /** Recording the reports of one more environment keeps `ReportedSoFar`. */
  lemma ReportedSoFarStep(state: Snapshot, data: Snapshot, done: set<string>,
                          created: set<string>, skipped: map<string, set<string>>,
                          e: string, isNew: bool, refused: set<string>)
    requires ReportedSoFar(state, data, done, created, skipped)
    requires e in data && isNew == (e !in state)
    requires forall c :: c in refused <==> c in data[e] && e in state && c in state[e]
    ensures ReportedSoFar(state, data, done + {e}, if isNew then created + {e} else created, skipped[e := refused])
  {
  }

  /** Once every environment of the data is done, the reports are complete. */
  lemma ReportedSoFarAll(state: Snapshot, data: Snapshot, created: set<string>, skipped: map<string, set<string>>)
    requires ReportedSoFar(state, data, data.Keys, created, skipped)
    ensures created == data.Keys - state.Keys
    ensures skipped == Skipped(state, data)
  {
    forall e | e in skipped ensures skipped[e] == SkippedIn(state, data, e) {
      assert skipped[e] == SkippedIn(state, data, e);
    }
    assert skipped.Keys == Skipped(state, data).Keys;
  }

  /** `AddAbsent` is determined by the keys it has and the value each one keeps. */
  lemma AddAbsentFromPoints(existing: Configurations, incoming: Configurations, result: Configurations)
    requires forall c :: c in result <==> c in existing || c in incoming
    requires forall c :: c in result ==> result[c] == if c in existing then existing[c] else incoming[c]
    ensures result == AddAbsent(existing, incoming)
  {
  }

  /** Adding to an environment that was just created gives exactly the incoming values. */
  lemma AddAbsentIntoEmpty(incoming: Configurations)
    ensures AddAbsent(map[], incoming) == incoming
  {
  }

  /** Import creates every environment named in the data and removes none. */
  lemma ImportKeys(state: Snapshot, data: Snapshot)
    ensures Import(state, data).Keys == state.Keys + data.Keys
  {
  }

  /** Import is additive only: no configuration that already exists changes. */
  lemma ImportKeepsExisting(state: Snapshot, data: Snapshot, e: string, c: string)
    requires e in state && c in state[e]
    ensures e in Import(state, data) && c in Import(state, data)[e]
    ensures Import(state, data)[e][c] == state[e][c]
  {
  }

  /** A configuration the data has and the state lacks arrives with the data's value. */
  lemma ImportAddsMissing(state: Snapshot, data: Snapshot, e: string, c: string)
    requires e in data && c in data[e]
    requires e !in state || c !in state[e]
    ensures e in Import(state, data) && c in Import(state, data)[e]
    ensures Import(state, data)[e][c] == data[e][c]
  {
  }

  /** No configuration appears that neither side had. */
  lemma ImportAddsNothingElse(state: Snapshot, data: Snapshot, e: string, c: string)
    requires e in Import(state, data) && c in Import(state, data)[e]
    ensures (e in state && c in state[e]) || (e in data && c in data[e])
  {
  }

  /** Adding a dict's own entries to it changes nothing. */
  lemma AddAbsentOfSelf(configs: Configurations)
    ensures AddAbsent(configs, configs) == configs
  {
  }

  /** Importing a manager's export into a fresh manager reproduces it exactly. */
  lemma ImportIntoEmpty(data: Snapshot)
    ensures Import(map[], data) == data
  {
  }

  /** Importing a manager's own export back into it changes nothing. */
  lemma {:induction false} ImportOwnExport(state: Snapshot)
    ensures Import(state, state) == state
  {
    forall e | e in state ensures Import(state, state)[e] == state[e] {
      AddAbsentOfSelf(state[e]);
    }
    assert Import(state, state).Keys == state.Keys;
  }

  /** Adding names the environment already has changes nothing. */
  lemma AddAbsentAbsorbs(existing: Configurations, incoming: Configurations)
    requires incoming.Keys <= existing.Keys
    ensures AddAbsent(existing, incoming) == existing
  {
  }

  /** Importing the same data twice is the same as importing it once. */
  lemma {:induction false} ImportTwice(state: Snapshot, data: Snapshot)
    ensures Import(Import(state, data), data) == Import(state, data)
  {
    var once := Import(state, data);
    forall e | e in once ensures Import(once, data)[e] == once[e] {
      if e in data {
        assert data[e].Keys <= once[e].Keys;
        AddAbsentAbsorbs(once[e], data[e]);
      }
    }
    assert Import(once, data).Keys == once.Keys;
  }

  /**
    A skipped configuration is one the data offers and import declines: the
    old value stays, whatever the data holds.
  */
  lemma SkippedKeepsOld(state: Snapshot, data: Snapshot, e: string, c: string)
    requires e in data && c in Skipped(state, data)[e]
    ensures c in data[e] && e in state && c in state[e]
    ensures e in Import(state, data) && c in Import(state, data)[e]
    ensures Import(state, data)[e][c] == state[e][c]
  {
  }

  /** Every configuration of the data that is not skipped arrives with the data's value. */
  lemma NotSkippedArrives(state: Snapshot, data: Snapshot, e: string, c: string)
    requires e in data && c in data[e] && c !in Skipped(state, data)[e]
    ensures e in Import(state, data) && c in Import(state, data)[e]
    ensures Import(state, data)[e][c] == data[e][c]
  {
  }

  /** Importing into a new manager skips nothing. */
  lemma SkippedIntoEmpty(data: Snapshot)
    ensures forall e :: e in data ==> Skipped(map[], data)[e] == {}
  {
  }

  /** Importing a manager's own export skips every configuration it offers. */
  lemma SkippedOwnExport(state: Snapshot)
    ensures Skipped(state, state).Keys == state.Keys
    ensures forall e :: e in state ==> Skipped(state, state)[e] == state[e].Keys
  {
  }
}
