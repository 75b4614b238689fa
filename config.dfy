/** The persisted choice of cluster of `ecsctl/config.py`: a JSON document in the
    user's configuration file whose `current-cluster` entry names the cluster. */
module Config {
  import opened Wrappers

  /** A value of the document: JSON `null` or a string. */
  datatype Value = Null | Str(s: string)

  /** The JSON object stored in the configuration file. */
  type Document = map<string, Value>

  const CurrentClusterKey := "current-cluster"

  /** What a missing configuration file is created with: no cluster selected. */
  const InitialDocument: Document := map[CurrentClusterKey := Null]

  /** `config.get('current-cluster')`: the entry, or `None` when the document has none. */
  function Lookup(d: Document): (v: Value)
    ensures CurrentClusterKey in d ==> v == d[CurrentClusterKey]
    ensures CurrentClusterKey !in d ==> v == Null
  {
    if CurrentClusterKey in d then d[CurrentClusterKey] else Null
  }

  /** `config['current-cluster'] = name`: every other entry is kept. */
  function WithCurrent(d: Document, name: string): (d': Document)
    ensures d'.Keys == d.Keys + {CurrentClusterKey}
    ensures d'[CurrentClusterKey] == Str(name)
    ensures forall key :: key in d && key != CurrentClusterKey ==> d'[key] == d[key]
  {
    d[CurrentClusterKey := Str(name)]
  }

  /** The cluster just set is the one read back. */
  lemma LookupWithCurrent(d: Document, name: string)
    ensures Lookup(WithCurrent(d, name)) == Str(name)
  {
  }

  /** Setting twice is setting the second name. */
  lemma WithCurrentTwice(d: Document, first: string, second: string)
    ensures WithCurrent(WithCurrent(d, first), second) == WithCurrent(d, second)
  {
  }

  /** A freshly created file selects no cluster. */
  lemma LookupInitial()
    ensures Lookup(InitialDocument) == Null
  {
  }

  /** `ClusterConfig`: the configuration file, `None` while it does not exist. */
  class ClusterConfig {
    var file: Option<Document>

    /** The file exists: every `ClusterConfig` makes sure of that when it is created. */
    predicate Valid()
      reads this
    {
      file.Some?
    }

    /** `ClusterConfig()`: opens the configuration whose file holds `existing`, creating it
        when it is missing. */
    constructor (existing: Option<Document>)
      ensures Valid()
      ensures existing.Some? ==> file == existing
      ensures existing.None? ==> file == Some(InitialDocument)
    {
      file := existing;
      new;
      EnsureConfigExists();
    }

    /** `_ensure_config_exists`: writes the initial document only when there is no file. */
    method EnsureConfigExists()
      modifies this
      ensures Valid()
      ensures old(file).Some? ==> file == old(file)
      ensures old(file).None? ==> file == Some(InitialDocument)
    {
      if file.None? {
        file := Some(InitialDocument);
      }
    }

    /** `get_current_cluster`: the `current-cluster` entry of the file, `None` when absent. */
    method GetCurrentCluster() returns (v: Value)
      requires Valid()
      ensures CurrentClusterKey in file.value ==> v == file.value[CurrentClusterKey]
      ensures CurrentClusterKey !in file.value ==> v == Null
    {
      var config := file.value;
      v := Lookup(config);
    }

    /** `set_current_cluster`: rewrites the file with `name` selected and every other
        entry kept. */
    method SetCurrentCluster(name: string)
      requires Valid()
      modifies this
      ensures Valid()
      ensures file == Some(WithCurrent(old(file).value, name))
    {
      var config := file.value;
      config := config[CurrentClusterKey := Str(name)];
      file := Some(config);
    }
  }
}
