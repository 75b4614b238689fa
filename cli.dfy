/** The command decisions of `ecsctl/cli.py`: which commands refuse to run, what they
    persist, and how the aggregator's rows are shaped into table columns. */
module Cli {
  import opened Wrappers
  import opened Lists
  import opened Text
  import opened Aws
  import opened EcsController
  import opened Config
  import opened Utils

  /** How a command ends: its exit status and the lines it echoed to stdout and stderr. */
  datatype Exit = Exit(code: int, out: seq<string>, err: seq<string>)

  const NoClusterSelected := "Error: No cluster selected. Use 'ecsctl use-cluster' first."

  /** `click.echo(f"Error: {str(e)}", err=True)` for an ECSCommandError. */
  function ErrorLine(e: Error): string
  {
    "Error: " + e.message
  }

  /** Failing with an ECSCommandError: status 1 and its message on stderr. */
  function Failed(e: Error): Exit
  {
    Exit(1, [], [ErrorLine(e)])
  }

  /** `if not current_cluster:` fails for `None` and for the empty name. */
  predicate HasContext(current: Value)
  {
    current.Str? && current.s != ""
  }

  /** The cluster names `use-cluster` and `get-clusters` see: the controller's listing,
      or the error of setting up the controller or of listing. */
  function ControllerClusters(clients: Result<Controller, string>): Result<seq<string>, Error>
  {
    match Initialize(clients)
    case Err(e) => Err(e)
    case Ok(ecs) => GetClusters(ecs.aws)
  }

  // ------------------------------------------------------------- use-cluster

  function NotFoundLine(clusterName: string): string
  {
    "Error: Cluster '" + clusterName + "' not found. Available clusters:"
  }

  /** The `  - <name>` lines listing the available clusters. */
  function AvailableLines(clusters: seq<string>): (lines: seq<string>)
    ensures |lines| == |clusters|
    ensures forall k :: 0 <= k < |clusters| ==> lines[k] == "  - " + clusters[k]
  {
    seq(|clusters|, k requires 0 <= k < |clusters| => "  - " + clusters[k])
  }

  /** The loop echoing each available cluster. */
  method EchoAvailable(clusters: seq<string>) returns (out: seq<string>)
    ensures out == AvailableLines(clusters)
  {
    out := [];
    for k := 0 to |clusters|
      invariant |out| == k
      invariant forall j :: 0 <= j < k ==> out[j] == "  - " + clusters[j]
    {
      out := out + ["  - " + clusters[k]];
    }
  }

  /** `use-cluster`: the name is stored only when it is one of the listed clusters;
      otherwise the command fails and the stored configuration is left as it was. */
  method UseCluster(clients: Result<Controller, string>, config: ClusterConfig, clusterName: string)
    returns (exit: Exit)
    requires config.Valid()
    modifies config
    ensures config.Valid()
    ensures ControllerClusters(clients).Err? ==>
      exit == Failed(ControllerClusters(clients).error) && config.file == old(config.file)
    ensures ControllerClusters(clients).Ok? && clusterName !in ControllerClusters(clients).value ==>
      && exit == Exit(1, AvailableLines(ControllerClusters(clients).value), [NotFoundLine(clusterName)])
      && config.file == old(config.file)
    ensures ControllerClusters(clients).Ok? && clusterName in ControllerClusters(clients).value ==>
      && exit == Exit(0, ["Switched to cluster '" + clusterName + "'"], [])
      && config.file == Some(WithCurrent(old(config.file).value, clusterName))
  {
    var ecs := Initialize(clients);
    if ecs.Err? {
      return Failed(ecs.error);
    }
    var clusters := GetClusters(ecs.value.aws);
    assert clusters == ControllerClusters(clients);
    if clusters.Err? {
      return Failed(clusters.error);
    }
    if clusterName !in clusters.value {
      var out := EchoAvailable(clusters.value);
      return Exit(1, out, [NotFoundLine(clusterName)]);
    }
    config.SetCurrentCluster(clusterName);
    return Exit(0, ["Switched to cluster '" + clusterName + "'"], []);
  }

  // ------------------------------------------------------------ get-clusters

  /** A row of the `get-clusters` table. */
  datatype ClusterRow = ClusterRow(name: string, current: string)

  const CurrentMarker := "*"

  /** The `get-clusters` rows: every listed cluster, in order, marked `*` when it is the
      stored cluster and left blank otherwise. */
  function ClusterTable(clusters: seq<string>, current: Value): (rows: seq<ClusterRow>)
    ensures |rows| == |clusters|
    ensures forall k :: 0 <= k < |rows| ==> rows[k].name == clusters[k]
    ensures forall k :: 0 <= k < |rows| ==>
      (rows[k].current == CurrentMarker <==> current == Str(clusters[k]))
    ensures forall k :: 0 <= k < |rows| ==> rows[k].current != CurrentMarker ==> rows[k].current == ""
  {
    seq(|clusters|, k requires 0 <= k < |clusters| =>
      ClusterRow(clusters[k], if current == Str(clusters[k]) then CurrentMarker else ""))
  }

  /** Among distinct cluster names at most one row is marked, and one is marked exactly
      when the stored cluster is among them. */
  lemma ClusterTableOneCurrent(clusters: seq<string>, current: Value)
    requires NoDup(clusters)
    ensures var rows := ClusterTable(clusters, current);
      && (forall i, j ::
            0 <= i < |rows| && 0 <= j < |rows| && rows[i].current == CurrentMarker && rows[j].current == CurrentMarker
            ==> i == j)
      && ((exists k :: 0 <= k < |rows| && rows[k].current == CurrentMarker) <==>
            current.Str? && current.s in clusters)
  {
    var rows := ClusterTable(clusters, current);
    if current.Str? && current.s in clusters {
      var k :| 0 <= k < |clusters| && clusters[k] == current.s;
      assert rows[k].current == CurrentMarker;
    }
  }

  /** The loop adding one table row per cluster. */
  method MarkCurrent(clusters: seq<string>, current: Value) returns (rows: seq<ClusterRow>)
    ensures rows == ClusterTable(clusters, current)
  {
    rows := [];
    for k := 0 to |clusters|
      invariant |rows| == k
      invariant forall j :: 0 <= j < k ==>
        rows[j] == ClusterRow(clusters[j], if current == Str(clusters[j]) then CurrentMarker else "")
    {
      var cluster := clusters[k];
      rows := rows + [ClusterRow(cluster, if current == Str(cluster) then CurrentMarker else "")];
    }
  }

  /** `get-clusters`: the listed clusters with the stored one marked. */
  method GetClustersCommand(clients: Result<Controller, string>, config: ClusterConfig)
    returns (exit: Exit, rows: seq<ClusterRow>)
    requires config.Valid()
    ensures ControllerClusters(clients).Err? ==> exit == Failed(ControllerClusters(clients).error) && rows == []
    ensures ControllerClusters(clients).Ok? ==>
      exit == Exit(0, [], []) && rows == ClusterTable(ControllerClusters(clients).value, Lookup(config.file.value))
  {
    var ecs := Initialize(clients);
    if ecs.Err? {
      return Failed(ecs.error), [];
    }
    var clusters := GetClusters(ecs.value.aws);
    assert clusters == ControllerClusters(clients);
    if clusters.Err? {
      return Failed(clusters.error), [];
    }
    var current := config.GetCurrentCluster();
    rows := MarkCurrent(clusters.value, current);
    return Exit(0, [], []), rows;
  }

  // ----------------------------------------------------------------- get ec2

  /** `get ec2`: refuses to run without a stored cluster; otherwise the cluster's rows. */
  method GetEc2Command(clients: Result<Controller, string>, config: ClusterConfig)
    returns (exit: Exit, rows: seq<Ec2Row>, calls: seq<Call>)
    requires config.Valid()
    ensures Initialize(clients).Err? ==> exit == Failed(Initialize(clients).error) && calls == []
    ensures Initialize(clients).Ok? && !HasContext(Lookup(config.file.value)) ==>
      exit == Exit(1, [], [NoClusterSelected]) && calls == []
    ensures Initialize(clients).Ok? && HasContext(Lookup(config.file.value)) ==>
      var cluster := Lookup(config.file.value).s;
      var instances := Ec2RowsOf(Initialize(clients).value.aws, cluster);
      && |calls| >= 1 && calls[0] == ListContainerInstances(cluster)
      && (instances.Ok? ==> exit == Exit(0, [], []) && rows == instances.value)
      && (instances.Err? ==> exit == Failed(CommandError(Ec2Failed + instances.error)) && rows == [])
    ensures exit.code == 0 <==> exit.err == []
    ensures exit.code != 0 ==> rows == []
  {
    var ecs := Initialize(clients);
    if ecs.Err? {
      return Failed(ecs.error), [], [];
    }
    var currentCluster := config.GetCurrentCluster();
    if !HasContext(currentCluster) {
      return Exit(1, [], [NoClusterSelected]), [], [];
    }
    var instances;
    instances, calls := GetEc2Instances(ecs.value.aws, currentCluster.s);
    if instances.Err? {
      return Failed(instances.error), [], calls;
    }
    return Exit(0, [], []), instances.value, calls;
  }

  // ------------------------------------------------------------ get services

  /** The `EC2 Instances` column: `-` for no ids, else the comma-separated ids, each
      stripped of white space, one per line. */
  function Ec2Column(ec2Instances: string): (column: string)
    ensures ec2Instances == "" ==> column == "-"
  {
    if ec2Instances == "" then "-"
    else
      Join(StripAll(Split(ec2Instances, ',')), "\n")
  }

  /** What an id must be for the column to give it back: non-empty, free of `,` and of
      line breaks, with no white space around it. */
  predicate PlainId(id: string)
  {
    id != "" && ',' !in id && '\n' !in id && Strip(id) == id
  }

  /** The column of ids joined by the aggregator is `-` for none, and otherwise the ids
      themselves, one per line. */
  lemma Ec2ColumnOfIds(ids: seq<string>)
    requires forall k :: 0 <= k < |ids| ==> PlainId(ids[k])
    ensures ids == [] ==> Ec2Column(Join(ids, ", ")) == "-"
    ensures ids != [] ==> Ec2Column(Join(ids, ", ")) == Join(ids, "\n")
  {
    if ids != [] {
      JoinStartsWith(ids, ", ");
      assert ", " == [','] + " ";
      SplitJoinPadded(ids, ',', " ");
      StripPieces(ids, Split(Join(ids, ", "), ','));
    }
  }

  /** Stripping the pieces of ids joined by `", "` gives the ids. */
  lemma StripPieces(ids: seq<string>, parts: seq<string>)
    requires ids != []
    requires forall k :: 0 <= k < |ids| ==> Strip(ids[k]) == ids[k]
    requires parts == [ids[0]] + seq(|ids| - 1, k requires 0 <= k < |ids| - 1 => " " + ids[k + 1])
    ensures StripAll(parts) == ids
  {
    var stripped := StripAll(parts);
    assert |stripped| == |ids|;
    forall k | 0 <= k < |ids|
      ensures stripped[k] == ids[k]
    {
      StripPiece(ids, parts, k);
    }
  }

  lemma StripPiece(ids: seq<string>, parts: seq<string>, k: nat)
    requires 0 <= k < |ids|
    requires Strip(ids[k]) == ids[k]
    requires parts == [ids[0]] + seq(|ids| - 1, k requires 0 <= k < |ids| - 1 => " " + ids[k + 1])
    ensures Strip(parts[k]) == ids[k]
  {
    if k > 0 {
      assert parts[k] == " " + ids[k];
      StripAfterSpace(ids[k]);
    }
  }

  /** Lines joined by line breaks split back into the lines. */
  lemma LinesOfJoin(ids: seq<string>)
    requires ids != []
    requires forall k :: 0 <= k < |ids| ==> '\n' !in ids[k]
    ensures Split(Join(ids, "\n"), '\n') == ids
  {
    assert "\n" == ['\n'] + [];
    SplitJoinPadded(ids, '\n', []);
    var lines := Split(Join(ids, "\n"), '\n');
    forall k | 0 <= k < |ids|
      ensures lines[k] == ids[k]
    {
      if k > 0 {
        assert [] + ids[k] == ids[k];
      }
    }
  }

  /** A non-empty list of parts joins into a string that begins with the first part. */
  lemma JoinStartsWith(parts: seq<string>, sep: string)
    requires parts != []
    ensures |Join(parts, sep)| >= |parts[0]| && Join(parts, sep)[..|parts[0]|] == parts[0]
  {
    if |parts| > 1 {
      assert Join(parts, sep) == parts[0] + (sep + Join(parts[1..], sep));
    }
  }

  /** A row of the `get services` table. */
  datatype ServiceLine = ServiceLine(
    name: string, status: string, taskDefinition: string,
    desired: int, running: int, pending: int, ec2Instances: string)

  /** The shaping of a service row: the task definition by its last ARN segment, and the
      EC2 column. */
  function ServiceLineOf(row: ServiceRow): (line: ServiceLine)
    ensures '/' !in line.taskDefinition
    ensures line.name == row.serviceName && line.status == row.status
    ensures line.desired == row.desiredCount && line.running == row.runningCount && line.pending == row.pendingCount
  {
    ServiceLine(row.serviceName, row.status, LastSegment(row.taskDefinition, '/'),
                row.desiredCount, row.runningCount, row.pendingCount, Ec2Column(row.ec2Instances))
  }

  /** The table line of a service on hosts `ids`: the task definition named by its
      `family:revision` segment, and `-` or the ids one per line. */
  lemma ServiceLineOfRow(s: Service, ids: seq<string>, prefix: string, family: string)
    requires forall k :: 0 <= k < |ids| ==> PlainId(ids[k])
    requires '/' !in family && s.taskDefinition == prefix + "/" + family
    ensures ServiceLineOf(ServiceRowOf(s, ids)).taskDefinition == family
    ensures ids == [] ==> ServiceLineOf(ServiceRowOf(s, ids)).ec2Instances == "-"
    ensures ids != [] ==> Split(ServiceLineOf(ServiceRowOf(s, ids)).ec2Instances, '\n') == ids
  {
    Ec2ColumnOfIds(ids);
    if ids != [] {
      LinesOfJoin(ids);
    }
    assert prefix + "/" + family == prefix + ['/'] + family;
    LastSegmentAfter(prefix, '/', family);
  }

  function ServiceLines(rows: seq<ServiceRow>): (lines: seq<ServiceLine>)
    ensures |lines| == |rows|
    ensures forall k :: 0 <= k < |rows| ==> lines[k] == ServiceLineOf(rows[k])
  {
    seq(|rows|, k requires 0 <= k < |rows| => ServiceLineOf(rows[k]))
  }

  /** The loop adding one table row per service. */
  method ShapeServices(services: seq<ServiceRow>) returns (lines: seq<ServiceLine>)
    ensures lines == ServiceLines(services)
  {
    lines := [];
    for k := 0 to |services|
      invariant |lines| == k
      invariant forall j :: 0 <= j < k ==> lines[j] == ServiceLineOf(services[j])
    {
      lines := lines + [ServiceLineOf(services[k])];
    }
  }

  /** `get services`: refuses to run without a stored cluster; otherwise one shaped line
      per service row of the stored cluster. */
  method GetServicesCommand(clients: Result<Controller, string>, config: ClusterConfig)
    returns (exit: Exit, lines: seq<ServiceLine>, calls: seq<Call>)
    requires config.Valid()
    ensures Initialize(clients).Err? ==> exit == Failed(Initialize(clients).error) && calls == []
    ensures Initialize(clients).Ok? && !HasContext(Lookup(config.file.value)) ==>
      exit == Exit(1, [], [NoClusterSelected]) && calls == []
    ensures Initialize(clients).Ok? && HasContext(Lookup(config.file.value)) ==>
      var cluster := Lookup(config.file.value).s;
      var services := ServicesOf(Initialize(clients).value.aws, cluster);
      && |calls| >= 1 && calls[0] == ListServices(cluster)
      && (services.Ok? ==> exit == Exit(0, [], []) && lines == ServiceLines(services.value))
      && (services.Err? ==> exit == Failed(CommandError(ServicesFailed + services.error)) && lines == [])
  {
    var ecs := Initialize(clients);
    if ecs.Err? {
      return Failed(ecs.error), [], [];
    }
    var currentCluster := config.GetCurrentCluster();
    if !HasContext(currentCluster) {
      return Exit(1, [], [NoClusterSelected]), [], [];
    }
    var services;
    services, calls := GetServices(ecs.value.aws, currentCluster.s);
    if services.Err? {
      return Failed(services.error), [], calls;
    }
    lines := ShapeServices(services.value);
    return Exit(0, [], []), lines, calls;
  }

  // -------------------------------------------------------------------- exec

  /** The arguments that make the session run `bash`. */
  const BashArguments := ["--document-name", "AWS-StartInteractiveCommand", "--parameters", "command=bash"]

  /** `if ecs.aws_client.profile_name:`: a profile that is set and not empty. */
  predicate HasProfile(profile: Option<string>)
  {
    profile.Some? && profile.value != ""
  }

  /** The `aws ssm start-session` argument list: the target, then `--profile` only for a
      profile, `--region` always, and the bash arguments only when bash was found. */
  function SessionCommand(instanceId: string, profile: Option<string>, region: string, bashFound: bool)
    : (cmd: seq<string>)
    ensures var p := if HasProfile(profile) then 2 else 0;
      && |cmd| == 7 + p + (if bashFound then |BashArguments| else 0)
      && cmd[..5] == ["aws", "ssm", "start-session", "--target", instanceId]
      && (HasProfile(profile) ==> cmd[5..7] == ["--profile", profile.value])
      && cmd[5 + p..7 + p] == ["--region", region]
      && (bashFound ==> cmd[7 + p..] == BashArguments)
  {
    ["aws", "ssm", "start-session", "--target", instanceId]
    + (if HasProfile(profile) then ["--profile", profile.value] else [])
    + ["--region", region]
    + (if bashFound then BashArguments else [])
  }

  /** Builds the session command by successive `extend`s. */
  method StartSessionCommand(instanceId: string, profile: Option<string>, region: string, bashFound: bool)
    returns (cmd: seq<string>)
    ensures cmd == SessionCommand(instanceId, profile, region, bashFound)
  {
    cmd := ["aws", "ssm", "start-session", "--target", instanceId];
    if HasProfile(profile) {
      cmd := cmd + ["--profile", profile.value];
    }
    cmd := cmd + ["--region", region];
    if bashFound {
      cmd := cmd + BashArguments;
    }
  }

  function StartingLine(instanceId: string): string
  {
    "Starting session with instance '" + instanceId + "'..."
  }

  function InstanceNotFoundLine(instanceId: string, cluster: string): string
  {
    "Error: Instance '" + instanceId + "' not found in cluster '" + cluster + "'"
  }

  function SsmUnavailableLine(instanceId: string): string
  {
    "Error: SSM is not available on instance '" + instanceId + "'"
  }

  /** `exec`: the session is launched exactly for a stored cluster holding the instance
      whose SSM agent is online; it runs with the terminal signals ignored, and every signal
      disposition is the same afterwards as before, on every path. An exception of the
      session process is not an ECSCommandError: it escapes the command, which then fails. */
  method ExecInstance(clients: Result<Controller, string>, config: ClusterConfig, instanceId: string,
                      bashFound: bool, table: SignalTable, session: Outcome)
    returns (exit: Exit, launched: Option<seq<string>>, outcome: Outcome, calls: seq<Call>)
    requires config.Valid()
    modifies table
    ensures forall sig :: table.Current(sig) == old(table.Current(sig))
    ensures launched.Some? <==>
      && Initialize(clients).Ok?
      && HasContext(Lookup(config.file.value))
      && Ec2RowsOf(Initialize(clients).value.aws, Lookup(config.file.value).s).Ok?
      && InCluster(Initialize(clients).value.aws, Lookup(config.file.value).s, instanceId)
      && CheckSsmStatus(Initialize(clients).value.aws, instanceId)
    ensures Initialize(clients).Err? ==> exit == Failed(Initialize(clients).error) && calls == []
    ensures Initialize(clients).Ok? && !HasContext(Lookup(config.file.value)) ==>
      exit == Exit(1, [], [NoClusterSelected]) && calls == []
    ensures Initialize(clients).Ok? && HasContext(Lookup(config.file.value)) ==>
      var ecs := Initialize(clients).value;
      var cluster := Lookup(config.file.value).s;
      var rows := Ec2RowsOf(ecs.aws, cluster);
      && |calls| >= 1 && calls[0] == ListContainerInstances(cluster)
      && (rows.Err? ==> exit == Failed(CommandError(DetailsFailed + Ec2Failed + rows.error)))
      && (rows.Ok? && !InCluster(ecs.aws, cluster, instanceId) ==>
            exit == Exit(1, [], [InstanceNotFoundLine(instanceId, cluster)]))
      && (rows.Ok? && InCluster(ecs.aws, cluster, instanceId) ==>
            calls[|calls| - 1] == DescribeInstanceInformation([instanceId]))
      && (rows.Ok? && InCluster(ecs.aws, cluster, instanceId) && !CheckSsmStatus(ecs.aws, instanceId) ==>
            exit == Exit(1, [], [SsmUnavailableLine(instanceId)]))
    ensures launched.Some? ==>
      var ecs := Initialize(clients).value;
      && launched.value == SessionCommand(instanceId, ecs.profileName, ecs.region, bashFound)
      && outcome == session
      && (session == Completed ==> exit == Exit(0, [StartingLine(instanceId)], []))
      && (session.Raised? ==> exit == Exit(1, [StartingLine(instanceId)], [session.exception]))
    ensures launched.None? ==> outcome == Completed && exit.code == 1
  {
    launched := None;
    outcome := Completed;
    calls := [];
    var ecs := Initialize(clients);
    if ecs.Err? {
      return Failed(ecs.error), launched, outcome, calls;
    }
    var currentCluster := config.GetCurrentCluster();
    if !HasContext(currentCluster) {
      return Exit(1, [], [NoClusterSelected]), launched, outcome, calls;
    }
    var instance;
    instance, calls := GetInstanceDetails(ecs.value.aws, currentCluster.s, instanceId);
    if instance.Err? {
      return Failed(instance.error), launched, outcome, calls;
    }
    if instance.value.None? {
      return Exit(1, [], [InstanceNotFoundLine(instanceId, currentCluster.s)]), launched, outcome, calls;
    }
    calls := calls + [DescribeInstanceInformation([instanceId])];
    if !CheckSsmStatus(ecs.value.aws, instanceId) {
      return Exit(1, [], [SsmUnavailableLine(instanceId)]), launched, outcome, calls;
    }
    var cmd := StartSessionCommand(instanceId, ecs.value.profileName, ecs.value.region, bashFound);
    var saved;
    outcome, saved := IgnoreUserEnteredSignals(table, session);
    launched := Some(cmd);
    match outcome
    case Completed =>
      exit := Exit(0, [StartingLine(instanceId)], []);
    case Raised(exception) =>
      exit := Exit(1, [StartingLine(instanceId)], [exception]);
  }

  // ------------------------------------------------------------- get-context

  const NotSet := "Not set"

  /** `current_cluster or "Not set"`. */
  function ContextDisplay(current: Value): (shown: string)
    ensures HasContext(current) ==> shown == current.s
    ensures !HasContext(current) ==> shown == NotSet
  {
    if HasContext(current) then current.s else NotSet
  }

  /** `get-context`: the stored cluster, or "Not set" when there is none. */
  method GetContextCommand(clients: Result<Controller, string>, config: ClusterConfig)
    returns (exit: Exit, shown: string)
    requires config.Valid()
    ensures Initialize(clients).Err? ==> exit == Failed(Initialize(clients).error)
    ensures Initialize(clients).Ok? ==>
      exit == Exit(0, [], []) && shown == ContextDisplay(Lookup(config.file.value))
  {
    var ecs := Initialize(clients);
    if ecs.Err? {
      return Failed(ecs.error), "";
    }
    var currentCluster := config.GetCurrentCluster();
    shown := ContextDisplay(currentCluster);
    exit := Exit(0, [], []);
  }
}
