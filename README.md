# ecsctl in Dafny

ecsctl is a kubectl-style command line tool for Amazon ECS. You select a cluster with
`use-cluster`. You list the cluster's EC2 hosts and services with `get ec2` and
`get services`. You list the account's task definitions, optionally filtered by family, with
`get task-definitions`. You open an SSM shell on a host with `exec`. This project models the
deterministic layer of ecsctl in Dafny and proves properties of it. The layer has four parts:

- **The resource aggregator** (`ecsctl/ecs_controller.py`, module `EcsController`). It joins
  the answers of the ECS, EC2 and SSM list and describe calls into flat rows. This includes
  `get_clusters`, `get_ec2_instances`, `get_containers`, `get_instance_details`,
  `get_services`, `get_task_definitions` and `check_ssm_status`.
- **The command decisions** (`ecsctl/cli.py`, module `Cli`). These cover:
  - which commands refuse to run without a stored cluster;
  - when `use-cluster` persists a name;
  - the `*` marker of `get-clusters`;
  - the shaping of the `get services` columns;
  - the `aws ssm start-session` argument list;
  - the `Not set` of `get-context`.
- **The context store** (`ecsctl/config.py`, module `Config`). The class `ClusterConfig` holds
  the configuration file as an optional map: the JSON object when the file exists, `None`
  otherwise.
- **The signal guard** (`ecsctl/utils.py`, module `Utils`). It saves the dispositions of
  SIGINT, SIGQUIT and SIGTSTP, ignores those signals while a session runs, and restores them.
  The table of dispositions is the class `SignalTable`.

How the model represents the source:

- **AWS responses** are data (module `Aws`). Every API operation is a map from the request to
  its response. A request missing from the map is a call that raised.
- **Request log.** The imperative operations also return the list of requests they send. That
  is how the model states:
  - which calls are made;
  - that an empty listing makes no describe call;
  - that a command exits before it lists anything.
- **Specification functions.** The loops of `get_ec2_instances`, `get_containers` and
  `get_services` are proved against recursive specification functions:
  - `Ec2RowsFrom` for `JoinInstances`;
  - `ContainerRowsOf` for `GetContainers`;
  - `RowsFrom` for `GetServices`, and `ServiceRowsOf` for `DescribeBatch`;
  - `HostIds` for `CollectHostIds`.

  `Ec2RowsOf`, `ContainersOf` and `ServicesOf` add each operation's listing and short-cuts on
  top of these. The lemmas state the source's promises about those functions. The loop of `get_task_definitions` is proved against an element-by-element
  contract instead.
- **Python helpers.** `text.dfy` models the string helpers the program relies on:
  `split(c)[-1]`, `split`, `join` and `strip`. `lists.dfy` models the slicing into batches of
  ten.

## Model

| member | source | states |
|---|---|---|
| EcsController.Wrap | ecsctl/ecs_controller.py:63-64 | a failure becomes an ECSCommandError whose message is the operation's prefix followed by the cause; a success passes through unchanged |
| EcsController.Initialize | ecsctl/ecs_controller.py:23-32 | setting up the controller fails exactly when creating its clients fails, with the message "Failed to initialize AWS clients: " + cause |
| EcsController.GetClusters | ecsctl/ecs_controller.py:58-64 | one name per listed cluster ARN, in list order, each the text after the ARN's last '/'; a failed listing gives "Failed to get clusters: " + cause |
| EcsController.GetClustersNames | ecsctl/ecs_controller.py:61-62 | ARNs of the form `<prefix>/<name>` give exactly the names, e.g. `.../cluster/cluster1` gives `cluster1` |
| EcsController.FirstInstance | ecsctl/ecs_controller.py:81-88 | definition: `describe_instances(InstanceIds=[id])['Reservations'][0]['Instances'][0]`; a failed call gives that call's error, and an empty reservation or instance list gives IndexError's text |
| EcsController.Ec2RowOf | ecsctl/ecs_controller.py:85-91 | definition: the `instance_info` record: instance id, status and running-task count from the container instance, type and state name from its EC2 instance |
| EcsController.Ec2RowsFrom | ecsctl/ecs_controller.py:80-92 | definition: the rows the loop over the described container instances builds, or the first lookup failure; Ec2RowsJoined states it element by element |
| EcsController.Ec2RowsOf | ecsctl/ecs_controller.py:68-92 | definition: what `get_ec2_instances` computes before wrapping: the listing's error, no rows for an empty listing, the describe error, or Ec2RowsFrom of the described instances |
| EcsController.Ec2RowsJoined | ecsctl/ecs_controller.py:80-92 | the rows are one per described container instance, in response order, each joined with the first instance of its first reservation; they exist iff every EC2 lookup succeeds, and a failure is the failure of one lookup |
| EcsController.JoinInstances | ecsctl/ecs_controller.py:80-92 | the loop computes exactly the specified rows or the first failure, sending one describe_instances request per container instance |
| EcsController.GetEc2Instances | ecsctl/ecs_controller.py:66-96 | the result is the specified rows or their wrapped failure; an empty listing gives no rows and sends no describe call; otherwise there is one row per described container instance, in response order; instance id, status and running-task count come from the ECS record; type and state come from the first instance of the first reservation; the rows exist iff every EC2 lookup succeeds; each error carries its prefix |
| EcsController.FirstMatch | ecsctl/ecs_controller.py:144 | the first row whose instance id is the argument, with no earlier match; `None` iff no row matches |
| EcsController.GetInstanceDetails | ecsctl/ecs_controller.py:140-146 | when the EC2 rows exist the result is the first row with the requested id, or None; when they do not, the failure is wrapped twice ("Failed to get instance details: Failed to get EC2 instances: " + cause); on success it finds an instance iff the cluster lists a container instance on that EC2 instance; a found row has the requested id |
| EcsController.TaskRows | ecsctl/ecs_controller.py:122-134 | one row per container of a task, in order: name, last status, task id (the last ARN segment), cpu and memory or 'N/A', the host, and the creation time |
| EcsController.Placed | ecsctl/ecs_controller.py:115 | definition: `if container_instance_arn:` holds for a task whose container instance ARN is present and not empty; `get_services` uses the same test (ecs_controller.py:190) |
| EcsController.HostId | ecsctl/ecs_controller.py:116-120 | definition: `describe_container_instances(cluster, [arn])['containerInstances'][0]['ec2InstanceId']`; a failed call gives that call's error, and an empty answer gives IndexError's text |
| EcsController.HostLabel | ecsctl/ecs_controller.py:111-120 | definition: the EC2 column of a task's containers, 'N/A' for a task that is not placed, otherwise HostId of its container instance |
| EcsController.ContainerRowsOf | ecsctl/ecs_controller.py:110-134 | definition: the rows of each described task in order, or the first HostLabel failure; ContainerRowsByTask states it as a concatenation |
| EcsController.ContainersOf | ecsctl/ecs_controller.py:100-134 | definition: what `get_containers` computes before wrapping: the listing's error, no rows for an empty listing, the describe error, or ContainerRowsOf of the described tasks |
| EcsController.ContainerRowsByTask | ecsctl/ecs_controller.py:110-134 | the container rows are the rows of each task in task order; they exist iff the host of every placed task can be described; an unplaced task's host is 'N/A' |
| EcsController.GetContainers | ecsctl/ecs_controller.py:98-138 | the loop computes exactly the specified container rows or the wrapped first failure; the first request lists the cluster's tasks; an empty listing sends nothing else |
| EcsController.HostIdsSet | ecsctl/ecs_controller.py:181-195 | collecting hosts succeeds iff every placed task's container instance can be described; the result holds no duplicates and holds exactly the ids of the placed tasks' hosts |
| EcsController.AddId | ecsctl/ecs_controller.py:195 | definition: `ec2_instance_ids.add(id)` on the set kept in first-insertion order: an id already present leaves it as it is, a new one goes at the end |
| EcsController.HostIds | ecsctl/ecs_controller.py:181-195 | definition: the set the loop over a service's tasks builds, kept in first-insertion order, or the first failure; HostIdsSet states what it holds |
| EcsController.ServiceRowOf | ecsctl/ecs_controller.py:197-205 | definition: the `service_info` record, with the service's fields copied and the host ids joined by ', ' |
| EcsController.ServiceRowsOf | ecsctl/ecs_controller.py:174-206 | definition: one ServiceRowOf per service of a describe response, in order, or the first failure |
| EcsController.BatchRows | ecsctl/ecs_controller.py:169-206 | definition: describe one batch, then ServiceRowsOf its services; a failed describe gives that call's error |
| EcsController.RowsFrom | ecsctl/ecs_controller.py:167-206 | definition: the rows of the listed ARNs, described 10 at a time in consecutive batches, or the first failure |
| EcsController.ServicesOf | ecsctl/ecs_controller.py:162-206 | definition: what `get_services` computes before wrapping: the listing's error or RowsFrom of the listing |
| EcsController.ServiceTasks | ecsctl/ecs_controller.py:176-186 | definition: the per-service `list_tasks`, no tasks when it lists none, otherwise `describe_tasks` of the listed ARNs; a failed call gives that call's error |
| EcsController.ServiceHostIds | ecsctl/ecs_controller.py:176-195 | definition: the host ids of one service, HostIds over its ServiceTasks, or the first failure; ServiceHostIdsSet states what they are |
| EcsController.ServiceHostIdsSet | ecsctl/ecs_controller.py:176-204 | a service's EC2 ids are duplicate-free and exactly the hosts of its placed tasks; they are empty iff the service has no tasks or none is placed, and then the joined column is "" |
| EcsController.ServiceBatches | ecsctl/ecs_controller.py:166-172 | the batches number ceil(N/10); each holds 1 to 10 services; together they concatenate to the listed services |
| EcsController.CollectHostIds | ecsctl/ecs_controller.py:188-195 | the inner loop computes the specified id set; it only sends describe_container_instances requests |
| EcsController.DescribeBatch | ecsctl/ecs_controller.py:169-206 | one describe_services request on the batch, then the rows of its services as specified; no other describe_services request |
| EcsController.GetServices | ecsctl/ecs_controller.py:148-210 | the loop computes the specified rows or the wrapped first failure; every describe_services request names 1 to 10 services; on success the requests are exactly the consecutive slices of 10 of the listing |
| EcsController.FamilyPrefix | ecsctl/ecs_controller.py:226 | familyPrefix is passed iff a family is given and non-empty, and then it is that family |
| EcsController.GetTaskDefinitions | ecsctl/ecs_controller.py:212-252 | one row per listed ARN in list order, each from its own describe call; family, revision, status and registration time come from the definition; cpu and memory are 'N/A' when absent; the rows exist iff every ARN can be described |
| EcsController.CheckSsmStatus | ecsctl/ecs_controller.py:254-277 | true iff the inventory call succeeds, lists the instance, and its first entry's ping status is 'Online'; a failing call is false |
| Text.LastIndex | ecsctl/ecs_controller.py:62 | the index of the last occurrence of the separator (no later one), or -1 when there is none |
| Text.LastSegment | ecsctl/ecs_controller.py:62 | `split(c)[-1]` is a suffix free of c, preceded by c unless it is the whole string |
| Text.LastSegmentWhole | ecsctl/ecs_controller.py:62 | a string without the separator is its own last segment |
| Text.LastSegmentAfter | ecsctl/ecs_controller.py:62 | the last segment of `p + c + r` is r when r has no c |
| Text.Split | ecsctl/cli.py:123 | `split(c)` gives at least one piece and no piece contains c |
| Text.JoinSplit | ecsctl/cli.py:123 | joining the pieces of `split(c)` with c gives back the string |
| Text.Join | ecsctl/ecs_controller.py:204 | definition: `sep.join(parts)`, the parts with sep between consecutive ones; JoinSplit and LinesOfJoin make it the inverse of Split |
| Text.SplitJoinPadded | ecsctl/cli.py:123 | splitting parts joined by c + pad gives the first part, then each later part behind pad |
| Text.LeadingSpace | ecsctl/cli.py:123 | the leading white space ends at the returned index |
| Text.TrailingSpace | ecsctl/cli.py:123 | the trailing white space begins at the returned index |
| Text.LeadingSpaceIsSpace | ecsctl/cli.py:123 | everything `lstrip` removes is white space |
| Text.TrailingSpaceIsSpace | ecsctl/cli.py:123 | everything `rstrip` removes is white space |
| Text.StripAll | ecsctl/cli.py:123 | the stripped pieces, one per piece |
| Text.Strip | ecsctl/cli.py:123 | definition: `s.strip()`, s without the white-space runs LeadingSpace and TrailingSpace find at its ends |
| Text.StripAfterSpace | ecsctl/cli.py:123 | a space in front of an id does not change its stripped form |
| Lists.Chunks | ecsctl/ecs_controller.py:167-168 | definition: `services_list[i:i + 10]` for i in `range(0, len(services_list), 10)`, in order; ChunksBounded, ChunksConcat, ChunksCount and ChunksFull state its properties |
| Lists.ChunksBounded | ecsctl/ecs_controller.py:167-168 | every slice `services_list[i:i + 10]` holds 1 to 10 elements |
| Lists.ChunksConcat | ecsctl/ecs_controller.py:167-168 | the slices concatenate back to the list |
| Lists.ChunksCount | ecsctl/ecs_controller.py:167 | the number of slices is the least that covers the list |
| Lists.ChunksFull | ecsctl/ecs_controller.py:167-168 | every slice but the last is full |
| Config.Lookup | ecsctl/config.py:33-36 | the `current-cluster` entry, or None when the key is absent |
| Config.WithCurrent | ecsctl/config.py:38-42 | setting the cluster stores `Str(name)` under `current-cluster` and keeps every other key and value |
| Config.LookupWithCurrent | ecsctl/config.py:38-42 | the cluster just set is the one read back |
| Config.WithCurrentTwice | ecsctl/config.py:38-42 | setting twice is setting the second name |
| Config.LookupInitial | ecsctl/config.py:21 | a freshly created file selects no cluster |
| Config.ClusterConfig.constructor | ecsctl/config.py:11-15 | an existing file is kept; a missing one is created with `current-cluster: null` |
| Config.ClusterConfig.EnsureConfigExists | ecsctl/config.py:17-21 | the initial document is written only when there is no file |
| Config.ClusterConfig.GetCurrentCluster | ecsctl/config.py:33-36 | returns the stored entry, or None when the key is absent, and changes nothing |
| Config.ClusterConfig.SetCurrentCluster | ecsctl/config.py:38-42 | the file becomes the old document with `current-cluster` set to the name |
| Utils.DispositionOf | ecsctl/utils.py:30 | a signal's disposition, the default for a signal never set |
| Utils.SignalTable.Install | ecsctl/utils.py:30 | `signal.signal` returns the previous disposition and changes only that signal's entry |
| Utils.IgnoreSignals | ecsctl/utils.py:25-30 | afterwards SIGINT, SIGQUIT and SIGTSTP are ignored and every other signal keeps its disposition; the saved list has one entry per signal, in the order of the signal list, holding what each signal had before |
| Utils.RunIgnoringUserSignals | ecsctl/utils.py:31-32 | the guarded block may run only while every user signal is ignored (its precondition); its outcome is the block's |
| Utils.RestoreSignals | ecsctl/utils.py:33-36 | each user signal gets back its saved disposition, and no other signal is touched |
| Utils.IgnoreUserEnteredSignals | ecsctl/utils.py:10-36 | its body runs the block through RunIgnoringUserSignals after IgnoreSignals; its contract states the saved list, aligned with the signal list, that every disposition is restored whatever the block's outcome, and that the outcome passes through |
| Cli.Failed | ecsctl/cli.py:33-35 | definition: the `except ECSCommandError` handler of every command: exit status 1, nothing on stdout, and "Error: " + the message on stderr |
| Cli.HasContext | ecsctl/cli.py:182 | definition: `if not current_cluster` fails for None and for the empty name; the same guard opens get ec2 (cli.py:72) and get services (cli.py:106) |
| Cli.ControllerClusters | ecsctl/cli.py:22-23 | definition: the controller's cluster listing, or the error of setting up the controller or of listing, as use-cluster and get-clusters (cli.py:41-42) obtain it |
| Cli.AvailableLines | ecsctl/cli.py:27-28 | one `  - <name>` line per listed cluster, in order |
| Cli.EchoAvailable | ecsctl/cli.py:27-28 | the echo loop prints exactly those lines |
| Cli.UseCluster | ecsctl/cli.py:17-35 | the name is persisted (exit 0) iff it is among the listed clusters; otherwise the command exits 1 with the available clusters and the file unchanged; a controller or listing error exits 1 with that error and leaves the file unchanged |
| Cli.ClusterTable | ecsctl/cli.py:49-53 | one row per cluster in order, marked '*' iff it equals the stored cluster, otherwise '' |
| Cli.ClusterTableOneCurrent | ecsctl/cli.py:49-53 | with distinct names at most one row is marked, and a row is marked iff the stored cluster is listed |
| Cli.MarkCurrent | ecsctl/cli.py:49-53 | the row loop builds exactly that table |
| Cli.GetClustersCommand | ecsctl/cli.py:37-58 | the table of the listed clusters with the stored one marked; an error exits 1 |
| Cli.GetEc2Command | ecsctl/cli.py:65-97 | with no stored cluster (None or empty) it exits 1 with the "No cluster selected" message before any request; otherwise the first request lists the stored cluster's container instances, and it exits 0 with exactly the rows of get_ec2_instances, or exits 1 with "Error: " and the wrapped message and no rows |
| Cli.Ec2Column | ecsctl/cli.py:122-126 | an empty EC2 field shows '-' |
| Cli.Ec2ColumnOfIds | ecsctl/cli.py:122-126 | for ids joined by ", " the column is '-' when there are none, and otherwise the ids themselves, one per line (ids non-empty, with no ',', no line break, no surrounding white space) |
| Cli.LinesOfJoin | ecsctl/cli.py:123 | lines joined by line breaks split back into the lines |
| Cli.StripPieces | ecsctl/cli.py:123 | stripping the pieces of ids joined by ", " gives the ids |
| Cli.ServiceLineOf | ecsctl/cli.py:128-136 | the Task Definition column has no '/'; name, status and counts are copied |
| Cli.ServiceLineOfRow | ecsctl/cli.py:122-131 | a service row shows its task definition as the `family:revision` after the last '/', and shows '-' or exactly its host ids, one per line |
| Cli.ServiceLines | ecsctl/cli.py:121-136 | one shaped line per service, in order |
| Cli.ShapeServices | ecsctl/cli.py:121-136 | the row loop builds exactly those lines |
| Cli.GetServicesCommand | ecsctl/cli.py:99-141 | with no stored cluster it exits 1 before any request; otherwise it lists the stored cluster's services and shows the shaped lines of the specified rows, or exits 1 with the wrapped error |
| Cli.HasProfile | ecsctl/cli.py:202 | definition: `if ecs.aws_client.profile_name` holds for a profile that is set and not empty |
| Cli.SessionCommand | ecsctl/cli.py:199-210 | `aws ssm start-session --target <id>`, then `--profile p` only when a non-empty profile is set, then `--region r` always, then the AWS-StartInteractiveCommand / command=bash arguments only when bash was found |
| Cli.StartSessionCommand | ecsctl/cli.py:199-210 | the successive `extend`s build exactly that argument list |
| Cli.ExecInstance | ecsctl/cli.py:174-218 | a session is launched iff the controller starts, a cluster is stored, its EC2 rows can be listed, it holds the instance, and the instance's SSM agent is online; with no stored cluster it exits 1 before any request; a listing failure exits 1 with the wrapped details error; an instance not in the cluster exits 1 with the not-found message; an offline agent exits 1 with the SSM message, after the inventory request; the launched command is the session command; the command exits 0 when the session completes, and 1 when the session process raised; every signal disposition afterwards equals the one before, on every path |
| Cli.ContextDisplay | ecsctl/cli.py:231 | the stored name, or "Not set" when it is None or empty |
| Cli.GetContextCommand | ecsctl/cli.py:220-236 | shows the stored cluster or "Not set"; a controller error exits 1 |

## Left out

- AWS itself. The boto3 clients, pagination, retries and the network are not modelled. Every response is given data, and a failing call is a missing entry. The text of an AWS exception is a fixed string per operation.
- The agreement between different API answers. For example, a batch describe and a single describe of the same ARN are not required to agree, and no property needs them to.
- `ecsctl/aws_client.py`: the profile, the region and role assumption. These are not part of this model. The controller's profile and region are inputs.
- The `get task-definitions` command. It only renders the rows of `get_task_definitions`, which is modelled.
- Rendering. Rich tables, click, and the `str()` of the count columns are not modelled. Table rows are kept as records.
- Time. `datetime.fromtimestamp(...).strftime(...)` depends on the local time zone, so creation and registration times are opaque, already formatted strings.
- EcsController.ServiceRowOf: `', '.join` over a Python set has no defined order. The model keeps the ids in first-insertion order. The lemmas about the ids hold for any order: no duplicates, set membership, emptiness and the round trip through the column. The contracts of EcsController.GetServices and Cli.GetServicesCommand state the rows exactly, so they fix this order.
- Process work, modelled as inputs. These are `subprocess.run` of the session, the `which bash` probe, `mkdir`, JSON serialisation and the OS `signal.signal` call. Bash availability is a boolean, the session's result is an `Outcome`, and `signal.signal` is a map update.
- Utils.IgnoreUserEnteredSignals: a disposition of `None` is not modelled. That is a handler installed from C, which `signal.signal` cannot reinstall.
- Configuration values other than JSON null and strings are not modelled.
- Cli.UseCluster, Cli.GetClustersCommand, Cli.GetEc2Command, Cli.GetServicesCommand, Cli.ExecInstance and Cli.GetContextCommand:
  - The configuration object is passed in already constructed. In the source it is created at the end of the controller's initialisation, so a failing initialisation never creates the file.
  - The order in which lines are interleaved on stdout and stderr is not kept.
- Cli.ExecInstance: an exception from the session process is not an ECSCommandError, so it escapes the command. Python then prints a traceback and exits 1. The model keeps the exit status 1 but reduces the traceback to the exception's text.
- EcsController.GetContainers: the request log is stated only for its first request and for the empty listing.
- EcsController.CheckSsmStatus: the warning it logs is not modelled.
