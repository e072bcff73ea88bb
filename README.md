# puppetlabs-mongodb providers, modelled in Dafny

This project models the Puppet providers that manage MongoDB replica sets and users,
and the command layer they share:

- **Command** (`command.dfy`) models `Puppet::Provider::Mongodb`. It covers:
  - how `mongo_command` builds the `--eval` text and the `mongo` argument vector;
  - its begin/rescue/retry loop, which waits 2, 4, 8, … seconds while the budget
    `wait <= 2**retries` holds;
  - how `parse_as_json` rewrites `ObjectId(…)`, `ISODate(…)` and `Timestamp(…)`
    before JSON parsing;
  - `mongo_24?`, `auth_enabled?`, and the memoised `mongo_version`.
- **ReplsetType** (`replset_type.dfy`) models the `mongodb_replset` type:
  - when `members` and `admin_username` are in sync;
  - which `ensure` values exist.
- **Replset** (`replset.dfy`) models the `mongodb_replset` provider:
  - `alive_members`, `master_host`, the `rs.initiate` configuration and the
    `rs.add` loop;
  - `set_members` as a whole;
  - `get_replset_properties`/`instances`;
  - the provider object (`members=`, `create`, `destroy`, `exists?`, `flush`).
- **User** (`user.dfy`) models the `mongodb_user` provider:
  - `instances` on 2.4 and on 2.6+, `from_roles`, and `prefetch`;
  - the `createUser`/`addUser`, `dropUser`/`removeUser` and grant/revoke/`$set`
    commands;
  - the provider object (`create`, `destroy`, `exists?`, `roles=`).
- **Text**, **Collections** and **Wrappers** model the Ruby built-ins that the
  providers rely on:
  - `strip`, `downcase`, `=~` with a plain pattern, Integer interpolation;
  - `Array#sort` on Strings, `Array#-`;
  - `nil` and raised exceptions, as Option and Result.

Every shell call is an oracle, not an action:

- Each attempt of `mongo` is given by a function `outcome(i)`.
- Each reply a provider reads is a `Reply` value: an answer, a
  `Puppet::ExecutionFailure`, or another exception.
- A provider records every `mongo_command` call it makes, in order, as an
  `Invocation` (the command text and its options argument). What a provider does
  is stated as the sequence of commands it issues and how it ends.
- `sleep` becomes a list of the waits.

## Model

| member | source | states |
|---|---|---|
| Command.EvalTextRoundTrip | lib/puppet/provider/mongodb.rb:40-47 | the command is wrapped in `printjson(…)` unless json is false, then prefixed by the rc text and `; ` unless rc is false; the caller's command can be read back out of the eval text |
| Command.MongoCommand | lib/puppet/provider/mongodb.rb:37-81 | the argument vector is `--quiet <db or admin> [--host h] --eval <text>`; the attempts and waits are those of the retry loop; the result is the raw output, the rewritten JSON text, the re-raised ExecutionFailure, or nil (NoMethodError for JSON callers); with the String budget a String argument yields, one attempt is made and its failure raises TypeError at the guard `2**retries` |
| Command.RetryLoop | lib/puppet/provider/mongodb.rb:51-74 | the imperative begin/rescue/retry loop computes exactly the run the retry specification describes |
| Command.RetryShape | lib/puppet/provider/mongodb.rb:51-74 | at most retries+1 attempts; the k-th wait is 2^(k+1), and the waits add up to 2^attempts - 2; every attempt but the last failed with a retryable message; the last attempt decides the exit (output, re-raise within budget, nothing once spent) |
| Command.WaitWithinBudget | lib/puppet/provider/mongodb.rb:62 | before attempt i+1 the wait is 2^(i+1), and the guard `wait <= 2**retries` holds exactly when i < retries |
| Command.PersistentFailureExhaustsBudget | lib/puppet/provider/mongodb.rb:61-74 | a host that keeps refusing connections is tried retries+1 times, sleeps 2^(retries+1)-2 seconds in all, and the failure is dropped |
| Command.OtherFailureRaisedAtOnce | lib/puppet/provider/mongodb.rb:62-68 | within the budget, a failure that is neither "couldn't connect" nor "slaveOk=false" is re-raised at once without sleeping |
| Command.ParseAsJson | lib/puppet/provider/mongodb.rb:93-104 | `parse_as_json(nil)` raises NoMethodError; otherwise `null\n` becomes `{}` and the three wrappers are removed in order |
| Command.LazyCapture | lib/puppet/provider/mongodb.rb:100-101 | a `(.+?)\)` match is non-empty, stays on one line and ends at the first `)` after its first character; when there is no match, every `)` after the first character has a line break before it |
| Command.GsubUnchanged | lib/puppet/provider/mongodb.rb:99-101 | text without the opening of a wrapper is left unchanged by that substitution |
| Command.ObjectIdUnwrapped | lib/puppet/provider/mongodb.rb:99 | `ObjectId(x)` becomes `x` when x holds no `)` |
| Command.ISODateUnwrapped | lib/puppet/provider/mongodb.rb:100 | `ISODate(x)` becomes `x ` for a non-empty one-line x without `)` |
| Command.TimestampUnwrapped | lib/puppet/provider/mongodb.rb:101 | `Timestamp(x)` becomes `[x]` for a non-empty one-line x without `)` |
| Command.NullBecomesEmptyObject | lib/puppet/provider/mongodb.rb:96 | the shell's `null\n` reaches JSON.parse as `{}` |
| Command.PlainTextUnchanged | lib/puppet/provider/mongodb.rb:93-104 | output with none of the three wrappers (and not `null\n`) reaches JSON.parse unchanged |
| Command.GsubPrefix | lib/puppet/provider/mongodb.rb:99-101 | text before any character that could open the wrapper passes through `gsub!` untouched, so a wrapper is rewritten wherever it stands |
| Command.NormalizeObjectId | lib/puppet/provider/mongodb.rb:93-103 | an `ObjectId(x)` in the middle of the output reaches JSON.parse as `x`, the text around it unchanged |
| Command.NormalizeISODate | lib/puppet/provider/mongodb.rb:93-103 | an `ISODate(x)` in the middle of the output reaches JSON.parse as `x ` (x and a space), the text around it unchanged |
| Command.NormalizeTimestamp | lib/puppet/provider/mongodb.rb:93-103 | a `Timestamp(x)` in the middle of the output reaches JSON.parse as `[x]`, the text around it unchanged |
| Command.PlainArgumentRunsInAdmin | lib/puppet/provider/mongodb_user/mongodb.rb:77 | passing the database name as a String where the options hash belongs gives the default options (admin database, no host, no retries) unless the name contains "db", "host" or "retries" |
| Command.PlainArgumentRetriesIsText | lib/puppet/provider/mongodb.rb:62 | a database name containing "retries" makes `args_hash['retries']` the String "retries", the budget on which the guard raises TypeError |
| Command.SpentBudgetYieldsNilReceiver | lib/puppet/provider/mongodb.rb:61-79 | as written: with retries 0, any failed attempt leaves `output` nil and a JSON caller gets NoMethodError instead of ExecutionFailure |
| Command.RetryReraising | lib/puppet/provider/mongodb.rb:61-74 | corrected loop: it never ends with the output unset, makes the same attempts, and a retryable failure surfaces only after retries+1 attempts |
| Command.Delivered | lib/puppet/provider/mongodb.rb:76-80 | a caller gets a value exactly when the shell printed output; it sees Puppet::ExecutionFailure exactly when the loop re-raised one, with its message; a nil output reaches the caller as NoMethodError (`gsub!` at mongodb.rb:99, `strip` at mongodb.rb:9 and 26), and a String budget's guard as TypeError |
| Command.NoReraiseWithoutRetries | lib/puppet/provider/mongodb.rb:61-74 | with no retries the guard `wait <= 2**0` fails at once: no failure is ever re-raised, and a failed first attempt leaves `output` unset after one attempt |
| Command.ReraisingSurfacesFailure | lib/puppet/provider/mongodb.rb:61-79 | corrected loop: an unreachable host surfaces as ExecutionFailure with its message after retries+1 attempts |
| Command.Mongo24Iff | lib/puppet/provider/mongodb.rb:16-19 | `mongo_24?` holds exactly when some line of the version text starts with `2.4.` (`^` anchors at every line start) |
| Command.AuthEnabledPadded | lib/puppet/provider/mongodb.rb:25-27 | "enabled" with any whitespace around it counts as authorization enabled |
| Command.AuthEnabledShape | lib/puppet/provider/mongodb.rb:25-27 | only whitespace, then "enabled", then whitespace counts as authorization enabled |
| Command.VersionCache.constructor | lib/puppet/provider/mongodb.rb:8-10 | the class variable starts unset |
| Command.VersionCache.MongoVersion | lib/puppet/provider/mongodb.rb:8-10 | the first call runs `db.version()`; an answer is stripped, stored and returned, and later calls return it without running anything; a failed query raises its message and leaves the variable unset |
| Command.VersionReadOnce | lib/puppet/provider/mongodb.rb:8-10 | two successive version reads give the first answer both times, whatever the server says later |
| Command.VersionRetriedAfterFailure | lib/puppet/provider/mongodb.rb:8-10 | a failed version read is not remembered: the next read queries again and returns the new stripped answer |
| ReplsetType.MembersInSyncIffPermutation | lib/puppet/type/mongodb_replset.rb:23-25 | `is.sort == should.sort` holds exactly when both lists hold the same hosts the same number of times |
| ReplsetType.MembersInSyncEquivalence | lib/puppet/type/mongodb_replset.rb:23-25 | the members comparison is reflexive, symmetric and transitive |
| ReplsetType.MembersInSyncExamples | lib/puppet/type/mongodb_replset.rb:23-25 | reordered members are in sync; a repeated host is not |
| ReplsetType.AdminUsernameInSyncIff | lib/puppet/type/mongodb_replset.rb:31-33 | `is.downcase == should.downcase` holds exactly when the names agree letter by letter up to ASCII case |
| ReplsetType.ResolveEnsure | lib/puppet/type/mongodb_replset.rb:8-14 | ensure defaults to present, and a value is accepted exactly when none is declared or it is `present` |
| Collections.Sort | lib/puppet/provider/mongodb_user/mongodb.rb:22 | `Array#sort` of Strings gives a sorted permutation of its input |
| Collections.SortEqualIffPermutation | lib/puppet/type/mongodb_replset.rb:24 | two lists sort to the same list exactly when they are permutations of each other |
| Collections.Minus | lib/puppet/provider/mongodb_replset/mongo.rb:197 | `a - b` keeps, in order and with duplicates, exactly the elements of a that are not in b |
| Collections.MinusEmptyIff | lib/puppet/provider/mongodb_user/mongodb.rb:116-117 | `a - b` is empty exactly when every element of a is in b |
| Replset.CommandKinds | lib/puppet/provider/mongodb_replset/mongo.rb:68-84 | of the commands the provider issues, only `rs.initiate(…)` initiates and only `rs.add(…)` adds; the status, isMaster, conf and auth queries do neither |
| Replset.ConfigRoundTrip | lib/puppet/provider/mongodb_replset/mongo.rb:183-186 | the initiate configuration names the set and lists every live host in order with `_id` equal to its position; reading it back gives exactly that |
| Replset.AliveMembers | lib/puppet/provider/mongodb_replset/mongo.rb:120-146 | the `select` loop over the hosts computes the same kept hosts, abort and probes as the specification of `alive_members` |
| Replset.ProbeFailureIsNotRescued | lib/puppet/provider/mongodb_replset/mongo.rb:77-79 | `rs.status()` runs with no retries, so its reply is never Puppet::ExecutionFailure, and a failed probe becomes NoMethodError |
| Replset.UnreachableHostAbortsScan | lib/puppet/provider/mongodb_replset/mongo.rb:120-146 | as written, one unreachable host aborts the whole scan instead of being dropped by the `rescue Puppet::ExecutionFailure` |
| Replset.UnreachableHostDroppedWhenReraised | lib/puppet/provider/mongodb_replset/mongo.rb:140-143 | corrected: once the failure is re-raised, an unreachable host is dropped, as the `rescue` intends |
| Replset.AliveMeaning | lib/puppet/provider/mongodb_replset/mongo.rb:120-146 | the scan aborts exactly when some host is not running with `--replSet` or names another set (or another exception arises), with the first such host's error; it probes the hosts in order up to and including that one |
| Replset.AliveKeeps | lib/puppet/provider/mongodb_replset/mongo.rb:121-139 | without an abort, the kept hosts are a subsequence of the hosts, and a host is kept exactly when its status names this set or carries `info` |
| Replset.AliveChangesNothing | lib/puppet/provider/mongodb_replset/mongo.rb:120-146 | `alive_members` neither initiates nor adds |
| Replset.MasterHost | lib/puppet/provider/mongodb_replset/mongo.rb:90-99 | the early-return loop computes the master and probes that the specification of `master_host` gives |
| Replset.MasterSearchMeaning | lib/puppet/provider/mongodb_replset/mongo.rb:90-99 | `master_host` returns the primary named by the first host that names one (false when none does), probing exactly the hosts up to it; a failing query propagates |
| Replset.AddHosts | lib/puppet/provider/mongodb_replset/mongo.rb:198-203 | the `newhosts.each` loop computes the outcome and the `rs.add` commands that the specification of the loop gives |
| Replset.AddAllMeaning | lib/puppet/provider/mongodb_replset/mongo.rb:198-203 | the adds are issued in order up to and including the first one answered with ok 0, which raises "rs.add() failed"; the loop ends normally exactly when every add is accepted |
| Replset.AddsNeverInitiate | lib/puppet/provider/mongodb_replset/mongo.rb:198-203 | the add loop issues only `rs.add` commands |
| Replset.ChooseHosts | lib/puppet/provider/mongodb_replset/mongo.rb:158-177 | the live hosts are none when no members are declared; with authentication on, the declared members; otherwise the alive members, and an empty result raises "Can't connect to any member" |
| Replset.RunInitiate | lib/puppet/provider/mongodb_replset/mongo.rb:179-192 | a single `rs.initiate` with the configuration of the live hosts; a reply with ok 0 raises "rs.initiate() failed" with its errmsg |
| Replset.RunExtend | lib/puppet/provider/mongodb_replset/mongo.rb:193-207 | the add branch finds the master, asks it for the current hosts, and adds the live hosts it does not list; no master raises "Can't find master host" |
| Replset.SetMembers | lib/puppet/provider/mongodb_replset/mongo.rb:148-208 | the method computes the outcome and every command issued, in order, as the specification of `set_members` gives |
| Replset.LiveHostsChangeNothing | lib/puppet/provider/mongodb_replset/mongo.rb:158-177 | choosing the live hosts only queries the cluster |
| Replset.ExtendNeverInitiates | lib/puppet/provider/mongodb_replset/mongo.rb:193-207 | the add branch never initiates the set |
| Replset.InitiatesIff | lib/puppet/provider/mongodb_replset/mongo.rb:179-192 | once the live hosts are known, `set_members` initiates exactly when the flush asks for presence and the set is not present; the initiate is then its last command and carries the live hosts' configuration |
| Replset.FailuresBeforeTheBranchChangeNothing | lib/puppet/provider/mongodb_replset/mongo.rb:148-177 | an absent flush, a missing member list or a failed live-host choice changes nothing on the cluster; only the absent flush ends normally |
| Replset.NoReachableMemberIff | lib/puppet/provider/mongodb_replset/mongo.rb:169-171 | with authentication off, "Can't connect to any member" is raised exactly when no host aborts the scan and every host is dropped |
| Replset.AuthEnabledTrustsMembers | lib/puppet/provider/mongodb_replset/mongo.rb:159-166 | with authentication on, the declared members are used as they are, after the one auth query |
| Replset.EmptyMembersFindNoMaster | lib/puppet/provider/mongodb_replset/mongo.rb:175-206 | with an empty member list and an existing set, `set_members` raises "Can't find master host" without issuing anything |
| Replset.ExtendAddsOnlyNewHosts | lib/puppet/provider/mongodb_replset/mongo.rb:195-203 | in the add branch, after the master probes come `rs.add` commands for a prefix of the live hosts that the master does not list, in order; when it lists them all, nothing is added |
| Replset.AddCommandsLength | lib/puppet/provider/mongodb_replset/mongo.rb:198-200 | one `rs.add` per host |
| Replset.MemberHosts | lib/puppet/provider/mongodb_replset/mongo.rb:104-106 | the member list is the `host` of each `rs.conf()` entry, in order |
| Replset.Instances | lib/puppet/provider/mongodb_replset/mongo.rb:101-118 | there is at most one replica set; it exists exactly when `rs.conf()` has `members`, and is then present, named by `_id`, with the members' hosts in order; a failing `rs.conf()` propagates |
| Replset.ReplsetProvider.constructor | lib/puppet/provider/mongodb_replset/mongo.rb:21-24 | a new provider has an empty flush hash and the property hash it was built from |
| Replset.ReplsetProvider.AssignMembers | lib/puppet/provider/mongodb_replset/mongo.rb:26-28 | `members=` only records the hosts to flush |
| Replset.ReplsetProvider.Create | lib/puppet/provider/mongodb_replset/mongo.rb:52-55 | `create` only records presence and the declared members |
| Replset.ReplsetProvider.Destroy | lib/puppet/provider/mongodb_replset/mongo.rb:57-59 | `destroy` only records absence |
| Replset.ReplsetProvider.Exists | lib/puppet/provider/mongodb_replset/mongo.rb:48-50 | `exists?` is true exactly when the property hash says present, and raises when the hash is nil |
| Replset.ReplsetProvider.Flush | lib/puppet/provider/mongodb_replset/mongo.rb:61-64 | `flush` runs `set_members` and then re-reads the properties from `rs.conf()`; an exception from `set_members` leaves the hash as it was |
| User.JsonArrayRoundTrip | lib/puppet/provider/mongodb_user/mongodb.rb:74 | a list of role names without `"` survives `to_json` and reading back |
| User.FromRoles | lib/puppet/provider/mongodb_user/mongodb.rb:130-138 | the result is sorted, has one name per entry, and holds exactly the rendered entries with duplicates: the bare role in the user's database, `role@db` elsewhere |
| User.RenderRoleRoundTrip | lib/puppet/provider/mongodb_user/mongodb.rb:132-136 | a role without `@` renders to a name that reads back as the same role and database |
| User.FromRolesPermutationInvariant | lib/puppet/provider/mongodb_user/mongodb.rb:130-138 | `from_roles` does not depend on the order in which the server lists the roles |
| User.LegacyUsersShaped | lib/puppet/provider/mongodb_user/mongodb.rb:17-24 | on 2.4 each database gives one user per document, present, in that database, with sorted roles |
| User.LegacyListingShaped | lib/puppet/provider/mongodb_user/mongodb.rb:14-26 | a successful 2.4 listing queried each database once, in order, and holds only present users with sorted roles under a queried database |
| User.LegacyInstances | lib/puppet/provider/mongodb_user/mongodb.rb:9-26 | the `allusers +=` loop computes the listing and the queries that the specification of the 2.4 listing gives |
| User.ModernListingOkIff | lib/puppet/provider/mongodb_user/mongodb.rb:28-37 | the 2.6+ listing fails exactly when some document lacks `roles` or `credentials` |
| User.ModernListingPointwise | lib/puppet/provider/mongodb_user/mongodb.rb:30-37 | a successful 2.6+ listing has one user per document, in order |
| User.ModernUserShaped | lib/puppet/provider/mongodb_user/mongodb.rb:31-36 | each 2.6+ user is present; it keeps `_id`, `user` and `db`, has one sorted role name per role entry, and has the MONGODB-CR hash as its password |
| User.InstancesShaped | lib/puppet/provider/mongodb_user/mongodb.rb:8-39 | `instances` first lists databases (2.4) or all users (2.6+); the 2.6+ branch makes that one query; a successful 2.4 branch queries each database in order |
| User.Prefetch | lib/puppet/provider/mongodb_user/mongodb.rb:42-49 | each resource that some instance matches by username and database gets the first such instance; every other resource is left as it was |
| User.CreateUserRoundTrip | lib/puppet/provider/mongodb_user/mongodb.rb:64-75 | the hand-built `createUser` document reads back as the username, password hash, creating resource and roles |
| User.CreatedByRoundTrip | lib/puppet/provider/mongodb_user/mongodb.rb:64-74 | the `customData` and `roles` tail reads back as the resource name and roles |
| User.CreateUserComesFirst | lib/puppet/provider/mongodb_user/mongodb.rb:67-70 | `createUser` is the first key of the document |
| User.RoleChangesNoneIff | lib/puppet/provider/mongodb_user/mongodb.rb:112-126 | on 2.4 `roles=` always runs one `$set`; on 2.6+ it runs nothing exactly when both lists hold the same roles |
| User.GrantRevokeReconciles | lib/puppet/provider/mongodb_user/mongodb.rb:116-124 | granting `wanted - current` and then revoking `current - wanted` leaves exactly the wanted roles |
| User.GrantRevokeListsReadBack | lib/puppet/provider/mongodb_user/mongodb.rb:118-123 | the grant and revoke lists survive their JSON rendering |
| User.RolesSetterIsSilent | lib/puppet/provider/mongodb_user/mongodb.rb:116-124 | as written, on 2.6+ `roles=` compares the new roles with `@resource[:roles]`, which is the same value, and so never grants or revokes |
| User.UserProvider.constructor | lib/puppet/provider/mongodb_user/mongodb.rb:18-23 | a provider starts with the resource, the server generation, and the property hash it was built from |
| User.UserProvider.Exists | lib/puppet/provider/mongodb_user/mongodb.rb:98-100 | `exists?` is true exactly when ensure is present (neither absent nor nil) |
| User.Acknowledged | lib/puppet/provider/mongodb_user/mongodb.rb:61-126 | a provider command succeeds exactly when its reply is a value; otherwise the provider method raises with that reply's message |
| User.IssueMeaning | lib/puppet/provider/mongodb_user/mongodb.rb:113-125 | commands run in order issue exactly those up to and including the first failure, and fail with that command's message iff one fails |
| User.GrantFailureSkipsRevoke | lib/puppet/provider/mongodb_user/mongodb.rb:116-124 | on 2.6+, a grant that raises ends `roles=`: the revoke is never issued, and the grant's message is raised |
| User.UserProvider.Run | lib/puppet/provider/mongodb.rb:33-35 | one `mongo_command` call is issued, and a failed reply raises |
| User.UserProvider.Create | lib/puppet/provider/mongodb_user/mongodb.rb:53-87 | `create` issues `db.addUser` in the user's database on 2.4, and otherwise `createUser` with the database name as the options argument. When that succeeds it records the resource in the hash and answers true. When it raises, the hash is left as it was |
| User.UserProvider.Destroy | lib/puppet/provider/mongodb_user/mongodb.rb:90-96 | `destroy` issues exactly one `removeUser` (2.4) or `dropUser`, and raises when that command fails |
| User.UserProvider.ChangeRoles | lib/puppet/provider/mongodb_user/mongodb.rb:113-125 | the commands are the `$set` (2.4), or a grant of the missing roles and a revoke of the extra ones, each only when non-empty. They run in order up to the first that raises, and `roles=` raises with its message |
| User.UserProvider.AssignRoles | lib/puppet/provider/mongodb_user/mongodb.rb:112-126 | as written: the diff is taken against the resource's own roles |
| User.UserProvider.AssignRolesFromCurrent | lib/puppet/provider/mongodb_user/mongodb.rb:112-126 | corrected: the diff is taken against the roles the user has now |

## Left out

- The `.mongorc.js` lookup (`mongorc_command`) and its file-system test: the rc text is a parameter.
- `sleep`: the waits are recorded, not performed.
- The `info`/`debug`/`warning` logging, including the `warning("NILL!!!!!!!!")` in `parse_as_json`: it has no effect on results.
- `JSON.parse` itself is not modelled. The model stops at the rewritten text and starts again from typed reply documents (`StatusDoc`, `OkDoc`, `ConfDoc`, user documents).
- The `ok` field of a reply is taken as an integer: a float `0.0` would compare equal to `0` in Ruby, and that is not distinguished.
- `to_json` is rendered without escaping. Names containing `"`, `\` or control characters are outside the model. So are non-ASCII names, since `downcase` and `sort` are modelled on ASCII code points.
- Command.MongoCommand: an attempt's outcome depends only on its index, not on the argument vector, because the shell is an oracle.
- User.UserProvider: `mongo_24?` is the constant `mongo24`. The `db.version()` query behind it, and its failure, are modelled by Command.VersionCache, and they do not appear in `issued` or reach `instances`, `create`, `destroy` or `roles=`.
- `password_hash=` is not modelled. As written it builds an Array from the `,`-separated pieces and then interpolates that into the command, which never forms a valid `updateUser` document. It is left out rather than modelled as a string.
- The `|| 'admin'` after the 2.4 databases query is not modelled: `mongo_command` there returns the parsed reply or raises, never nil or false, so the default is never taken.
- Replset.RunExtend: `current_hosts` is the reply to `db.isMaster().primary` on the master, given as an opaque list of host names. What the shell prints for it, and how `Array#-` would treat a String there, are not modelled.
- `:provider => :mongo` in the property hash, `mk_resource_methods`, `confine`, `commands`, `defaultfor`, the autorequires, and attaching prefetched providers to Puppet resources are Puppet glue. Replica-set `prefetch` is not modelled separately: it attaches the one instance by name.
- Replset.ReplsetProvider.Flush requires a property hash. The source reads `@property_hash[:ensure]` only when the flush asks for presence (mongo.rb:179). With a nil hash, which follows an earlier flush whose `rs.conf()` had no `members` key, an absent or members-only flush still runs. A flush that asks for presence raises NoMethodError after the live hosts have been chosen. The model does not state these paths.
- `rs_remove` is never called: its only caller is commented out.
- Replset.Alive takes its status replies from an oracle whose replies may be Puppet::ExecutionFailure, as under the corrected, re-raising loop. The as-written path, where a failed probe raises NoMethodError and aborts the scan, is stated separately by Replset.UnreachableHostAbortsScan.
- The resource attributes the user provider reads (`username`, `database`, `password_hash`, `roles`, `name`) are taken as set; nil attributes are outside the model.
- User.ModernUserShaped and User.GrantRevokeReconciles are proved by Dafny without further proof steps. They state properties of the definitions and do not carry a proof.

## Findings

| source | as written | input that shows it | evidently intended | confidence | as-written member | corrected member |
|---|---|---|---|---|---|---|
| lib/puppet/provider/mongodb.rb:61-79 | when the retry budget is spent, the rescue falls through without re-raising, so `output` stays nil and `parse_as_json(nil)` raises NoMethodError | `retries` 0 (the default) and any first attempt that fails, e.g. "Error: couldn't connect to server"; the `rs.status()` probe in `alive_members` then raises NoMethodError, which its `rescue Puppet::ExecutionFailure` does not catch, so one unreachable host aborts the whole scan | re-raise the last failure once the budget is spent | not executed | Command.SpentBudgetYieldsNilReceiver, Replset.UnreachableHostAbortsScan | Command.RetryReraising, Command.ReraisingSurfacesFailure, Replset.UnreachableHostDroppedWhenReraised |
| lib/puppet/provider/mongodb_user/mongodb.rb:112-126 | `roles=` diffs the new roles against `@resource[:roles]`, which is the same desired list, so on 2.6+ nothing is ever granted or revoked | a 2.6 user whose current roles `["read"]` differ from the declared `["readWrite"]` | diff against the current roles in `@property_hash[:roles]` | not executed | User.RolesSetterIsSilent, User.UserProvider.AssignRoles | User.UserProvider.AssignRolesFromCurrent, User.GrantRevokeReconciles |
