# WLST administration scripts for P6 EPPM on WebLogic, modelled in Dafny

The scripts start and stop the P6 EPPM managed servers, deploy and undeploy the P6
applications, configure the servers' Java start arguments and set up the encrypted
credential store. Every one of them is a short, strictly sequential WLST (Jython)
program. It issues calls to the WebLogic administration server, isolates the failures of
single items with `try`/`except`, counts the outcomes and picks an exit status.

The model keeps that control flow and replaces WebLogic with an abstract endpoint
(`Wlst.Endpoint`). The endpoint holds:

- the state each managed server reports;
- the names of the registered deployments;
- an oracle saying which call raises, given every call issued before it.

Each script becomes a method that returns a `Run` (or a `Setup` for the credential script).
This holds:

- the ordered trace of issued calls;
- the printed counters, when the script gets that far;
- its `Exit`: a status code, or `Uncaught` when an exception escapes the script.

Each method is proved equal to a specification function, written head-first over the
item list. The properties the scripts promise are lemmas about those functions:

- counters that partition the batch;
- skip, transition and failure per item;
- list order;
- gating of start/verify on deploy;
- the try-block order and the cancel path;
- the exit rules.

Modules:

- `Wlst`: commands, endpoint, per-item ledger (`Record`), counters, and the try-block
  fold shared by the configuration and credential scripts.
- `HostRegistry`: host name normalisation, the host-to-servers map, the per-host lists.
- `Lifecycle`: state-checked and unconditional start/stop/undeploy batches, with their
  counting loops.
- `ServiceScripts`: the six start/stop scripts.
- `Summary`: `print_summary` and the disconnect-then-summarise ending.
- `Deployment`: `deploy_p6_apps.py`.
- `Configuration`: `configure_server_args.py`.
- `Undeploy`: `undeploy_all_apps.py`.
- `Credentials`: `store-credentials.py`.

Modelling conventions:

- A `cd(...)` and the bean access that follows it are one command. For example,
  `cd('/ServerLifeCycleRuntimes/s'); cmo.getState()` is `GetState(s)`. An exception in
  either one is the failure of that command.
- Host name, file existence, the environment password and the interactive answers are
  parameters.
- `os.chmod(path, 0600)` is the command `Chmod(path, 384)`, judged by the same oracle.
- WLST's `exit()` and `sys.exit()` are taken to end the script with their status. They
  are not caught by the surrounding `except Exception`, because in Jython 2.5 and later (the
  Jython 2.7 of WebLogic 12.2.1 and newer) `SystemExit` is not an `Exception`. In the
  `sys.exit` paths of the start/stop scripts the exit status is 1 either way, since the
  handlers that would catch it also exit 1.
- In `deploy_p6_apps.py`, `configure_server_args.py` and `undeploy_all_apps.py`, the final
  `disconnect()` (and, in the undeploy script, the `connect`) sit outside every `try`. If
  one of them raises, the result is `Uncaught`: an exception escapes the script, which
  therefore ends with an error exit status instead of one it chose.

## Model

| member | source | states |
|---|---|---|
| HostRegistry.ShortHostName | part4-service-management/stop-managed-servers.py:28 | the short name contains no '.', is a prefix of the host name, and stops exactly at the first '.' |
| HostRegistry.ShortHostNameKeepsPlainName | part4-service-management/stop-managed-servers.py:28 | a host name without a '.' is kept unchanged |
| HostRegistry.ShortHostNameOfQualified | part4-service-management/common/stop-managed-servers.py:21 | `host.domain` normalises to `host` when `host` has no dot |
| HostRegistry.Resolve | part4-service-management/stop-managed-servers.py:31-41 | the `server_map` lookup by short host name, `None` for a host the map does not hold; its contract is `ResolveKnownHosts` |
| HostRegistry.ResolveKnownHosts | part4-service-management/common/stop-managed-servers.py:24-34 | exactly prmapp01 and prmapp02 are known; they resolve to the `_ms1` and the `_ms2` lists, in web, ws, tm, cc order |
| HostRegistry.Reverse | part4-service-management/prmapp02/stop-managed-servers.py:19-25 | the result has the same length and holds element `n-1-i` at place `i` |
| HostRegistry.Prmapp02StopReversesStart | part4-service-management/prmapp02/stop-managed-servers.py:19-25 | the prmapp02 shutdown list is exactly the prmapp02 start list reversed |
| Lifecycle.CheckedStep | part4-service-management/stop-managed-servers.py:82-98 | the specification of one server's try block: query the state, skip when it is the desired one, otherwise issue the transition; its contract is `CheckedRecordAt` and `CheckedStepTransitions` |
| Lifecycle.CheckedBatch | part4-service-management/stop-managed-servers.py:81-98 | the specification of the state-checked main loop: one record per server, each started after the calls of the ones before; its contract is `CheckedBatchAt`, `CheckedRecordAt` and `CheckedTransitionCount` |
| Lifecycle.CheckedBatchAt | part4-service-management/stop-managed-servers.py:81-98 | server `i` is handled in list order, after exactly the calls issued for the servers before it |
| Lifecycle.CheckedRecordAt | part4-service-management/stop-managed-servers.py:82-98 | a failing state query is a failure with only the query issued; the desired state (SHUTDOWN for stop, RUNNING for start) is a skip with only the query; any other state issues exactly one transition, done exactly when it returns |
| Lifecycle.CheckedQueriesInOrder | part4-service-management/common/start-managed-servers.py:55-72 | every server's state is read exactly once, in list order, whatever fails |
| Lifecycle.CheckedStepTransitions | part4-service-management/common/stop-managed-servers.py:61-69 | one server's calls hold its own transition exactly once when its state was read and is not the desired one, and no other server's transition |
| Lifecycle.CheckedTransitionCount | part4-service-management/common/stop-managed-servers.py:55-72 | over distinct servers, the whole batch issues server `i`'s transition exactly once if its state differed from the desired one, else never |
| Lifecycle.CheckServer | part4-service-management/common/start-managed-servers.py:56-72 | the per-server try block yields the record of the specification step |
| Lifecycle.CheckedLoop | part4-service-management/stop-managed-servers.py:77-98 | the three counters are the tally of the ledger and sum to the number of servers; the trace is the prologue plus every server's calls |
| Lifecycle.Commands | part4-service-management/prmapp01/start-managed-servers.py:40-43 | one command per item, the item's own, in item order |
| Lifecycle.UnconditionalBatch | part4-service-management/prmapp01/start-managed-servers.py:40-49 | the specification of the per-host main loop: one record per item, its command issued whatever happened before; its contract is `UnconditionalBatchIssuesEach` and `UnconditionalResultAt` |
| Lifecycle.UnconditionalBatchIssuesEach | part4-service-management/prmapp01/start-managed-servers.py:40-49 | an unconditional batch issues exactly its per-item command for each item, in order, failures included |
| Lifecycle.UnconditionalResultAt | part4-service-management/prmapp02/start-managed-servers.py:40-49 | item `i` succeeds exactly when its command returns after the commands of the items before it |
| Lifecycle.UnconditionalLoop | part4-service-management/prmapp02/stop-managed-servers.py:37-49 | the two counters are the ledger's tally and sum to the number of items; the trace is every item's command |
| ServiceScripts.AdminPassword | part4-service-management/common/start-managed-servers.py:18 | the environment value when set, else the placeholder "CHANGE_ME" |
| ServiceScripts.CheckedScriptExit | part4-service-management/common/stop-managed-servers.py:79-86 | status 0 exactly when connect, domainRuntime and disconnect return and no server failed; every other run ends with status 1 |
| ServiceScripts.CheckedScriptShape | part4-service-management/stop-managed-servers.py:62-105 | a connect failure issues nothing else and prints no counters; once the batch ran, the counters sum to the number of servers, every server is queried once in order, and disconnect comes last |
| ServiceScripts.CheckedScript | part4-service-management/common/start-managed-servers.py:36-86 | the specification run of a state-checked script: connect, domainRuntime, the batch, disconnect and the exit rule; its contract is `CheckedScriptShape` and `CheckedScriptExit` |
| ServiceScripts.RunChecked | part4-service-management/common/start-managed-servers.py:36-86 | the script body equals the specification run |
| ServiceScripts.StopManagedServers | part4-service-management/stop-managed-servers.py:28-112 | an unknown host, then a missing config file, then a missing key file each exit 1 with nothing issued; otherwise the store-authenticated state-checked shutdown with force and without ignoreSessions |
| ServiceScripts.CommonStopManagedServers | part4-service-management/common/stop-managed-servers.py:21-86 | an unknown host exits 1 with nothing issued; otherwise the password-authenticated state-checked shutdown with ignoreSessions and force |
| ServiceScripts.CommonStartManagedServers | part4-service-management/common/start-managed-servers.py:21-86 | an unknown host exits 1 with nothing issued; otherwise the state-checked start |
| ServiceScripts.UnconditionalScriptShape | part4-service-management/prmapp01/start-managed-servers.py:27-65 | a connect failure exits 1 with only the connect issued; otherwise the trace is connect, one command per listed server in order, disconnect, and the counters sum to the list length |
| ServiceScripts.UnconditionalScriptExit | part4-service-management/prmapp02/start-managed-servers.py:56-65 | status 0 exactly when connect and disconnect return and, where failures count, no server failed; otherwise 1 |
| ServiceScripts.UnconditionalScript | part4-service-management/prmapp01/start-managed-servers.py:27-65 | the specification run of a per-host script: connect, one command per server, disconnect and the exit rule; its contract is `UnconditionalScriptShape` and `UnconditionalScriptExit` |
| ServiceScripts.RunUnconditional | part4-service-management/prmapp01/start-managed-servers.py:27-65 | the per-host script body equals the specification run |
| ServiceScripts.Prmapp01StartManagedServers | part4-service-management/prmapp01/start-managed-servers.py:20-65 | the prmapp01 script is the unconditional start over its four servers, failures counting |
| ServiceScripts.Prmapp02StartManagedServers | part4-service-management/prmapp02/start-managed-servers.py:20-65 | the prmapp02 script is the unconditional start over its four servers, failures counting |
| ServiceScripts.Prmapp02StopManagedServers | part4-service-management/prmapp02/stop-managed-servers.py:20-61 | the prmapp02 stop is the unconditional shutdown (ignoreSessions, force) over the reversed list, failures not counting |
| ServiceScripts.Prmapp02StopIgnoresFailures | part4-service-management/prmapp02/stop-managed-servers.py:56-61 | status 0 exactly when connect and disconnect return, whatever the shutdowns did |
| Summary.ResultsAt | part5-p6-eppm-deployment-scripts/deploy_p6_apps.py:231 | summary line `i` names ledger entry `i` and is a success exactly when that entry is done |
| Summary.SuccessesBounded | part5-p6-eppm-deployment-scripts/deploy_p6_apps.py:184-201 | successes never exceed the entries, and equal them exactly when every entry succeeded |
| Summary.SuccessesOfResults | part5-p6-eppm-deployment-scripts/configure_server_args.py:141-150 | the successes of the summary are the done entries of the ledger |
| Summary.PrintSummary | part5-p6-eppm-deployment-scripts/deploy_p6_apps.py:177-201 | success count plus fail count is the number of results, and the result is true exactly when every entry succeeded |
| Summary.SummarisedEndingExit | part5-p6-eppm-deployment-scripts/configure_server_args.py:185-203 | a failing disconnect escapes uncaught; otherwise the status is 0 exactly when every summary line succeeded, and the counters cover every entry |
| Summary.SummarisedEnding | part5-p6-eppm-deployment-scripts/deploy_p6_apps.py:233-255 | the specification of disconnect then print_summary: uncaught on a failing disconnect, else the summary decides the status; its contract is `SummarisedEndingExit` |
| Summary.DisconnectAndSummarise | part5-p6-eppm-deployment-scripts/deploy_p6_apps.py:233-255 | disconnect then summary equals the specification ending |
| Deployment.CheckApplicationExists | part5-p6-eppm-deployment-scripts/deploy_p6_apps.py:86-96 | true exactly when the listing returns and some deployment has the name; false on an exception |
| Deployment.UndeployApplication | part5-p6-eppm-deployment-scripts/deploy_p6_apps.py:99-113 | stopApplication then undeploy are issued; the result is the undeploy's alone |
| Deployment.DeployAttempt | part5-p6-eppm-deployment-scripts/deploy_p6_apps.py:116-150 | the specification of deploy_application: archive check, listing, undeploy when registered, deploy; its contract is `DeployAttemptShape` |
| Deployment.DeployAttemptShape | part5-p6-eppm-deployment-scripts/deploy_p6_apps.py:116-150 | a missing archive fails with nothing issued; otherwise listing first, one undeploy exactly when registered, the deploy last and once, and success exactly when the deploy returns |
| Deployment.DeployApplication | part5-p6-eppm-deployment-scripts/deploy_p6_apps.py:116-150 | the method yields the specification attempt, deploying with nostage and upload off |
| Deployment.DeployItem | part5-p6-eppm-deployment-scripts/deploy_p6_apps.py:225-231 | the specification of one table entry: the deploy attempt, then start and verify after a success; its contract is `DeployItemGating` |
| Deployment.DeployItemGating | part5-p6-eppm-deployment-scripts/deploy_p6_apps.py:225-231 | the recorded result is the deploy attempt's; after a successful deploy the attempt's calls are followed by start and then verify, each once; otherwise nothing follows them |
| Deployment.DeployBatch | part5-p6-eppm-deployment-scripts/deploy_p6_apps.py:221-231 | the specification of the main deploy loop over the table; its contract is `DeployBatchAt` and `DeployBatchItems` |
| Deployment.DeployBatchAt | part5-p6-eppm-deployment-scripts/deploy_p6_apps.py:224-231 | ledger entry `i` is the deploy of table entry `i` (attempt, then start and verify after a success) issued after exactly the calls of the entries before it |
| Deployment.DeployBatchItems | part5-p6-eppm-deployment-scripts/deploy_p6_apps.py:224-231 | ledger entry `i` belongs to table entry `i`, and none is skipped |
| Deployment.DeployAll | part5-p6-eppm-deployment-scripts/deploy_p6_apps.py:221-231 | the collected results and the trace are those of the specification batch |
| Deployment.DeployScript | part5-p6-eppm-deployment-scripts/deploy_p6_apps.py:208-255 | the specification run of main: connect, the deploy batch, disconnect and the summary; its contract is `DeployScriptOutcome` |
| Deployment.DeployMain | part5-p6-eppm-deployment-scripts/deploy_p6_apps.py:208-255 | main equals the specification run |
| Deployment.DeployScriptOutcome | part5-p6-eppm-deployment-scripts/deploy_p6_apps.py:216-255 | a connect failure exits 1 with nothing deployed; one result per table entry in order; status 0 exactly when connected, disconnected and every result a success; uncaught exactly when the disconnect raises |
| Deployment.DeployIgnoresStartAndVerify | part5-p6-eppm-deployment-scripts/deploy_p6_apps.py:227-231 | two endpoints differing only in start and verify failures give the same run |
| Wlst.TryBlockShape | part5-p6-eppm-deployment-scripts/configure_server_args.py:97-124 | a try block issues a prefix of its calls, all of them when it completes, and otherwise stops right after the call that raised |
| Wlst.TryBlockCompletes | part4-service-management/store-credentials.py:72-108 | a try block completes exactly when each call returns after the ones before it |
| Wlst.TryBlockStopsAtFirstFailure | part5-p6-eppm-deployment-scripts/configure_server_args.py:97-124 | every issued call before the last returned normally, and the last did too when the block completed |
| Wlst.TryCall | part5-p6-eppm-deployment-scripts/configure_server_args.py:99-118 | one statement of a try block extends the block by that call |
| Configuration.ConfigureStep | part5-p6-eppm-deployment-scripts/configure_server_args.py:97-131 | the specification of configure_server_arguments: the six-call try block, then cancelEdit('y') after an exception; its contract is `ConfigureStepShape` |
| Configuration.ConfigureStepShape | part5-p6-eppm-deployment-scripts/configure_server_args.py:97-131 | configured exactly when all six calls were issued in order and exactly when each returned after the ones before it, so a raising activate() is a failure; after a failure the calls up to the failing one, then one cancelEdit('y') |
| Configuration.ConfigureServerArguments | part5-p6-eppm-deployment-scripts/configure_server_args.py:90-131 | the straight-line body yields the specification step |
| Configuration.Truncate | part5-p6-eppm-deployment-scripts/configure_server_args.py:104 | the slice `s[:n]`: a prefix of at most `n` characters, all of `s` when it is short enough |
| Configuration.CurrentArgumentsEcho | part5-p6-eppm-deployment-scripts/configure_server_args.py:103-106 | "(none)" without current arguments, else at most their first 50 characters followed by "..." |
| Configuration.NewArgumentsEcho | part5-p6-eppm-deployment-scripts/configure_server_args.py:121 | the first 60 characters of the new arguments (all of them when shorter), followed by "..." |
| Configuration.ConfigureBatch | part5-p6-eppm-deployment-scripts/configure_server_args.py:178-183 | the specification of the main configure loop over the table; its contract is `ConfigureBatchAt` and `ConfigureBatchItems` |
| Configuration.ConfigureBatchAt | part5-p6-eppm-deployment-scripts/configure_server_args.py:178-183 | ledger entry `i` is the configure step of server `i` with its arguments, issued after exactly the calls of the servers before it |
| Configuration.ConfigureBatchItems | part5-p6-eppm-deployment-scripts/configure_server_args.py:181-183 | ledger entry `i` belongs to server `i` of the table, and none is skipped |
| Configuration.ConfigureAll | part5-p6-eppm-deployment-scripts/configure_server_args.py:178-183 | the collected results and trace are those of the specification batch |
| Configuration.ConfigureScript | part5-p6-eppm-deployment-scripts/configure_server_args.py:165-203 | the specification run of main: connect, the configure batch, disconnect and the summary; its contract is `ConfigureScriptOutcome` |
| Configuration.ConfigureMain | part5-p6-eppm-deployment-scripts/configure_server_args.py:165-203 | main equals the specification run |
| Configuration.ConfigureScriptOutcome | part5-p6-eppm-deployment-scripts/configure_server_args.py:173-203 | a connect failure exits 1 with nothing configured; one result per server in table order; status 0 exactly when connected, disconnected and every server configured; uncaught exactly when the disconnect raises |
| Undeploy.UndeployScript | part5-p6eppm-deployment/undeploy_all_apps.py:18-62 | the specification run of undeploy_applications: config-file check, connect, one undeploy per application, disconnect; its contract is `UndeployScriptOutcome` |
| Undeploy.UndeployApplications | part5-p6eppm-deployment/undeploy_all_apps.py:18-62 | the script body equals the specification run |
| Undeploy.UndeployScriptOutcome | part5-p6eppm-deployment/undeploy_all_apps.py:24-62 | without the config file nothing is issued and the exit is 1; only that file is checked; once connected, each application is undeployed once in order, then disconnect; status 0 exactly when connect and disconnect return, whatever the undeploys did; the counters sum to four |
| Credentials.LowerChar | part4-service-management/store-credentials.py:48 | upper-case ASCII letters move to lower case, every other character stays |
| Credentials.LowerAt | part4-service-management/store-credentials.py:48 | every character of the lowered answer is the lowered character at its place |
| Credentials.ConfirmsExactly | part4-service-management/store-credentials.py:48 | the answer confirms exactly when it is "yes" in any mix of case |
| Credentials.EffectiveUser | part4-service-management/store-credentials.py:55-57 | an empty user name becomes "weblogic", a non-empty one is kept |
| Credentials.StoreCredentials | part4-service-management/store-credentials.py:44-116 | the overwrite question is asked exactly when a file exists, and a refusal exits 0 before anything else; nothing is issued unless a non-empty password was entered twice alike; an empty password or a mismatched confirmation exits 1; no exception escapes |
| Credentials.StoreAndSecure | part4-service-management/store-credentials.py:72-90 | the try block issues connect, storeUserConfig, disconnect and the two chmods as the try-block fold says |
| Credentials.StoreCredentialsMain | part4-service-management/store-credentials.py:43-116 | the straight-line script equals the specification setup |
| Credentials.StoreCredentialsCalls | part4-service-management/store-credentials.py:72-116 | past the prompts, the calls start with the connect of the defaulted user and are a prefix of connect, store, disconnect, chmod, chmod; status 0 exactly when each returns after the ones before it, and then all five were issued; nothing is stored unless the connect returned |

## Left out

- WebLogic itself: nothing any call does to the domain is modelled. The endpoint's states
  and deployments do not change as commands are issued. Only the oracle decides whether a
  call raises.
- Console output: banners, `ljust` alignment, messages, URL echoes. The argument echoes of
  `configure_server_args.py` are modelled as functions of their input.
- `CurrentArgumentsEcho`: the value `get('Arguments')` returns is a parameter of the echo,
  not a result of the `GetArguments` command.
- `app.getName()` and `t.getName()` are taken never to raise on their own.
- `connect_to_admin`'s `USE_CONFIG_FILE = False` branch is left out. The constant is True
  in both scripts, and the branch names `ADMIN_PASSWORD`, and in
  `configure_server_args.py` also `ADMIN_USER`, neither of which is defined.
- `part5-p6eppm-deployment/deploy_p6web_only.py` is not part of this model. It is a single
  deploy call behind the same credential check as the undeploy script.
- `socket.gethostname`, `os.path.exists`, `os.environ.get`, `raw_input` and
  `getpass.getpass` become parameters. Their own failures are not modelled.
- `Credentials.LowerChar`: only ASCII letters are lower-cased. Case mappings beyond
  ASCII, which `lower()` may apply to a Unicode answer, are not modelled.
- `Undeploy.UndeployScriptOutcome`: the counter the script prints as "Skipped" is the
  tally's failed count.
- There is no concurrency, no retry and no timing. Each script makes exactly one connect
  attempt.
