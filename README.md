# nhctl argument vectors

A Dafny model of `NhctlCommand`, the class of the Nocalhost IntelliJ plugin
that drives the `nhctl` command-line tool. Each public operation (install,
uninstall, dev start/end, sync, port-forward, describe, reset, the config
operations and plugin info) builds a mutable argument list: the executable,
the verb, the target name, its own options in a fixed order, and finally,
through `execute`, the global options `--debug` and `--kubeconfig`. The
process is then run, and its exit status decides the result: status 0
returns the captured output, anything else throws with that output as the
message.

Files (one module each):

- `wrappers.dfy` — `Option` (a Java reference that may be `null`) and
  `Result` (a value, or an exception and its message).
- `options.dfy` — the option objects as datatypes; every one carries the
  global options its Java class inherits.
- `rendering.dfy` — the specification: each operation's options as a table
  of fields in append order, what each kind of field writes, the `--set`
  value built by the stream fold, and the vector of every operation.
- `parsing.dfy` — an independent reader of vectors, and round-trip lemmas:
  reading an operation's vector back gives the name and exactly what the
  vector keeps of every option. This shows that each option is written at
  its own place, only when set, and that nothing else is written.
- `command.dfy` — the imperative model. `ArgList` is the `ArrayList` the
  operations append to. `AddGlobalOptions` and `Execute` call it, and one
  method per public operation follows the Java body call for call. Each
  method is proved to build exactly the specified vector and to return
  exactly what the exit status requires.

Quirks of the source are kept as the code has them:

- The `--set` value is `","` followed by the `key=value` entries run
  together with no separator. A non-null map always yields `--set`, even an
  empty one, which yields `--set ,`. The leading comma looks unintended;
  the model keeps it.
- List elements are not filtered, so empty strings are written.
- `getConfig` appends the global block twice.
- `saveConfig` uses the verb `config get`.
- `reset` uses `dev reset`.

## Model

| member | source | states |
|---|---|---|
| NhctlCommand.Outcome | src/main/java/dev/nocalhost/plugin/intellij/commands/NhctlCommand.java:283-287 | The result is Ok exactly when the exit status is 0. Ok carries the output unchanged; the error's message is exactly the output. |
| NhctlCommand.Completion | src/main/java/dev/nocalhost/plugin/intellij/commands/NhctlCommand.java:110 | A void operation completes exactly when `execute` returns, and otherwise throws `execute`'s message. |
| NhctlCommand.ArgList.constructor | src/main/java/dev/nocalhost/plugin/intellij/commands/NhctlCommand.java:40 | A new list holds exactly its initial tokens and no option fields. |
| NhctlCommand.ArgList.AddIfNotEmpty | src/main/java/dev/nocalhost/plugin/intellij/commands/NhctlCommand.java:41-44 | Appends `flag value` when the value is non-null and non-empty, and nothing otherwise. The list stays in step with the field table. |
| NhctlCommand.ArgList.AddIfTrue | src/main/java/dev/nocalhost/plugin/intellij/commands/NhctlCommand.java:73-75 | Appends the lone flag when the option is true, and nothing otherwise. |
| NhctlCommand.ArgList.AppendPairs | src/main/java/dev/nocalhost/plugin/intellij/commands/NhctlCommand.java:85-88 | The `for` loop appends one `flag element` pair per element, in order. |
| NhctlCommand.ArgList.AddEach | src/main/java/dev/nocalhost/plugin/intellij/commands/NhctlCommand.java:84-89 | A non-null list option appends its pairs, empty elements included. A null list appends nothing. |
| NhctlCommand.ArgList.AddPair | src/main/java/dev/nocalhost/plugin/intellij/commands/NhctlCommand.java:260-261 | Appends `--content` and the content unconditionally. |
| NhctlCommand.AddGlobalOptions | src/main/java/dev/nocalhost/plugin/intellij/commands/NhctlCommand.java:290-298 | Appends exactly the global block to the list it is given, and nothing else. |
| NhctlCommand.Execute | src/main/java/dev/nocalhost/plugin/intellij/commands/NhctlCommand.java:274-288 | Appends the global block, then runs the resulting list. Returns the exit-status decision for that list. |
| NhctlCommand.Install | src/main/java/dev/nocalhost/plugin/intellij/commands/NhctlCommand.java:39-111 | The vector run is `InstallArgv`: prefix `nhctl install name`, then the install fields in source order, then the global block. The result is that run's decision. |
| NhctlCommand.Uninstall | src/main/java/dev/nocalhost/plugin/intellij/commands/NhctlCommand.java:113-120 | The vector run is `nhctl uninstall name [--force]` plus the global block. The result is that run's decision. |
| NhctlCommand.DevStart | src/main/java/dev/nocalhost/plugin/intellij/commands/NhctlCommand.java:122-156 | The vector run is `DevStartArgv` (verb `dev start`). The result is that run's decision. |
| NhctlCommand.DevEnd | src/main/java/dev/nocalhost/plugin/intellij/commands/NhctlCommand.java:158-166 | The vector run is `DevEndArgv` (verb `dev end`, optional `--deployment`). The result is that run's decision. |
| NhctlCommand.Sync | src/main/java/dev/nocalhost/plugin/intellij/commands/NhctlCommand.java:168-194 | The vector run is `SyncArgv`. The result is that run's decision. |
| NhctlCommand.PortForward | src/main/java/dev/nocalhost/plugin/intellij/commands/NhctlCommand.java:196-213 | The vector run is `PortForwardArgv`. The result is that run's decision. |
| NhctlCommand.Describe | src/main/java/dev/nocalhost/plugin/intellij/commands/NhctlCommand.java:215-223 | The vector run is `DescribeArgv`. The result is the output on status 0, before YAML decoding. |
| NhctlCommand.Reset | src/main/java/dev/nocalhost/plugin/intellij/commands/NhctlCommand.java:225-232 | The vector run is `ResetArgv`, under the verb `dev reset`. The result is that run's decision. |
| NhctlCommand.GetConfig | src/main/java/dev/nocalhost/plugin/intellij/commands/NhctlCommand.java:234-243 | The vector run is `GetConfigArgv`, which carries the global block twice. The output is returned verbatim on status 0. |
| NhctlCommand.GetTemplateConfig | src/main/java/dev/nocalhost/plugin/intellij/commands/NhctlCommand.java:245-252 | The vector run is `GetTemplateConfigArgv` (verb `config template`). The result is that run's decision. |
| NhctlCommand.SaveConfig | src/main/java/dev/nocalhost/plugin/intellij/commands/NhctlCommand.java:254-263 | The vector run is `SaveConfigArgv`: verb `config get`, optional `--deployment`, then `--content content`. The result is that run's decision. |
| NhctlCommand.GetPluginInfo | src/main/java/dev/nocalhost/plugin/intellij/commands/NhctlCommand.java:265-272 | The vector run is `PluginInfoArgv` (verb `plugin get`). The result is that run's decision. |
| Rendering.PairsLayout | src/main/java/dev/nocalhost/plugin/intellij/commands/NhctlCommand.java:84-89 | A list option writes exactly 2·n tokens: the flag at every even position and element k right after the k-th flag. No element is dropped. |
| Rendering.ReduceConcatIsConcat | src/main/java/dev/nocalhost/plugin/intellij/commands/NhctlCommand.java:96 | The left fold `reduce(identity, String::concat)` is the identity followed by the plain concatenation of the elements. |
| Rendering.SetValue | src/main/java/dev/nocalhost/plugin/intellij/commands/NhctlCommand.java:90-96 | The `--set` value is "," followed by the `key=value` entries concatenated with no separator. It is never empty and always starts with a comma. |
| Rendering.SetAlwaysEmitted | src/main/java/dev/nocalhost/plugin/intellij/commands/NhctlCommand.java:90-101 | A non-null map always writes `--set` and its value. An empty map writes `--set ,`. |
| Rendering.SetValueJoinsEntries | src/main/java/dev/nocalhost/plugin/intellij/commands/NhctlCommand.java:91-96 | Two entries run together: `,k1=v1k2=v2`. |
| Rendering.GlobalArgsFields | src/main/java/dev/nocalhost/plugin/intellij/commands/NhctlCommand.java:290-298 | The global block is what its two fields write, `--debug` first. |
| Rendering.GlobalArgsLayout | src/main/java/dev/nocalhost/plugin/intellij/commands/NhctlCommand.java:290-298 | The global block is `--debug` if debugging, then `--kubeconfig path` if the path is non-empty. |
| Rendering.CommandLayout | src/main/java/dev/nocalhost/plugin/intellij/commands/NhctlCommand.java:274-275 | Every vector begins with `nhctl`, the verb and the name. It ends with the global block, with nothing after it. |
| Rendering.GetConfigRepeatsGlobals | src/main/java/dev/nocalhost/plugin/intellij/commands/NhctlCommand.java:234-243 | `getConfig`'s vector is the ordinary `config get` vector plus a second copy of the global block: `nhctl config get name [--deployment d]`, then the block, then the block again. |
| Rendering.SaveConfigLayout | src/main/java/dev/nocalhost/plugin/intellij/commands/NhctlCommand.java:254-262 | `saveConfig` writes `nhctl config get name`, the optional `--deployment` pair, `--content content` whatever the content, then the global block. |
| ArgvParsing.ParseRendered | src/main/java/dev/nocalhost/plugin/intellij/commands/NhctlCommand.java:41-108 | For any field table with distinct flags, the reader recovers from the rendered tokens exactly the retained value of every field, and consumes them all. |
| ArgvParsing.CommandRoundTrip | src/main/java/dev/nocalhost/plugin/intellij/commands/NhctlCommand.java:274-298 | Any operation's whole vector reads back to its name and the retained values of its fields and global fields. |
| ArgvParsing.InstallRoundTrip | src/main/java/dev/nocalhost/plugin/intellij/commands/NhctlCommand.java:39-111 | The install vector reads back to the name and, slot by slot in the source's order, the value of the option field that slot belongs to (`InstallValues`, written from the options): each string option unless empty, both switches, the resource paths, the `--set` text, then the global options. |
| ArgvParsing.InstallRetained | src/main/java/dev/nocalhost/plugin/intellij/commands/NhctlCommand.java:41-108 | Field by field, each install table entry carries the option field its flag belongs to: what the table keeps equals `InstallValues`, which is written from the option fields alone. |
| ArgvParsing.SetKept | src/main/java/dev/nocalhost/plugin/intellij/commands/NhctlCommand.java:97-100 | The `--set` value is never empty, so the non-emptiness guard never drops it. |
| ArgvParsing.UninstallRoundTrip | src/main/java/dev/nocalhost/plugin/intellij/commands/NhctlCommand.java:113-120 | The uninstall vector reads back to the name, `force` and the global options. |
| ArgvParsing.DevStartRoundTrip | src/main/java/dev/nocalhost/plugin/intellij/commands/NhctlCommand.java:122-156 | The dev-start vector reads back to the name and, in source order, deployment, image, local-sync list, sidecar image, storage class, syncthing version and work dir as the options hold them (`DevStartValues`), then the global options. |
| ArgvParsing.DevStartRetained | src/main/java/dev/nocalhost/plugin/intellij/commands/NhctlCommand.java:124-153 | Each dev-start table entry carries the option field its flag belongs to: what the table keeps equals `DevStartValues`. |
| ArgvParsing.SyncRoundTrip | src/main/java/dev/nocalhost/plugin/intellij/commands/NhctlCommand.java:168-194 | The sync vector reads back to the name and `daemon`, the deployment, `doubleSideSync`, the ignored and synced patterns as the options hold them (`SyncValues`), then the global options. |
| ArgvParsing.PortForwardRoundTrip | src/main/java/dev/nocalhost/plugin/intellij/commands/NhctlCommand.java:196-213 | The port-forward vector reads back to the name, `daemon`, the deployment and the dev ports as the options hold them, then the global options. |
| ArgvParsing.DeploymentRoundTrip | src/main/java/dev/nocalhost/plugin/intellij/commands/NhctlCommand.java:158-166 | A vector of the deployment-only operations reads back to the name, the deployment and the global options, whatever the verb. This covers devEnd, describe, reset, getTemplateConfig and getPluginInfo. |
| ArgvParsing.SaveConfigRoundTrip | src/main/java/dev/nocalhost/plugin/intellij/commands/NhctlCommand.java:254-263 | The save-config vector reads back to the name, the deployment, the content and the global options. |
| ArgvParsing.GetConfigRoundTrip | src/main/java/dev/nocalhost/plugin/intellij/commands/NhctlCommand.java:234-243 | Without its trailing second global block, `getConfig`'s vector reads back like an ordinary `config` vector. |
| ArgvParsing.InstallArgvDeterminesOptions | src/main/java/dev/nocalhost/plugin/intellij/commands/NhctlCommand.java:39-111 | Equal install vectors mean equal names and options that agree on everything the vector keeps. This includes both switches, the debug flag and whether the config is set. |

## Left out

- Starting the process, merging its standard error into its standard
  output, reading that output as UTF-8 and waiting for it
  (NhctlCommand.java:280-283). The model takes a `run` function from the
  vector to an output and an exit status. I/O failures and interruption are
  not modelled.
- YAML decoding of the `describe` output (NhctlCommand.java:31-37, 222).
  It is a third-party library. `Describe` returns the undecoded text.
- The console line that `execute` prints: the arguments joined with spaces
  (NhctlCommand.java:277-278). It has no effect on the result.
- The iteration order of the values map. The map is taken as the sequence
  of its entries in that order, so keys are not required to be distinct.
- `null` as a target name, as a list element, as the content or inside the
  values map. Java would add the null reference or write the string "null".
  The model's strings are never null.
- The option classes of devEnd, describe, reset, the config operations and
  plugin info are not part of this model. The command reads nothing of
  them but `getDeployment()` and the global getters
  (NhctlCommand.java:158-272), so they share one datatype,
  `DeploymentOptions`, holding just those.
- NocalhostDebugRunner.java and Config.java are not part of this model.
  They are debugger wiring and an editor action that calls `getConfig`.
