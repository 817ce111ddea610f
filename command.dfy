/** `NhctlCommand`: every operation creates its argument list with the
    executable, the verb and the target name, appends its options one by
    one, and hands the list to `execute`, which appends the global
    options, runs `nhctl` and decides the outcome from the exit status.

    Running the process is a parameter, `run`: it stands for spawning
    `nhctl` with the list, merging its standard error into its standard
    output, reading that text to the end and waiting for the exit status. */
module NhctlCommand {
  import opened Wrappers
  import opened NhctlOptions
  import opened Rendering

  /** What one run of the process yields: its merged output and its exit status. */
  datatype ProcessOutcome = ProcessOutcome(output: string, exitCode: int)

  /** Running `nhctl` with an argument vector. */
  type Runner = seq<string> -> ProcessOutcome

  /** `execute`'s decision: the output on exit status 0, otherwise an
      error whose message is the output. */
  function Outcome(p: ProcessOutcome): (r: Result<string>)
    ensures r.Ok? <==> p.exitCode == 0
    ensures r.Ok? ==> r.value == p.output
    ensures r.Err? ==> r.message == p.output
  {
    if p.exitCode != 0 then Err(p.output) else Ok(p.output)
  }

  /** What an operation that returns nothing makes of `execute`'s result:
      it completes, or it throws with the same message. */
  function Completion(e: Result<string>): (r: Result<()>)
    ensures r.Ok? <==> e.Ok?
    ensures r.Err? ==> r.message == e.message
  {
    match e
    case Ok(_) => Ok(())
    case Err(message) => Err(message)
  }

  /** The mutable argument list an operation builds. */
  class ArgList {
    var items: seq<string>
    /** The tokens the list was created with. */
    ghost var head: seq<string>
    /** The option fields appended since, in order. */
    ghost var fields: seq<Field>

    ghost predicate Valid()
      reads this
    {
      items == head + Render(fields)
    }

    /** `Lists.newArrayList(...)`. */
    constructor (initial: seq<string>)
      ensures Valid() && head == initial && fields == []
      ensures items == initial
    {
      items := initial;
      head := initial;
      fields := [];
    }

    /** A string option: the flag and the value, when the value is not empty. */
    method AddIfNotEmpty(flag: string, value: Option<string>)
      requires Valid()
      modifies this
      ensures Valid() && head == old(head) && fields == old(fields) + [Valued(flag, value)]
      ensures items == old(items) + (if IsNotEmpty(value) then [flag, value.value] else [])
    {
      ghost var start := items;
      if IsNotEmpty(value) {
        items := items + [flag];
        items := items + [value.value];
        assert items == start + [flag, value.value];
      }
      assert items == start + RenderField(Valued(flag, value));
      RenderSnoc(fields, Valued(flag, value));
      fields := fields + [Valued(flag, value)];
    }

    /** A boolean option: the flag alone, when the option is true. */
    method AddIfTrue(flag: string, on: bool)
      requires Valid()
      modifies this
      ensures Valid() && head == old(head) && fields == old(fields) + [Switch(flag, on)]
      ensures items == old(items) + (if on then [flag] else [])
    {
      ghost var start := items;
      if on {
        items := items + [flag];
      }
      assert items == start + RenderField(Switch(flag, on));
      RenderSnoc(fields, Switch(flag, on));
      fields := fields + [Switch(flag, on)];
    }

    /** The `for` loop of a list option: one `flag element` pair per element. */
    method AppendPairs(flag: string, xs: seq<string>)
      modifies this
      ensures head == old(head) && fields == old(fields)
      ensures items == old(items) + Pairs(flag, xs)
    {
      for i := 0 to |xs|
        invariant head == old(head) && fields == old(fields)
        invariant items == old(items) + Pairs(flag, xs[..i])
      {
        items := items + [flag];
        items := items + [xs[i]];
        PairsSnoc(flag, xs[..i], xs[i]);
        assert xs[..i + 1] == xs[..i] + [xs[i]];
      }
      assert xs[..|xs|] == xs;
    }

    /** A list option: the flag and the element, for every element of a
        non-null list. */
    method AddEach(flag: string, values: Option<seq<string>>)
      requires Valid()
      modifies this
      ensures Valid() && head == old(head) && fields == old(fields) + [Repeated(flag, values)]
      ensures items == old(items) + (if values.Some? then Pairs(flag, values.value) else [])
    {
      ghost var start := items;
      if values.Some? {
        AppendPairs(flag, values.value);
      }
      assert items == start + RenderField(Repeated(flag, values));
      RenderSnoc(fields, Repeated(flag, values));
      fields := fields + [Repeated(flag, values)];
    }

    /** An option written whatever its value is: the flag and the value. */
    method AddPair(flag: string, value: string)
      requires Valid()
      modifies this
      ensures Valid() && head == old(head) && fields == old(fields) + [Always(flag, value)]
      ensures items == old(items) + [flag, value]
    {
      items := items + [flag];
      items := items + [value];
      RenderSnoc(fields, Always(flag, value));
      fields := fields + [Always(flag, value)];
    }
  }

  /** `addGlobalOptions`: appends `--debug` when debugging, then the
      kubeconfig path when it is not empty, to the list it is given. */
  method AddGlobalOptions(args: ArgList, g: GlobalOptions)
    requires args.Valid()
    modifies args
    ensures args.Valid() && args.head == old(args.head)
    ensures args.fields == old(args.fields) + GlobalFields(g)
    ensures args.items == old(args.items) + GlobalArgs(g)
  {
    ghost var start := args.items;
    args.AddIfTrue("--debug", g.debug);
    args.AddIfNotEmpty("--kubeconfig", g.kubeconfig);
    GlobalArgsFields(g);
    assert args.items == start + (RenderField(GlobalFields(g)[0]) + RenderField(GlobalFields(g)[1]));
    assert args.fields == old(args.fields) + GlobalFields(g);
  }

  /** `execute`: appends the global options to the list, runs it and
      classifies the exit status. */
  method Execute(args: ArgList, g: GlobalOptions, run: Runner) returns (r: Result<string>)
    requires args.Valid()
    modifies args
    ensures args.Valid() && args.head == old(args.head)
    ensures args.fields == old(args.fields) + GlobalFields(g)
    ensures args.items == old(args.items) + GlobalArgs(g)
    ensures r == Outcome(run(args.items))
  {
    AddGlobalOptions(args, g);
    var process := run(args.items);
    r := Outcome(process);
  }

  method Install(name: string, opts: InstallOptions, run: Runner) returns (argv: seq<string>, r: Result<()>)
    ensures argv == InstallArgv(name, opts)
    ensures r == Completion(Outcome(run(argv)))
  {
    var args := new ArgList([Nhctl] + ["install"] + [name]);
    args.AddIfNotEmpty("--config", opts.config);
    assert args.fields == [Valued("--config", opts.config)];
    args.AddIfNotEmpty("--git-ref", opts.gitRef);
    args.AddIfNotEmpty("--git-url", opts.gitUrl);
    args.AddIfNotEmpty("--helm-chart-name", opts.helmChartName);
    args.AddIfNotEmpty("--helm-repo-name", opts.helmRepoName);
    args.AddIfNotEmpty("--helm-repo-url", opts.helmRepoUrl);
    args.AddIfNotEmpty("--helm-repo-version", opts.helmRepoVersion);
    args.AddIfNotEmpty("--helm-values", opts.helmValues);
    args.AddIfTrue("--ignore-pre-install", opts.ignorePreInstall);
    args.AddIfNotEmpty("--namespace", opts.namespace);
    args.AddIfNotEmpty("--outer-config", opts.outerConfig);
    args.AddEach("--resource-path", opts.resourcesPath);
    args.AddIfNotEmpty("--set", SetOption(opts.values));
    args.AddIfNotEmpty("--type", opts.appType);
    args.AddIfTrue("--wait", opts.wait);
    assert args.fields == InstallFields(opts);
    var output := Execute(args, opts.global, run);
    argv := args.items;
    r := Completion(output);
  }

  method Uninstall(name: string, opts: UninstallOptions, run: Runner) returns (argv: seq<string>, r: Result<()>)
    ensures argv == UninstallArgv(name, opts)
    ensures r == Completion(Outcome(run(argv)))
  {
    var args := new ArgList([Nhctl] + ["uninstall"] + [name]);
    args.AddIfTrue("--force", opts.force);
    assert args.fields == UninstallFields(opts);
    var output := Execute(args, opts.global, run);
    argv := args.items;
    r := Completion(output);
  }

  method DevStart(name: string, opts: DevStartOptions, run: Runner) returns (argv: seq<string>, r: Result<()>)
    ensures argv == DevStartArgv(name, opts)
    ensures r == Completion(Outcome(run(argv)))
  {
    var args := new ArgList([Nhctl] + ["dev", "start"] + [name]);
    args.AddIfNotEmpty("--deployment", opts.deployment);
    assert args.fields == [Valued("--deployment", opts.deployment)];
    args.AddIfNotEmpty("--image", opts.image);
    args.AddEach("--local-sync", opts.localSync);
    args.AddIfNotEmpty("--sidecar-image", opts.sidecarImage);
    args.AddIfNotEmpty("--storage-class", opts.storageClass);
    args.AddIfNotEmpty("--syncthing-version", opts.syncthingVersion);
    args.AddIfNotEmpty("--work-dir", opts.workDir);
    assert args.fields == DevStartFields(opts);
    var output := Execute(args, opts.global, run);
    argv := args.items;
    r := Completion(output);
  }

  method DevEnd(name: string, opts: DeploymentOptions, run: Runner) returns (argv: seq<string>, r: Result<()>)
    ensures argv == DevEndArgv(name, opts)
    ensures r == Completion(Outcome(run(argv)))
  {
    var args := new ArgList([Nhctl] + ["dev", "end"] + [name]);
    args.AddIfNotEmpty("--deployment", opts.deployment);
    assert args.fields == DeploymentFields(opts);
    var output := Execute(args, opts.global, run);
    argv := args.items;
    r := Completion(output);
  }

  method Sync(name: string, opts: SyncOptions, run: Runner) returns (argv: seq<string>, r: Result<()>)
    ensures argv == SyncArgv(name, opts)
    ensures r == Completion(Outcome(run(argv)))
  {
    var args := new ArgList([Nhctl] + ["sync"] + [name]);
    args.AddIfTrue("--daemon", opts.daemon);
    assert args.fields == [Switch("--daemon", opts.daemon)];
    args.AddIfNotEmpty("--deployment", opts.deployment);
    args.AddIfTrue("--double", opts.doubleSideSync);
    args.AddEach("--ignored-pattern", opts.ignoredPatterns);
    args.AddEach("--synced-pattern", opts.syncedPatterns);
    assert args.fields == SyncFields(opts);
    var output := Execute(args, opts.global, run);
    argv := args.items;
    r := Completion(output);
  }

  method PortForward(name: string, opts: PortForwardOptions, run: Runner) returns (argv: seq<string>, r: Result<()>)
    ensures argv == PortForwardArgv(name, opts)
    ensures r == Completion(Outcome(run(argv)))
  {
    var args := new ArgList([Nhctl] + ["port-forward"] + [name]);
    args.AddIfTrue("--daemon", opts.daemon);
    assert args.fields == [Switch("--daemon", opts.daemon)];
    args.AddIfNotEmpty("--deployment", opts.deployment);
    args.AddEach("--dev-port", opts.devPorts);
    assert args.fields == PortForwardFields(opts);
    var output := Execute(args, opts.global, run);
    argv := args.items;
    r := Completion(output);
  }

  /** `describe` returns the text that the source then decodes as YAML. */
  method Describe(name: string, opts: DeploymentOptions, run: Runner) returns (argv: seq<string>, r: Result<string>)
    ensures argv == DescribeArgv(name, opts)
    ensures r == Outcome(run(argv))
  {
    var args := new ArgList([Nhctl] + ["describe"] + [name]);
    args.AddIfNotEmpty("--deployment", opts.deployment);
    assert args.fields == DeploymentFields(opts);
    r := Execute(args, opts.global, run);
    argv := args.items;
  }

  method Reset(name: string, opts: DeploymentOptions, run: Runner) returns (argv: seq<string>, r: Result<()>)
    ensures argv == ResetArgv(name, opts)
    ensures r == Completion(Outcome(run(argv)))
  {
    var args := new ArgList([Nhctl] + ["dev", "reset"] + [name]);
    args.AddIfNotEmpty("--deployment", opts.deployment);
    assert args.fields == DeploymentFields(opts);
    var output := Execute(args, opts.global, run);
    argv := args.items;
    r := Completion(output);
  }

  /** `getConfig` calls `addGlobalOptions` itself before `execute` calls
      it again, and returns the output verbatim. */
  method GetConfig(name: string, opts: DeploymentOptions, run: Runner) returns (argv: seq<string>, r: Result<string>)
    ensures argv == GetConfigArgv(name, opts)
    ensures r == Outcome(run(argv))
  {
    var args := new ArgList([Nhctl] + ["config", "get"] + [name]);
    args.AddIfNotEmpty("--deployment", opts.deployment);
    assert args.fields == DeploymentFields(opts);
    AddGlobalOptions(args, opts.global);
    r := Execute(args, opts.global, run);
    argv := args.items;
  }

  method GetTemplateConfig(name: string, opts: DeploymentOptions, run: Runner) returns (argv: seq<string>, r: Result<()>)
    ensures argv == GetTemplateConfigArgv(name, opts)
    ensures r == Completion(Outcome(run(argv)))
  {
    var args := new ArgList([Nhctl] + ["config", "template"] + [name]);
    args.AddIfNotEmpty("--deployment", opts.deployment);
    assert args.fields == DeploymentFields(opts);
    var output := Execute(args, opts.global, run);
    argv := args.items;
    r := Completion(output);
  }

  method SaveConfig(name: string, opts: DeploymentOptions, content: string, run: Runner) returns (argv: seq<string>, r: Result<()>)
    ensures argv == SaveConfigArgv(name, opts, content)
    ensures r == Completion(Outcome(run(argv)))
  {
    var args := new ArgList([Nhctl] + ["config", "get"] + [name]);
    args.AddIfNotEmpty("--deployment", opts.deployment);
    assert args.fields == DeploymentFields(opts);
    args.AddPair("--content", content);
    var output := Execute(args, opts.global, run);
    argv := args.items;
    r := Completion(output);
  }

  method GetPluginInfo(name: string, opts: DeploymentOptions, run: Runner) returns (argv: seq<string>, r: Result<()>)
    ensures argv == PluginInfoArgv(name, opts)
    ensures r == Completion(Outcome(run(argv)))
  {
    var args := new ArgList([Nhctl] + ["plugin", "get"] + [name]);
    args.AddIfNotEmpty("--deployment", opts.deployment);
    assert args.fields == DeploymentFields(opts);
    var output := Execute(args, opts.global, run);
    argv := args.items;
    r := Completion(output);
  }
}
