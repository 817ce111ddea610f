/** A reader of argument vectors, the inverse of the rendering: walking a
    vector with the field table of its operation recovers every field,
    up to what the rendering does not keep (an empty string reads back as
    null, a null list as an empty one, a values map as its `--set` text).
    Reading back what was rendered shows that flag presence carries the
    options: no field's tokens can be mistaken for another's. */
module ArgvParsing {
  import opened Wrappers
  import opened NhctlOptions
  import opened Rendering

  /** How a field is written. */
  datatype Kind = ValuedKind | SwitchKind | RepeatedKind | AlwaysKind

  /** What a reader knows of a field: how it is written and its flag. */
  datatype Slot = Slot(kind: Kind, flag: string)

  /** What a vector keeps of a field. */
  datatype Value =
    | Text(text: Option<string>)
    | Flag(on: bool)
    | Items(items: seq<string>)
    | Payload(payload: string)

  function SlotOf(f: Field): Slot
  {
    match f
    case Valued(flag, _) => Slot(ValuedKind, flag)
    case Switch(flag, _) => Slot(SwitchKind, flag)
    case Repeated(flag, _) => Slot(RepeatedKind, flag)
    case Always(flag, _) => Slot(AlwaysKind, flag)
  }

  /** The slots of a field table, independent of its values. */
  function Schema(fs: seq<Field>): seq<Slot>
  {
    seq(|fs|, i requires 0 <= i < |fs| => SlotOf(fs[i]))
  }

  /** What a vector keeps of a string option: the string when it is not
      empty, otherwise nothing. */
  function Kept(s: Option<string>): Option<string>
  {
    if IsNotEmpty(s) then s else None
  }

  /** What a vector keeps of a list option: its elements, none for null. */
  function Listed(xs: Option<seq<string>>): seq<string>
  {
    if xs.Some? then xs.value else []
  }

  function Retained(f: Field): Value
  {
    match f
    case Valued(_, value) => Text(Kept(value))
    case Switch(_, on) => Flag(on)
    case Repeated(_, values) => Items(Listed(values))
    case Always(_, payload) => Payload(payload)
  }

  function RetainedAll(fs: seq<Field>): seq<Value>
  {
    seq(|fs|, i requires 0 <= i < |fs| => Retained(fs[i]))
  }

  /** No two slots share a flag. */
  predicate DistinctFlags(slots: seq<Slot>)
  {
    forall i, j :: 0 <= i < j < |slots| ==> slots[i].flag != slots[j].flag
  }

  /** No flag of `a` is a flag of `b`. */
  predicate Apart(a: seq<Slot>, b: seq<Slot>)
  {
    forall i, j :: 0 <= i < |a| && 0 <= j < |b| ==> a[i].flag != b[j].flag
  }

  /** Distinctness of a table follows from that of three consecutive blocks
      and of each pair of them. */
  lemma DistinctBlocks(s: seq<Slot>, m: nat, n: nat)
    requires m <= n <= |s|
    requires DistinctFlags(s[..m]) && DistinctFlags(s[m..n]) && DistinctFlags(s[n..])
    requires Apart(s[..m], s[m..n]) && Apart(s[..m], s[n..]) && Apart(s[m..n], s[n..])
    ensures DistinctFlags(s)
  {
    forall i, j | 0 <= i < j < |s|
      ensures s[i].flag != s[j].flag
    {
      if j < m {
        assert s[..m][i] == s[i] && s[..m][j] == s[j];
      } else if i >= n {
        assert s[n..][i - n] == s[i] && s[n..][j - n] == s[j];
      } else if i >= m && j < n {
        assert s[m..n][i - m] == s[i] && s[m..n][j - m] == s[j];
      } else if i < m && j < n {
        assert s[..m][i] == s[i] && s[m..n][j - m] == s[j];
      } else if i < m {
        assert s[..m][i] == s[i] && s[n..][j - n] == s[j];
      } else {
        assert s[m..n][i - m] == s[i] && s[n..][j - n] == s[j];
      }
    }
  }

  /** Reads `flag x` pairs while they last; returns the elements and the
      tokens after them. */
  function TakeRepeated(flag: string, toks: seq<string>): (seq<string>, seq<string>)
    decreases |toks|
  {
    if |toks| >= 2 && toks[0] == flag then
      var (xs, rest) := TakeRepeated(flag, toks[2..]);
      ([toks[1]] + xs, rest)
    else
      ([], toks)
  }

  function Prepend(v: Value, rest: Option<seq<Value>>): Option<seq<Value>>
  {
    if rest.Some? then Some([v] + rest.value) else None
  }

  /** Reads the tokens after the name, slot by slot; fails unless every
      token is consumed. */
  function ParseFields(slots: seq<Slot>, toks: seq<string>): Option<seq<Value>>
    decreases |slots|
  {
    if slots == [] then
      if toks == [] then Some([]) else None
    else
      var s, more := slots[0], slots[1..];
      match s.kind
      case ValuedKind =>
        if |toks| >= 2 && toks[0] == s.flag then Prepend(Text(Some(toks[1])), ParseFields(more, toks[2..]))
        else Prepend(Text(None), ParseFields(more, toks))
      case SwitchKind =>
        if |toks| >= 1 && toks[0] == s.flag then Prepend(Flag(true), ParseFields(more, toks[1..]))
        else Prepend(Flag(false), ParseFields(more, toks))
      case RepeatedKind =>
        var (items, rest) := TakeRepeated(s.flag, toks);
        Prepend(Items(items), ParseFields(more, rest))
      case AlwaysKind =>
        if |toks| >= 2 && toks[0] == s.flag then Prepend(Payload(toks[1]), ParseFields(more, toks[2..]))
        else None
  }

  /** Reads a whole vector: the executable, the verb, the name, then the
      fields. */
  function ParseArgv(verb: seq<string>, slots: seq<Slot>, argv: seq<string>): Option<(string, seq<Value>)>
  {
    var n := |verb| + 2;
    if |argv| >= n && argv[0] == Nhctl && argv[1..n - 1] == verb then
      match ParseFields(slots, argv[n..])
      case Some(vs) => Some((argv[n - 1], vs))
      case None => None
    else
      None
  }

  /** A table none of whose fields uses `flag` renders to tokens that do
      not start with `flag`. */
  lemma {:induction false} RenderAvoids(fs: seq<Field>, flag: string)
    requires forall i :: 0 <= i < |fs| ==> fs[i].flag != flag
    ensures Render(fs) == [] || Render(fs)[0] != flag
  {
    if fs != [] {
      if RenderField(fs[0]) == [] {
        RenderAvoids(fs[1..], flag);
      }
    }
  }

  /** The pairs of a list option read back as the list, when the next
      token is not the same flag. */
  lemma {:induction false} TakePairs(flag: string, xs: seq<string>, rest: seq<string>)
    requires rest == [] || rest[0] != flag
    ensures TakeRepeated(flag, Pairs(flag, xs) + rest) == (xs, rest)
  {
    if xs == [] {
      assert Pairs(flag, xs) + rest == rest;
    } else {
      var toks := Pairs(flag, xs) + rest;
      assert toks == [flag, xs[0]] + (Pairs(flag, xs[1..]) + rest);
      assert toks[2..] == Pairs(flag, xs[1..]) + rest;
      TakePairs(flag, xs[1..], rest);
      assert [xs[0]] + xs[1..] == xs;
    }
  }

  /** Reading one rendered field yields what the vector keeps of it, and
      leaves the tokens after it, when those do not start with its flag. */
  lemma ParseOne(f: Field, more: seq<Slot>, toks: seq<string>)
    requires toks == [] || toks[0] != f.flag
    ensures ParseFields([SlotOf(f)] + more, RenderField(f) + toks) == Prepend(Retained(f), ParseFields(more, toks))
  {
    var slots := [SlotOf(f)] + more;
    assert slots[0] == SlotOf(f) && slots[1..] == more;
    var all := RenderField(f) + toks;
    match f
    case Valued(flag, value) =>
      if IsNotEmpty(value) {
        assert all == [flag, value.value] + toks;
        assert all[2..] == toks;
      } else {
        assert all == toks;
      }
    case Switch(flag, on) =>
      if on {
        assert all == [flag] + toks;
        assert all[1..] == toks;
      } else {
        assert all == toks;
      }
    case Repeated(flag, values) =>
      var xs := if values.Some? then values.value else [];
      assert all == Pairs(flag, xs) + toks;
      TakePairs(flag, xs, toks);
    case Always(flag, payload) =>
      assert all == [flag, payload] + toks;
      assert all[2..] == toks;
  }

  /** Distinct flags stay distinct in the tail, and the head's flag does
      not occur there. */
  lemma DistinctTail(fs: seq<Field>)
    requires fs != [] && DistinctFlags(Schema(fs))
    ensures Schema(fs) == [SlotOf(fs[0])] + Schema(fs[1..])
    ensures DistinctFlags(Schema(fs[1..]))
    ensures forall i :: 0 <= i < |fs[1..]| ==> fs[1..][i].flag != fs[0].flag
  {
    var slots, rest := Schema(fs), fs[1..];
    assert slots == [SlotOf(fs[0])] + Schema(rest);
    forall i, j | 0 <= i < j < |rest|
      ensures Schema(rest)[i].flag != Schema(rest)[j].flag
    {
      assert Schema(rest)[i] == slots[i + 1] && Schema(rest)[j] == slots[j + 1];
    }
    forall i | 0 <= i < |rest|
      ensures rest[i].flag != fs[0].flag
    {
      assert slots[0].flag != slots[i + 1].flag;
      assert slots[i + 1] == SlotOf(rest[i]);
    }
  }

  /** Round trip: reading a rendered table with its own slots recovers
      what the vector keeps of every field. */
  lemma {:induction false} ParseRendered(fs: seq<Field>)
    requires DistinctFlags(Schema(fs))
    ensures ParseFields(Schema(fs), Render(fs)) == Some(RetainedAll(fs))
  {
    if fs != [] {
      var f, rest := fs[0], fs[1..];
      DistinctTail(fs);
      ParseRendered(rest);
      RenderAvoids(rest, f.flag);
      ParseOne(f, Schema(rest), Render(rest));
      assert RetainedAll(fs) == [Retained(f)] + RetainedAll(rest);
    }
  }

  /** Round trip for a whole vector: the reader recovers the name and the
      retained value of every field, the global ones included. */
  lemma CommandRoundTrip(verb: seq<string>, name: string, fs: seq<Field>, g: GlobalOptions, slots: seq<Slot>)
    requires Schema(fs + GlobalFields(g)) == slots
    requires DistinctFlags(slots)
    ensures ParseArgv(verb, slots, Command(verb, name, fs, g)) == Some((name, RetainedAll(fs + GlobalFields(g))))
  {
    var argv := Command(verb, name, fs, g);
    var n := |verb| + 2;
    ParseRendered(fs + GlobalFields(g));
    assert argv[0] == Nhctl;
    assert argv[1..n - 1] == verb;
    assert argv[n - 1] == name;
    assert argv[n..] == Render(fs + GlobalFields(g));
  }

  // ---------------------------------------------------------------------
  // The slots a reader uses for each operation, and the round trips
  // ---------------------------------------------------------------------

  const GlobalSlots: seq<Slot> := [Slot(SwitchKind, "--debug"), Slot(ValuedKind, "--kubeconfig")]

  /** What a vector keeps of the global options, read off the options. */
  function GlobalValues(g: GlobalOptions): seq<Value>
  {
    [Flag(g.debug), Text(Kept(g.kubeconfig))]
  }

  lemma RetainedAppend(a: seq<Field>, b: seq<Field>)
    ensures RetainedAll(a + b) == RetainedAll(a) + RetainedAll(b)
  {
  }

  lemma GlobalRetained(g: GlobalOptions)
    ensures RetainedAll(GlobalFields(g)) == GlobalValues(g)
  {
  }

  const InstallSlots: seq<Slot> :=
    [ Slot(ValuedKind, "--config"),
      Slot(ValuedKind, "--git-ref"),
      Slot(ValuedKind, "--git-url"),
      Slot(ValuedKind, "--helm-chart-name"),
      Slot(ValuedKind, "--helm-repo-name"),
      Slot(ValuedKind, "--helm-repo-url"),
      Slot(ValuedKind, "--helm-repo-version"),
      Slot(ValuedKind, "--helm-values"),
      Slot(SwitchKind, "--ignore-pre-install"),
      Slot(ValuedKind, "--namespace"),
      Slot(ValuedKind, "--outer-config"),
      Slot(RepeatedKind, "--resource-path"),
      Slot(ValuedKind, "--set"),
      Slot(ValuedKind, "--type"),
      Slot(SwitchKind, "--wait") ]

  /** What an install vector keeps of the options, slot by slot, read off
      the option fields. */
  function InstallValues(o: InstallOptions): seq<Value>
  {
    [Text(Kept(o.config))] +
    [Text(Kept(o.gitRef))] +
    [Text(Kept(o.gitUrl))] +
    [Text(Kept(o.helmChartName))] +
    [Text(Kept(o.helmRepoName))] +
    [Text(Kept(o.helmRepoUrl))] +
    [Text(Kept(o.helmRepoVersion))] +
    [Text(Kept(o.helmValues))] +
    [Flag(o.ignorePreInstall)] +
    [Text(Kept(o.namespace))] +
    [Text(Kept(o.outerConfig))] +
    [Items(Listed(o.resourcesPath))] +
    [Text(SetOption(o.values))] +
    [Text(Kept(o.appType))] +
    [Flag(o.wait)]
  }

  lemma InstallRoundTrip(name: string, o: InstallOptions)
    ensures ParseArgv(["install"], InstallSlots + GlobalSlots, InstallArgv(name, o))
         == Some((name, InstallValues(o) + GlobalValues(o.global)))
  {
    InstallSchema(o);
    InstallSlotsDistinct();
    CommandRoundTrip(["install"], name, InstallFields(o), o.global, InstallSlots + GlobalSlots);
    RetainedAppend(InstallFields(o), GlobalFields(o.global));
    InstallRetained(o);
    GlobalRetained(o.global);
  }

  lemma InstallSchema(o: InstallOptions)
    ensures Schema(InstallFields(o) + GlobalFields(o.global)) == InstallSlots + GlobalSlots
  {
  }

  /** Read back field by field, the install table keeps each option as
      the value listed for it. */
  lemma InstallRetained(o: InstallOptions)
    ensures RetainedAll(InstallFields(o)) == InstallValues(o)
  {
    SetKept(o.values);
    var fs := [Valued("--config", o.config)];
    assert RetainedAll(fs) == [Retained(Valued("--config", o.config))];
    RetainedSnoc(fs, Valued("--git-ref", o.gitRef));
    fs := fs + [Valued("--git-ref", o.gitRef)];
    RetainedSnoc(fs, Valued("--git-url", o.gitUrl));
    fs := fs + [Valued("--git-url", o.gitUrl)];
    RetainedSnoc(fs, Valued("--helm-chart-name", o.helmChartName));
    fs := fs + [Valued("--helm-chart-name", o.helmChartName)];
    RetainedSnoc(fs, Valued("--helm-repo-name", o.helmRepoName));
    fs := fs + [Valued("--helm-repo-name", o.helmRepoName)];
    RetainedSnoc(fs, Valued("--helm-repo-url", o.helmRepoUrl));
    fs := fs + [Valued("--helm-repo-url", o.helmRepoUrl)];
    RetainedSnoc(fs, Valued("--helm-repo-version", o.helmRepoVersion));
    fs := fs + [Valued("--helm-repo-version", o.helmRepoVersion)];
    RetainedSnoc(fs, Valued("--helm-values", o.helmValues));
    fs := fs + [Valued("--helm-values", o.helmValues)];
    RetainedSnoc(fs, Switch("--ignore-pre-install", o.ignorePreInstall));
    fs := fs + [Switch("--ignore-pre-install", o.ignorePreInstall)];
    RetainedSnoc(fs, Valued("--namespace", o.namespace));
    fs := fs + [Valued("--namespace", o.namespace)];
    RetainedSnoc(fs, Valued("--outer-config", o.outerConfig));
    fs := fs + [Valued("--outer-config", o.outerConfig)];
    RetainedSnoc(fs, Repeated("--resource-path", o.resourcesPath));
    fs := fs + [Repeated("--resource-path", o.resourcesPath)];
    RetainedSnoc(fs, Valued("--set", SetOption(o.values)));
    fs := fs + [Valued("--set", SetOption(o.values))];
    RetainedSnoc(fs, Valued("--type", o.appType));
    fs := fs + [Valued("--type", o.appType)];
    RetainedSnoc(fs, Switch("--wait", o.wait));
    fs := fs + [Switch("--wait", o.wait)];
  }

  lemma RetainedSnoc(fs: seq<Field>, f: Field)
    ensures RetainedAll(fs + [f]) == RetainedAll(fs) + [Retained(f)]
  {
  }

  /** The `--set` value is never empty, so the vector keeps it whole. */
  lemma SetKept(values: Option<seq<(string, string)>>)
    ensures Kept(SetOption(values)) == SetOption(values)
  {
  }

  /** The install flags are pairwise distinct: checked in three blocks of
      the table and across each pair of blocks. */
  lemma InstallSlotsDistinct()
    ensures DistinctFlags(InstallSlots + GlobalSlots)
  {
    var s := InstallSlots + GlobalSlots;
    InstallBlocksDistinct();
    InstallBlocksApart();
    DistinctBlocks(s, 6, 12);
  }

  lemma InstallBlocksDistinct()
    ensures DistinctFlags((InstallSlots + GlobalSlots)[..6])
    ensures DistinctFlags((InstallSlots + GlobalSlots)[6..12])
    ensures DistinctFlags((InstallSlots + GlobalSlots)[12..])
  {
  }

  lemma InstallBlocksApart()
    ensures Apart((InstallSlots + GlobalSlots)[..6], (InstallSlots + GlobalSlots)[6..12])
    ensures Apart((InstallSlots + GlobalSlots)[..6], (InstallSlots + GlobalSlots)[12..])
    ensures Apart((InstallSlots + GlobalSlots)[6..12], (InstallSlots + GlobalSlots)[12..])
  {
  }

  const UninstallSlots: seq<Slot> := [Slot(SwitchKind, "--force")]

  lemma UninstallRoundTrip(name: string, o: UninstallOptions)
    ensures ParseArgv(["uninstall"], UninstallSlots + GlobalSlots, UninstallArgv(name, o))
         == Some((name, [Flag(o.force)] + GlobalValues(o.global)))
  {
    var fs := UninstallFields(o) + GlobalFields(o.global);
    assert Schema(fs) == UninstallSlots + GlobalSlots;
    CommandRoundTrip(["uninstall"], name, UninstallFields(o), o.global, UninstallSlots + GlobalSlots);
    assert RetainedAll(fs) == [Flag(o.force)] + GlobalValues(o.global);
  }

  const DevStartSlots: seq<Slot> :=
    [ Slot(ValuedKind, "--deployment"),
      Slot(ValuedKind, "--image"),
      Slot(RepeatedKind, "--local-sync"),
      Slot(ValuedKind, "--sidecar-image"),
      Slot(ValuedKind, "--storage-class"),
      Slot(ValuedKind, "--syncthing-version"),
      Slot(ValuedKind, "--work-dir") ]

  function DevStartValues(o: DevStartOptions): seq<Value>
  {
    [Text(Kept(o.deployment))] +
    [Text(Kept(o.image))] +
    [Items(Listed(o.localSync))] +
    [Text(Kept(o.sidecarImage))] +
    [Text(Kept(o.storageClass))] +
    [Text(Kept(o.syncthingVersion))] +
    [Text(Kept(o.workDir))]
  }

  lemma DevStartRoundTrip(name: string, o: DevStartOptions)
    ensures ParseArgv(["dev", "start"], DevStartSlots + GlobalSlots, DevStartArgv(name, o))
         == Some((name, DevStartValues(o) + GlobalValues(o.global)))
  {
    assert Schema(DevStartFields(o) + GlobalFields(o.global)) == DevStartSlots + GlobalSlots;
    DevStartSlotsDistinct();
    CommandRoundTrip(["dev", "start"], name, DevStartFields(o), o.global, DevStartSlots + GlobalSlots);
    RetainedAppend(DevStartFields(o), GlobalFields(o.global));
    DevStartRetained(o);
    GlobalRetained(o.global);
  }

  lemma DevStartRetained(o: DevStartOptions)
    ensures RetainedAll(DevStartFields(o)) == DevStartValues(o)
  {
    var fs := [Valued("--deployment", o.deployment)];
    assert RetainedAll(fs) == [Retained(Valued("--deployment", o.deployment))];
    RetainedSnoc(fs, Valued("--image", o.image));
    fs := fs + [Valued("--image", o.image)];
    RetainedSnoc(fs, Repeated("--local-sync", o.localSync));
    fs := fs + [Repeated("--local-sync", o.localSync)];
    RetainedSnoc(fs, Valued("--sidecar-image", o.sidecarImage));
    fs := fs + [Valued("--sidecar-image", o.sidecarImage)];
    RetainedSnoc(fs, Valued("--storage-class", o.storageClass));
    fs := fs + [Valued("--storage-class", o.storageClass)];
    RetainedSnoc(fs, Valued("--syncthing-version", o.syncthingVersion));
    fs := fs + [Valued("--syncthing-version", o.syncthingVersion)];
    RetainedSnoc(fs, Valued("--work-dir", o.workDir));
    fs := fs + [Valued("--work-dir", o.workDir)];
  }

  lemma DevStartSlotsDistinct()
    ensures DistinctFlags(DevStartSlots + GlobalSlots)
  {
  }

  const SyncSlots: seq<Slot> :=
    [ Slot(SwitchKind, "--daemon"),
      Slot(ValuedKind, "--deployment"),
      Slot(SwitchKind, "--double"),
      Slot(RepeatedKind, "--ignored-pattern"),
      Slot(RepeatedKind, "--synced-pattern") ]

  function SyncValues(o: SyncOptions): seq<Value>
  {
    [ Flag(o.daemon),
      Text(Kept(o.deployment)),
      Flag(o.doubleSideSync),
      Items(Listed(o.ignoredPatterns)),
      Items(Listed(o.syncedPatterns)) ]
  }

  lemma SyncRoundTrip(name: string, o: SyncOptions)
    ensures ParseArgv(["sync"], SyncSlots + GlobalSlots, SyncArgv(name, o))
         == Some((name, SyncValues(o) + GlobalValues(o.global)))
  {
    assert Schema(SyncFields(o) + GlobalFields(o.global)) == SyncSlots + GlobalSlots;
    SyncSlotsDistinct();
    CommandRoundTrip(["sync"], name, SyncFields(o), o.global, SyncSlots + GlobalSlots);
    RetainedAppend(SyncFields(o), GlobalFields(o.global));
    assert RetainedAll(SyncFields(o)) == SyncValues(o);
    GlobalRetained(o.global);
  }

  lemma SyncSlotsDistinct()
    ensures DistinctFlags(SyncSlots + GlobalSlots)
  {
  }

  const PortForwardSlots: seq<Slot> :=
    [ Slot(SwitchKind, "--daemon"),
      Slot(ValuedKind, "--deployment"),
      Slot(RepeatedKind, "--dev-port") ]

  lemma PortForwardRoundTrip(name: string, o: PortForwardOptions)
    ensures ParseArgv(["port-forward"], PortForwardSlots + GlobalSlots, PortForwardArgv(name, o))
         == Some((name, [Flag(o.daemon), Text(Kept(o.deployment)), Items(Listed(o.devPorts))] + GlobalValues(o.global)))
  {
    assert Schema(PortForwardFields(o) + GlobalFields(o.global)) == PortForwardSlots + GlobalSlots;
    assert DistinctFlags(PortForwardSlots + GlobalSlots);
    CommandRoundTrip(["port-forward"], name, PortForwardFields(o), o.global, PortForwardSlots + GlobalSlots);
    RetainedAppend(PortForwardFields(o), GlobalFields(o.global));
    assert RetainedAll(PortForwardFields(o)) == [Flag(o.daemon), Text(Kept(o.deployment)), Items(Listed(o.devPorts))];
    GlobalRetained(o.global);
  }

  const DeploymentSlots: seq<Slot> := [Slot(ValuedKind, "--deployment")]

  /** The vectors of `devEnd`, `describe`, `reset`, `getTemplateConfig` and
      `getPluginInfo` differ only in their verb, and read back alike. */
  lemma DeploymentRoundTrip(verb: seq<string>, name: string, o: DeploymentOptions)
    ensures ParseArgv(verb, DeploymentSlots + GlobalSlots, Command(verb, name, DeploymentFields(o), o.global))
         == Some((name, [Text(Kept(o.deployment))] + GlobalValues(o.global)))
  {
    var fs := DeploymentFields(o) + GlobalFields(o.global);
    assert Schema(fs) == DeploymentSlots + GlobalSlots;
    CommandRoundTrip(verb, name, DeploymentFields(o), o.global, DeploymentSlots + GlobalSlots);
    assert RetainedAll(fs) == [Text(Kept(o.deployment))] + GlobalValues(o.global);
  }

  const SaveConfigSlots: seq<Slot> := [Slot(ValuedKind, "--deployment"), Slot(AlwaysKind, "--content")]

  lemma SaveConfigRoundTrip(name: string, o: DeploymentOptions, content: string)
    ensures ParseArgv(["config", "get"], SaveConfigSlots + GlobalSlots, SaveConfigArgv(name, o, content))
         == Some((name, [Text(Kept(o.deployment)), Payload(content)] + GlobalValues(o.global)))
  {
    var fs := DeploymentFields(o) + [Always("--content", content)];
    assert Schema(fs + GlobalFields(o.global)) == SaveConfigSlots + GlobalSlots;
    CommandRoundTrip(["config", "get"], name, fs, o.global, SaveConfigSlots + GlobalSlots);
    assert RetainedAll(fs + GlobalFields(o.global)) == [Text(Kept(o.deployment)), Payload(content)] + GlobalValues(o.global);
  }

  /** `getConfig`'s vector, once its second global block is set aside,
      reads back like any other `config` vector. */
  lemma GetConfigRoundTrip(name: string, o: DeploymentOptions)
    ensures var argv := GetConfigArgv(name, o);
            var k := |argv| - |GlobalArgs(o.global)|;
            0 <= k
            && argv[k..] == GlobalArgs(o.global)
            && ParseArgv(["config", "get"], DeploymentSlots + GlobalSlots, argv[..k])
               == Some((name, [Text(Kept(o.deployment))] + GlobalValues(o.global)))
  {
    var argv := GetConfigArgv(name, o);
    var single := Command(["config", "get"], name, DeploymentFields(o), o.global);
    GetConfigRepeatsGlobals(name, o);
    assert argv == single + GlobalArgs(o.global);
    assert argv[..|single|] == single;
    DeploymentRoundTrip(["config", "get"], name, o);
  }

  /** Two install vectors are equal only if their names are equal and
      their options agree on everything the vector keeps: the rendering
      loses nothing but the distinctions null/empty and the map's shape. */
  lemma InstallArgvDeterminesOptions(n1: string, o1: InstallOptions, n2: string, o2: InstallOptions)
    requires InstallArgv(n1, o1) == InstallArgv(n2, o2)
    ensures n1 == n2
    ensures InstallValues(o1) == InstallValues(o2) && GlobalValues(o1.global) == GlobalValues(o2.global)
    ensures o1.ignorePreInstall == o2.ignorePreInstall && o1.wait == o2.wait
    ensures o1.global.debug == o2.global.debug
    ensures IsNotEmpty(o1.config) <==> IsNotEmpty(o2.config)
  {
    InstallRoundTrip(n1, o1);
    InstallRoundTrip(n2, o2);
    var r1, r2 := InstallValues(o1), InstallValues(o2);
    assert r1 + GlobalValues(o1.global) == r2 + GlobalValues(o2.global);
    assert |r1| == |r2|;
    assert r1 == (r1 + GlobalValues(o1.global))[..15];
    assert r2 == (r2 + GlobalValues(o2.global))[..15];
    assert r1[0] == r2[0] && r1[8] == r2[8] && r1[14] == r2[14];
  }
}
