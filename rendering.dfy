/** The argument vectors that `NhctlCommand` hands to the `nhctl`
    executable, as functions of the target name and the options.

    Each operation is described by a table of fields (flag, kind, value)
    in the order the command appends them; a field's kind says how it is
    written: a string option as `flag value` when the value is not empty,
    a boolean as a lone `flag` when true, a list as one `flag element`
    pair per element, and the config content as an unconditional pair.
    The global options are appended last, by `execute`. */
module Rendering {
  import opened Wrappers
  import opened NhctlOptions

  /** The executable every vector starts with. */
  const Nhctl: string := "nhctl"

  /** `StringUtils.isNotEmpty`: not null and at least one character long. */
  predicate IsNotEmpty(s: Option<string>)
  {
    s.Some? && |s.value| > 0
  }

  /** One option of an operation, with the flag it is written under. */
  datatype Field =
    | Valued(flag: string, value: Option<string>)
    | Switch(flag: string, on: bool)
    | Repeated(flag: string, values: Option<seq<string>>)
    | Always(flag: string, payload: string)

  /** `flag x` for every element `x` of `xs`, in order. */
  function Pairs(flag: string, xs: seq<string>): seq<string>
  {
    if xs == [] then [] else [flag, xs[0]] + Pairs(flag, xs[1..])
  }

  /** The tokens one field contributes to the vector. */
  function RenderField(f: Field): seq<string>
  {
    match f
    case Valued(flag, value) => if IsNotEmpty(value) then [flag, value.value] else []
    case Switch(flag, on) => if on then [flag] else []
    case Repeated(flag, values) => if values.Some? then Pairs(flag, values.value) else []
    case Always(flag, payload) => [flag, payload]
  }

  /** The tokens a table of fields contributes, field after field. */
  function Render(fs: seq<Field>): seq<string>
  {
    if fs == [] then [] else RenderField(fs[0]) + Render(fs[1..])
  }

  lemma {:induction false} RenderAppend(a: seq<Field>, b: seq<Field>)
    ensures Render(a + b) == Render(a) + Render(b)
  {
    if a == [] {
      assert a + b == b;
    } else {
      assert (a + b)[1..] == a[1..] + b;
      RenderAppend(a[1..], b);
    }
  }

  /** Appending one more field appends exactly its tokens. */
  lemma RenderSnoc(fs: seq<Field>, f: Field)
    ensures Render(fs + [f]) == Render(fs) + RenderField(f)
  {
    RenderAppend(fs, [f]);
    assert [f][1..] == [];
  }

  /** The `for` loop over a list option appends one pair per step. */
  lemma {:induction false} PairsSnoc(flag: string, xs: seq<string>, x: string)
    ensures Pairs(flag, xs + [x]) == Pairs(flag, xs) + [flag, x]
  {
    if xs == [] {
      assert [x][1..] == [];
    } else {
      assert (xs + [x])[1..] == xs[1..] + [x];
      PairsSnoc(flag, xs[1..], x);
    }
  }

  /** A list option is written as one `flag element` pair per element, in
      list order, with no element dropped (empty strings included). */
  lemma {:induction false} PairsLayout(flag: string, xs: seq<string>)
    ensures |Pairs(flag, xs)| == 2 * |xs|
    ensures forall k :: 0 <= k < |xs| ==> Pairs(flag, xs)[2 * k] == flag && Pairs(flag, xs)[2 * k + 1] == xs[k]
  {
    if xs != [] {
      PairsLayout(flag, xs[1..]);
      var p := Pairs(flag, xs);
      assert p == [flag, xs[0]] + Pairs(flag, xs[1..]);
      forall k | 0 <= k < |xs|
        ensures p[2 * k] == flag && p[2 * k + 1] == xs[k]
      {
        if k > 0 {
          assert p[2 * k] == Pairs(flag, xs[1..])[2 * (k - 1)];
          assert p[2 * k + 1] == Pairs(flag, xs[1..])[2 * (k - 1) + 1];
        }
      }
    }
  }

  /** One entry of the values map as the stream maps it: `key=value`. */
  function Entry(kv: (string, string)): string
  {
    kv.0 + "=" + kv.1
  }

  /** The mapped stream of entries, in iteration order. */
  function Entries(kvs: seq<(string, string)>): seq<string>
  {
    seq(|kvs|, i requires 0 <= i < |kvs| => Entry(kvs[i]))
  }

  /** `reduce(identity, String::concat)` on a sequential stream: a fold
      from the left, starting at the identity. */
  function ReduceConcat(identity: string, xs: seq<string>): string
    decreases xs
  {
    if xs == [] then identity else ReduceConcat(identity + xs[0], xs[1..])
  }

  /** Plain concatenation of strings, with no separator. */
  function Concat(xs: seq<string>): string
  {
    if xs == [] then "" else xs[0] + Concat(xs[1..])
  }

  lemma {:induction false} ReduceConcatIsConcat(acc: string, xs: seq<string>)
    ensures ReduceConcat(acc, xs) == acc + Concat(xs)
    decreases xs
  {
    if xs != [] {
      ReduceConcatIsConcat(acc + xs[0], xs[1..]);
      assert acc + xs[0] + Concat(xs[1..]) == acc + (xs[0] + Concat(xs[1..]));
    }
  }

  /** The value of `--set`: the fold seeded with ",", so a leading comma
      followed by the entries with nothing between them; never empty. */
  function SetValue(kvs: seq<(string, string)>): (r: string)
    ensures r == "," + Concat(Entries(kvs))
    ensures |r| > 0 && r[0] == ','
  {
    ReduceConcatIsConcat(",", Entries(kvs));
    ReduceConcat(",", Entries(kvs))
  }

  /** The `--set` value when the map is not null. */
  function SetOption(values: Option<seq<(string, string)>>): Option<string>
  {
    if values.Some? then Some(SetValue(values.value)) else None
  }

  /** A non-null values map always yields `--set` with its value, even
      when the map is empty. */
  lemma SetAlwaysEmitted(kvs: seq<(string, string)>)
    ensures RenderField(Valued("--set", SetOption(Some(kvs)))) == ["--set", "," + Concat(Entries(kvs))]
    ensures kvs == [] ==> RenderField(Valued("--set", SetOption(Some(kvs)))) == ["--set", ","]
  {
  }

  /** Entries are joined with nothing between them: two entries run
      together after the leading comma. */
  lemma SetValueJoinsEntries(k1: string, v1: string, k2: string, v2: string)
    ensures SetValue([(k1, v1), (k2, v2)]) == "," + k1 + "=" + v1 + k2 + "=" + v2
  {
    var es := Entries([(k1, v1), (k2, v2)]);
    assert es == [Entry((k1, v1)), Entry((k2, v2))];
    assert es[1..][1..] == [];
    assert Concat(es[1..]) == Entry((k2, v2));
    assert Concat(es) == Entry((k1, v1)) + Entry((k2, v2));
  }

  /** The fields `addGlobalOptions` appends: `--debug`, then `--kubeconfig`. */
  function GlobalFields(g: GlobalOptions): seq<Field>
  {
    [Switch("--debug", g.debug), Valued("--kubeconfig", g.kubeconfig)]
  }

  /** The global flag block. */
  function GlobalArgs(g: GlobalOptions): seq<string>
  {
    Render(GlobalFields(g))
  }

  /** The global flag block is the tokens of its two fields. */
  lemma GlobalArgsFields(g: GlobalOptions)
    ensures GlobalArgs(g) == RenderField(GlobalFields(g)[0]) + RenderField(GlobalFields(g)[1])
  {
    var gs := GlobalFields(g);
    assert gs[1..][1..] == [];
    assert Render(gs[1..]) == RenderField(gs[1]);
  }

  /** The global flag block is `--debug` when debugging, then `--kubeconfig`
      and the path when the path is not empty. */
  lemma GlobalArgsLayout(g: GlobalOptions)
    ensures GlobalArgs(g) == (if g.debug then ["--debug"] else [])
                             + (if IsNotEmpty(g.kubeconfig) then ["--kubeconfig", g.kubeconfig.value] else [])
  {
    GlobalArgsFields(g);
  }

  /** The vector of an operation: executable, verb, target name, the
      operation's fields, then the global fields `execute` appends. */
  function Command(verb: seq<string>, name: string, fields: seq<Field>, g: GlobalOptions): seq<string>
  {
    [Nhctl] + verb + [name] + Render(fields + GlobalFields(g))
  }

  /** Every vector starts with the executable, the verb and the name, and
      ends with the global flag block, with nothing after it. */
  lemma CommandLayout(verb: seq<string>, name: string, fields: seq<Field>, g: GlobalOptions)
    ensures Command(verb, name, fields, g) == [Nhctl] + verb + [name] + Render(fields) + GlobalArgs(g)
    ensures Command(verb, name, fields, g)[..|verb| + 2] == [Nhctl] + verb + [name]
    ensures var c := Command(verb, name, fields, g); c[|c| - |GlobalArgs(g)|..] == GlobalArgs(g)
  {
    RenderAppend(fields, GlobalFields(g));
  }

  // ---------------------------------------------------------------------
  // The field tables, one per operation, in the order the command appends
  // ---------------------------------------------------------------------

  function InstallFields(o: InstallOptions): seq<Field>
  {
    [Valued("--config", o.config)] +
    [Valued("--git-ref", o.gitRef)] +
    [Valued("--git-url", o.gitUrl)] +
    [Valued("--helm-chart-name", o.helmChartName)] +
    [Valued("--helm-repo-name", o.helmRepoName)] +
    [Valued("--helm-repo-url", o.helmRepoUrl)] +
    [Valued("--helm-repo-version", o.helmRepoVersion)] +
    [Valued("--helm-values", o.helmValues)] +
    [Switch("--ignore-pre-install", o.ignorePreInstall)] +
    [Valued("--namespace", o.namespace)] +
    [Valued("--outer-config", o.outerConfig)] +
    [Repeated("--resource-path", o.resourcesPath)] +
    [Valued("--set", SetOption(o.values))] +
    [Valued("--type", o.appType)] +
    [Switch("--wait", o.wait)]
  }

  function UninstallFields(o: UninstallOptions): seq<Field>
  {
    [Switch("--force", o.force)]
  }

  function DevStartFields(o: DevStartOptions): seq<Field>
  {
    [Valued("--deployment", o.deployment)] +
    [Valued("--image", o.image)] +
    [Repeated("--local-sync", o.localSync)] +
    [Valued("--sidecar-image", o.sidecarImage)] +
    [Valued("--storage-class", o.storageClass)] +
    [Valued("--syncthing-version", o.syncthingVersion)] +
    [Valued("--work-dir", o.workDir)]
  }

  function SyncFields(o: SyncOptions): seq<Field>
  {
    [Switch("--daemon", o.daemon)] +
    [Valued("--deployment", o.deployment)] +
    [Switch("--double", o.doubleSideSync)] +
    [Repeated("--ignored-pattern", o.ignoredPatterns)] +
    [Repeated("--synced-pattern", o.syncedPatterns)]
  }

  function PortForwardFields(o: PortForwardOptions): seq<Field>
  {
    [Switch("--daemon", o.daemon)] +
    [Valued("--deployment", o.deployment)] +
    [Repeated("--dev-port", o.devPorts)]
  }

  function DeploymentFields(o: DeploymentOptions): seq<Field>
  {
    [Valued("--deployment", o.deployment)]
  }

  // ---------------------------------------------------------------------
  // The vectors, one per operation
  // ---------------------------------------------------------------------

  function InstallArgv(name: string, o: InstallOptions): seq<string>
  {
    Command(["install"], name, InstallFields(o), o.global)
  }

  function UninstallArgv(name: string, o: UninstallOptions): seq<string>
  {
    Command(["uninstall"], name, UninstallFields(o), o.global)
  }

  function DevStartArgv(name: string, o: DevStartOptions): seq<string>
  {
    Command(["dev", "start"], name, DevStartFields(o), o.global)
  }

  function DevEndArgv(name: string, o: DeploymentOptions): seq<string>
  {
    Command(["dev", "end"], name, DeploymentFields(o), o.global)
  }

  function SyncArgv(name: string, o: SyncOptions): seq<string>
  {
    Command(["sync"], name, SyncFields(o), o.global)
  }

  function PortForwardArgv(name: string, o: PortForwardOptions): seq<string>
  {
    Command(["port-forward"], name, PortForwardFields(o), o.global)
  }

  function DescribeArgv(name: string, o: DeploymentOptions): seq<string>
  {
    Command(["describe"], name, DeploymentFields(o), o.global)
  }

  function ResetArgv(name: string, o: DeploymentOptions): seq<string>
  {
    Command(["dev", "reset"], name, DeploymentFields(o), o.global)
  }

  /** `getConfig` appends the global fields itself and `execute` appends
      them again. */
  function GetConfigArgv(name: string, o: DeploymentOptions): seq<string>
  {
    Command(["config", "get"], name, DeploymentFields(o) + GlobalFields(o.global), o.global)
  }

  function GetTemplateConfigArgv(name: string, o: DeploymentOptions): seq<string>
  {
    Command(["config", "template"], name, DeploymentFields(o), o.global)
  }

  /** `saveConfig` uses the verb `config get` and always passes the content. */
  function SaveConfigArgv(name: string, o: DeploymentOptions, content: string): seq<string>
  {
    Command(["config", "get"], name, DeploymentFields(o) + [Always("--content", content)], o.global)
  }

  function PluginInfoArgv(name: string, o: DeploymentOptions): seq<string>
  {
    Command(["plugin", "get"], name, DeploymentFields(o), o.global)
  }

  // ---------------------------------------------------------------------
  // Properties of particular operations
  // ---------------------------------------------------------------------

  /** `getConfig` carries the global flag block twice in a row at its end:
      it is the vector `config get` would have with one block, plus a
      second copy of the block. */
  lemma GetConfigRepeatsGlobals(name: string, o: DeploymentOptions)
    ensures GetConfigArgv(name, o)
         == Command(["config", "get"], name, DeploymentFields(o), o.global) + GlobalArgs(o.global)
    ensures GetConfigArgv(name, o)
         == [Nhctl, "config", "get", name] + RenderField(Valued("--deployment", o.deployment))
            + GlobalArgs(o.global) + GlobalArgs(o.global)
  {
    var d := DeploymentFields(o);
    var gs := GlobalFields(o.global);
    var g := GlobalArgs(o.global);
    var p := [Nhctl] + ["config", "get"] + [name];
    var rd := Render(d);
    CommandLayout(["config", "get"], name, d + gs, o.global);
    CommandLayout(["config", "get"], name, d, o.global);
    RenderAppend(d, gs);
    calc {
      GetConfigArgv(name, o);
      p + Render(d + gs) + g;
      p + (rd + g) + g;
      (p + rd + g) + g;
      Command(["config", "get"], name, d, o.global) + g;
    }
    assert rd == RenderField(Valued("--deployment", o.deployment)) by {
      assert d[1..] == [];
    }
    assert p == [Nhctl, "config", "get", name];
  }

  /** `saveConfig` writes `--content` and the content after the optional
      `--deployment` pair, whatever the content is, under the verb
      `config get`. */
  lemma SaveConfigLayout(name: string, o: DeploymentOptions, content: string)
    ensures SaveConfigArgv(name, o, content)
         == [Nhctl, "config", "get", name] + RenderField(Valued("--deployment", o.deployment))
            + ["--content", content] + GlobalArgs(o.global)
  {
    var fs := DeploymentFields(o) + [Always("--content", content)];
    CommandLayout(["config", "get"], name, fs, o.global);
    RenderSnoc(DeploymentFields(o), Always("--content", content));
    assert Render(DeploymentFields(o)) == RenderField(Valued("--deployment", o.deployment)) by {
      assert DeploymentFields(o)[1..] == [];
    }
  }
}
