/** The per-operation option objects handed to `NhctlCommand`.

    Every Java options class extends the global options class, so each
    datatype here carries a `global` field.  String getters may return
    `null`, hence `Option<string>`; list getters may return `null`, hence
    `Option<seq<string>>`; the values map of the install options is taken
    as the sequence of its entries in the map's iteration order. */
module NhctlOptions {
  import opened Wrappers

  /** Options every operation accepts: `isDebug()` and `getKubeconfig()`. */
  datatype GlobalOptions = GlobalOptions(debug: bool, kubeconfig: Option<string>)

  /** Options of `install`. */
  datatype InstallOptions = InstallOptions(
    config: Option<string>,
    gitRef: Option<string>,
    gitUrl: Option<string>,
    helmChartName: Option<string>,
    helmRepoName: Option<string>,
    helmRepoUrl: Option<string>,
    helmRepoVersion: Option<string>,
    helmValues: Option<string>,
    ignorePreInstall: bool,
    namespace: Option<string>,
    outerConfig: Option<string>,
    resourcesPath: Option<seq<string>>,
    values: Option<seq<(string, string)>>,
    appType: Option<string>,
    wait: bool,
    global: GlobalOptions)

  /** Options of `uninstall`. */
  datatype UninstallOptions = UninstallOptions(force: bool, global: GlobalOptions)

  /** Options of `devStart`. */
  datatype DevStartOptions = DevStartOptions(
    deployment: Option<string>,
    image: Option<string>,
    localSync: Option<seq<string>>,
    sidecarImage: Option<string>,
    storageClass: Option<string>,
    syncthingVersion: Option<string>,
    workDir: Option<string>,
    global: GlobalOptions)

  /** Options of `sync`. */
  datatype SyncOptions = SyncOptions(
    daemon: bool,
    deployment: Option<string>,
    doubleSideSync: bool,
    ignoredPatterns: Option<seq<string>>,
    syncedPatterns: Option<seq<string>>,
    global: GlobalOptions)

  /** Options of `portForward`. */
  datatype PortForwardOptions = PortForwardOptions(
    daemon: bool,
    deployment: Option<string>,
    devPorts: Option<seq<string>>,
    global: GlobalOptions)

  /** The options of `devEnd`, `describe`, `reset`, the three config
      operations and `getPluginInfo`: the command reads nothing of them
      but `getDeployment()` and the global options. */
  datatype DeploymentOptions = DeploymentOptions(deployment: Option<string>, global: GlobalOptions)
}
