/**
 * The add-on's options (`NewRelicAddOnProps`), the default table `defaultProps`, and the
 * constructor's merge `{ ...defaultProps, ...props }`.
 */
module Options {
  import opened Wrappers
  import opened Values

  /** Every property is optional; None is a property the record does not have. */
  datatype Props = Props(
    namespace: Option<string>,
    newRelicLicenseKey: Option<string>,
    newRelicClusterName: Option<string>,
    version: Option<string>,
    repository: Option<string>,
    release: Option<string>,
    chart: Option<string>,
    lowDataMode: Option<bool>,
    installInfrastructure: Option<bool>,
    installInfrastructurePrivileged: Option<bool>,
    installKSM: Option<bool>,
    installPrometheus: Option<bool>,
    installLogging: Option<bool>,
    values: Option<Tree>)

  /** `{}`. */
  const NoProps := Props(None, None, None, None, None, None, None, None, None, None, None, None, None, None)

  /** `defaultProps`: no license key, cluster name or values, every switch on. */
  const DefaultProps := Props(
    namespace := Some("newrelic"),
    newRelicLicenseKey := None,
    newRelicClusterName := None,
    version := Some("3.2.11"),
    repository := Some("https://helm-charts.newrelic.com"),
    release := Some("newrelic-bundle"),
    chart := Some("nri-bundle"),
    lowDataMode := Some(true),
    installInfrastructure := Some(true),
    installInfrastructurePrivileged := Some(true),
    installKSM := Some(true),
    installPrometheus := Some(true),
    installLogging := Some(true),
    values := None)

  /** One property of `{ ...lower, ...upper }`: the upper record's own property wins. */
  function Pick<T>(lower: Option<T>, upper: Option<T>): Option<T> {
    if upper.Some? then upper else lower
  }

  /** `{ ...lower, ...upper }`. */
  function Spread(lower: Props, upper: Props): (r: Props)
    ensures upper == NoProps ==> r == lower
    ensures lower == NoProps ==> r == upper
  {
    Props(
      Pick(lower.namespace, upper.namespace),
      Pick(lower.newRelicLicenseKey, upper.newRelicLicenseKey),
      Pick(lower.newRelicClusterName, upper.newRelicClusterName),
      Pick(lower.version, upper.version),
      Pick(lower.repository, upper.repository),
      Pick(lower.release, upper.release),
      Pick(lower.chart, upper.chart),
      Pick(lower.lowDataMode, upper.lowDataMode),
      Pick(lower.installInfrastructure, upper.installInfrastructure),
      Pick(lower.installInfrastructurePrivileged, upper.installInfrastructurePrivileged),
      Pick(lower.installKSM, upper.installKSM),
      Pick(lower.installPrometheus, upper.installPrometheus),
      Pick(lower.installLogging, upper.installLogging),
      Pick(lower.values, upper.values))
  }

  /** The constructor's `{ ...defaultProps, ...props }`; spreading an absent `props` adds nothing. */
  function Merge(props: Option<Props>): (o: Props)
    ensures o.namespace.Some? && o.version.Some? && o.repository.Some? && o.release.Some? && o.chart.Some?
    ensures o.lowDataMode.Some? && o.installInfrastructure.Some? && o.installInfrastructurePrivileged.Some?
    ensures o.installKSM.Some? && o.installPrometheus.Some? && o.installLogging.Some?
    ensures props.None? ==> o == DefaultProps
  {
    Spread(DefaultProps, props.GetOr(NoProps))
  }

  /** Without props, and with `{}`, the options are exactly the default table. */
  lemma MergeDefaults()
    ensures Merge(None) == Merge(Some(NoProps)) == DefaultProps
    ensures Merge(None) == Props(Some("newrelic"), None, None, Some("3.2.11"),
      Some("https://helm-charts.newrelic.com"), Some("newrelic-bundle"), Some("nri-bundle"),
      Some(true), Some(true), Some(true), Some(true), Some(true), Some(true), None)
  {
  }

  /**
   * A property the caller supplies is taken as given, `false` and `""` included;
   * one the caller leaves out comes from the default table.
   */
  lemma MergeTakesCaller(p: Props)
    ensures var o := Merge(Some(p));
      && (p.namespace.Some? ==> o.namespace == p.namespace)
      && (p.newRelicLicenseKey.Some? ==> o.newRelicLicenseKey == p.newRelicLicenseKey)
      && (p.newRelicClusterName.Some? ==> o.newRelicClusterName == p.newRelicClusterName)
      && (p.version.Some? ==> o.version == p.version)
      && (p.repository.Some? ==> o.repository == p.repository)
      && (p.release.Some? ==> o.release == p.release)
      && (p.chart.Some? ==> o.chart == p.chart)
      && (p.lowDataMode.Some? ==> o.lowDataMode == p.lowDataMode)
      && (p.installInfrastructure.Some? ==> o.installInfrastructure == p.installInfrastructure)
      && (p.installInfrastructurePrivileged.Some? ==> o.installInfrastructurePrivileged == p.installInfrastructurePrivileged)
      && (p.installKSM.Some? ==> o.installKSM == p.installKSM)
      && (p.installPrometheus.Some? ==> o.installPrometheus == p.installPrometheus)
      && (p.installLogging.Some? ==> o.installLogging == p.installLogging)
      && (p.values.Some? ==> o.values == p.values)
    ensures var o := Merge(Some(p));
      && (p.namespace.None? ==> o.namespace == Some("newrelic"))
      && (p.newRelicLicenseKey.None? ==> o.newRelicLicenseKey == None)
      && (p.newRelicClusterName.None? ==> o.newRelicClusterName == None)
      && (p.version.None? ==> o.version == Some("3.2.11"))
      && (p.repository.None? ==> o.repository == Some("https://helm-charts.newrelic.com"))
      && (p.release.None? ==> o.release == Some("newrelic-bundle"))
      && (p.chart.None? ==> o.chart == Some("nri-bundle"))
      && (p.lowDataMode.None? ==> o.lowDataMode == Some(true))
      && (p.installInfrastructure.None? ==> o.installInfrastructure == Some(true))
      && (p.installInfrastructurePrivileged.None? ==> o.installInfrastructurePrivileged == Some(true))
      && (p.installKSM.None? ==> o.installKSM == Some(true))
      && (p.installPrometheus.None? ==> o.installPrometheus == Some(true))
      && (p.installLogging.None? ==> o.installLogging == Some(true))
      && (p.values.None? ==> o.values == None)
  {
  }

  /** Merging already merged options over the defaults again changes nothing. */
  lemma MergeIdempotent(props: Option<Props>)
    ensures Merge(Some(Merge(props))) == Merge(props)
  {
  }

  /** A record that already has every property merges to itself. */
  lemma MergeComplete(p: Props)
    requires p.namespace.Some? && p.newRelicLicenseKey.Some? && p.newRelicClusterName.Some?
    requires p.version.Some? && p.repository.Some? && p.release.Some? && p.chart.Some?
    requires p.lowDataMode.Some? && p.installInfrastructure.Some? && p.installInfrastructurePrivileged.Some?
    requires p.installKSM.Some? && p.installPrometheus.Some? && p.installLogging.Some? && p.values.Some?
    ensures Merge(Some(p)) == p
  {
  }
}
