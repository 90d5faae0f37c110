/**
  The cluster-autoscaler options builder of the model components: when the cluster enables
  the cluster autoscaler, it picks an image for the cluster's Kubernetes minor version and
  fills every unset option with its default, in place.
*/
module Components {
  import opened Wrappers
  import opened Strconv

  /** The image repository every chosen image lives in. */
  const Repository := "registry.k8s.io/autoscaling/cluster-autoscaler"

  /** The options `BuildOptions` reads or fills; an unset pointer is `None`. */
  datatype AutoscalerOptions = AutoscalerOptions(
    enabled: Option<bool>,
    image: Option<string>,
    expander: Option<string>,
    scaleDownUtilizationThreshold: Option<string>,
    skipNodesWithLocalStorage: Option<bool>,
    skipNodesWithSystemPods: Option<bool>,
    balanceSimilarNodeGroups: Option<bool>,
    awsUseStaticInstanceList: Option<bool>,
    newPodScaleUpDelay: Option<string>,
    scaleDownDelayAfterAdd: Option<string>,
    scaleDownUnneededTime: Option<string>,
    scaleDownUnreadyTime: Option<string>,
    maxNodeProvisionTime: string,
    autoDiscovery: Option<bool>)

  /** The release a minor version maps to: itself from 21 to 25, the newest one otherwise. */
  function SupportedMinor(minor: nat): (m: nat)
    ensures 21 <= m <= 25
    ensures 21 <= minor <= 25 ==> m == minor
  {
    if 21 <= minor <= 25 then minor else 25
  }

  /** The patch release of the image for each supported minor version. */
  function PatchRelease(minor: nat): nat
  {
    match minor
    case 21 => 3
    case 22 => 3
    case 23 => 1
    case 24 => 0
    case _ => 0
  }

  /**
    The image for a cluster whose version parsed to minor version `minor`, or the empty
    string when the version did not parse.
  */
  function ImageFor(minor: Option<nat>): (image: string)
    ensures image == "" <==> minor.None?
  {
    if minor.None? then ""
    else
      match minor.value
      case 25 => Repository + ":v1.25.0"
      case 24 => Repository + ":v1.24.0"
      case 23 => Repository + ":v1.23.1"
      case 22 => Repository + ":v1.22.3"
      case 21 => Repository + ":v1.21.3"
      case _ => Repository + ":v1.25.0"
  }

  /**
    Every parsed version gets the release of the repository's autoscaler for its minor
    version (1.21 to 1.25), and any other minor version the 1.25 release.
  */
  lemma ImageForRelease(minor: nat)
    ensures ImageFor(Some(minor)) == Repository + ":v1." + FormatNat(SupportedMinor(minor)) + "."
                                     + FormatNat(PatchRelease(SupportedMinor(minor)))
  {
    DigitsOfReleases();
    var m := SupportedMinor(minor);
    assert ImageFor(Some(minor)) == ImageFor(Some(m));
    if m == 21 {
      assert ImageFor(Some(m)) == Repository + ":v1." + "21" + "." + "3";
    } else if m == 22 {
      assert ImageFor(Some(m)) == Repository + ":v1." + "22" + "." + "3";
    } else if m == 23 {
      assert ImageFor(Some(m)) == Repository + ":v1." + "23" + "." + "1";
    } else if m == 24 {
      assert ImageFor(Some(m)) == Repository + ":v1." + "24" + "." + "0";
    } else {
      assert ImageFor(Some(m)) == Repository + ":v1." + "25" + "." + "0";
    }
  }

  lemma DigitsOfReleases()
    ensures FormatNat(21) == "21" && FormatNat(22) == "22" && FormatNat(23) == "23"
    ensures FormatNat(24) == "24" && FormatNat(25) == "25"
    ensures FormatNat(0) == "0" && FormatNat(1) == "1" && FormatNat(3) == "3"
  {
  }

  /** An optional value, or `d` when it is unset. */
  function OrDefault<T>(o: Option<T>, d: T): (r: Option<T>)
    ensures r.Some?
    ensures o.Some? ==> r == o
    ensures o.None? ==> r == Some(d)
  {
    if o.None? then Some(d) else o
  }

  /** The options after `BuildOptions`, given the parsed minor version of the cluster. */
  function Defaulted(c: AutoscalerOptions, minor: Option<nat>): AutoscalerOptions
  {
    if !c.enabled.GetOr(false) then c
    else
      c.(image := OrDefault(c.image, ImageFor(minor)),
         expander := OrDefault(c.expander, "random"),
         scaleDownUtilizationThreshold := OrDefault(c.scaleDownUtilizationThreshold, "0.5"),
         skipNodesWithLocalStorage := OrDefault(c.skipNodesWithLocalStorage, true),
         skipNodesWithSystemPods := OrDefault(c.skipNodesWithSystemPods, true),
         balanceSimilarNodeGroups := OrDefault(c.balanceSimilarNodeGroups, false),
         awsUseStaticInstanceList := OrDefault(c.awsUseStaticInstanceList, false),
         newPodScaleUpDelay := OrDefault(c.newPodScaleUpDelay, "0s"),
         scaleDownDelayAfterAdd := OrDefault(c.scaleDownDelayAfterAdd, "10m0s"),
         scaleDownUnneededTime := OrDefault(c.scaleDownUnneededTime, "10m0s"),
         scaleDownUnreadyTime := OrDefault(c.scaleDownUnreadyTime, "20m0s"),
         maxNodeProvisionTime := if c.maxNodeProvisionTime == "" then "15m0s" else c.maxNodeProvisionTime,
         autoDiscovery := OrDefault(c.autoDiscovery, false))
  }

  /** Every option `BuildOptions` defaults has a value. */
  predicate AllSet(c: AutoscalerOptions)
  {
    c.image.Some? && c.expander.Some? && c.scaleDownUtilizationThreshold.Some?
    && c.skipNodesWithLocalStorage.Some? && c.skipNodesWithSystemPods.Some?
    && c.balanceSimilarNodeGroups.Some? && c.awsUseStaticInstanceList.Some?
    && c.newPodScaleUpDelay.Some? && c.scaleDownDelayAfterAdd.Some?
    && c.scaleDownUnneededTime.Some? && c.scaleDownUnreadyTime.Some?
    && c.maxNodeProvisionTime != "" && c.autoDiscovery.Some?
  }

  /** A disabled or absent-switch autoscaler is left exactly as it is. */
  lemma DisabledUnchanged(c: AutoscalerOptions, minor: Option<nat>)
    requires c.enabled != Some(true)
    ensures Defaulted(c, minor) == c
  {
  }

  /** An option that is already set is never overwritten, whether enabled or not. */
  lemma SetOptionsKept(c: AutoscalerOptions, minor: Option<nat>)
    ensures var d := Defaulted(c, minor);
            d.enabled == c.enabled
            && (c.image.Some? ==> d.image == c.image)
            && (c.expander.Some? ==> d.expander == c.expander)
            && (c.scaleDownUtilizationThreshold.Some? ==> d.scaleDownUtilizationThreshold == c.scaleDownUtilizationThreshold)
            && (c.skipNodesWithLocalStorage.Some? ==> d.skipNodesWithLocalStorage == c.skipNodesWithLocalStorage)
            && (c.skipNodesWithSystemPods.Some? ==> d.skipNodesWithSystemPods == c.skipNodesWithSystemPods)
            && (c.balanceSimilarNodeGroups.Some? ==> d.balanceSimilarNodeGroups == c.balanceSimilarNodeGroups)
            && (c.awsUseStaticInstanceList.Some? ==> d.awsUseStaticInstanceList == c.awsUseStaticInstanceList)
            && (c.newPodScaleUpDelay.Some? ==> d.newPodScaleUpDelay == c.newPodScaleUpDelay)
            && (c.scaleDownDelayAfterAdd.Some? ==> d.scaleDownDelayAfterAdd == c.scaleDownDelayAfterAdd)
            && (c.scaleDownUnneededTime.Some? ==> d.scaleDownUnneededTime == c.scaleDownUnneededTime)
            && (c.scaleDownUnreadyTime.Some? ==> d.scaleDownUnreadyTime == c.scaleDownUnreadyTime)
            && (c.maxNodeProvisionTime != "" ==> d.maxNodeProvisionTime == c.maxNodeProvisionTime)
            && (c.autoDiscovery.Some? ==> d.autoDiscovery == c.autoDiscovery)
  {
  }

  /** On an enabled autoscaler, every unset option receives its default. */
  lemma UnsetOptionsDefaulted(c: AutoscalerOptions, minor: Option<nat>)
    requires c.enabled == Some(true)
    ensures var d := Defaulted(c, minor);
            AllSet(d)
            && (c.image.None? ==> d.image == Some(ImageFor(minor)))
            && (c.expander.None? ==> d.expander == Some("random"))
            && (c.scaleDownUtilizationThreshold.None? ==> d.scaleDownUtilizationThreshold == Some("0.5"))
            && (c.skipNodesWithLocalStorage.None? ==> d.skipNodesWithLocalStorage == Some(true))
            && (c.skipNodesWithSystemPods.None? ==> d.skipNodesWithSystemPods == Some(true))
            && (c.balanceSimilarNodeGroups.None? ==> d.balanceSimilarNodeGroups == Some(false))
            && (c.awsUseStaticInstanceList.None? ==> d.awsUseStaticInstanceList == Some(false))
            && (c.newPodScaleUpDelay.None? ==> d.newPodScaleUpDelay == Some("0s"))
            && (c.scaleDownDelayAfterAdd.None? ==> d.scaleDownDelayAfterAdd == Some("10m0s"))
            && (c.scaleDownUnneededTime.None? ==> d.scaleDownUnneededTime == Some("10m0s"))
            && (c.scaleDownUnreadyTime.None? ==> d.scaleDownUnreadyTime == Some("20m0s"))
            && (c.maxNodeProvisionTime == "" ==> d.maxNodeProvisionTime == "15m0s")
            && (c.autoDiscovery.None? ==> d.autoDiscovery == Some(false))
  {
  }

  /** A second run changes nothing, whatever version the cluster then reports. */
  lemma DefaultedIdempotent(c: AutoscalerOptions, minor: Option<nat>, later: Option<nat>)
    ensures Defaulted(Defaulted(c, minor), later) == Defaulted(c, minor)
  {
    if c.enabled == Some(true) {
      UnsetOptionsDefaulted(c, minor);
    }
  }

  /** The `ClusterAutoscaler` options of a cluster spec, updated in place. */
  class ClusterAutoscalerConfig {
    var enabled: Option<bool>
    var image: Option<string>
    var expander: Option<string>
    var scaleDownUtilizationThreshold: Option<string>
    var skipNodesWithLocalStorage: Option<bool>
    var skipNodesWithSystemPods: Option<bool>
    var balanceSimilarNodeGroups: Option<bool>
    var awsUseStaticInstanceList: Option<bool>
    var newPodScaleUpDelay: Option<string>
    var scaleDownDelayAfterAdd: Option<string>
    var scaleDownUnneededTime: Option<string>
    var scaleDownUnreadyTime: Option<string>
    var maxNodeProvisionTime: string
    var autoDiscovery: Option<bool>

    /** The options as a value. */
    function Snapshot(): AutoscalerOptions
      reads this
    {
      AutoscalerOptions(enabled, image, expander, scaleDownUtilizationThreshold, skipNodesWithLocalStorage,
                        skipNodesWithSystemPods, balanceSimilarNodeGroups, awsUseStaticInstanceList,
                        newPodScaleUpDelay, scaleDownDelayAfterAdd, scaleDownUnneededTime, scaleDownUnreadyTime,
                        maxNodeProvisionTime, autoDiscovery)
    }

    constructor(c: AutoscalerOptions)
      ensures Snapshot() == c
    {
      enabled := c.enabled;
      image := c.image;
      expander := c.expander;
      scaleDownUtilizationThreshold := c.scaleDownUtilizationThreshold;
      skipNodesWithLocalStorage := c.skipNodesWithLocalStorage;
      skipNodesWithSystemPods := c.skipNodesWithSystemPods;
      balanceSimilarNodeGroups := c.balanceSimilarNodeGroups;
      awsUseStaticInstanceList := c.awsUseStaticInstanceList;
      newPodScaleUpDelay := c.newPodScaleUpDelay;
      scaleDownDelayAfterAdd := c.scaleDownDelayAfterAdd;
      scaleDownUnneededTime := c.scaleDownUnneededTime;
      scaleDownUnreadyTime := c.scaleDownUnreadyTime;
      maxNodeProvisionTime := c.maxNodeProvisionTime;
      autoDiscovery := c.autoDiscovery;
    }

    /** The image, chosen by the cluster's minor version when unset. */
    method FillImage(minor: Option<nat>)
      modifies this
      ensures Snapshot() == old(Snapshot()).(image := OrDefault(old(image), ImageFor(minor)))
    {
      if image.None? {
        image := Some(ImageFor(minor));
      }
    }

    /** The defaults of the expander and of the scale-down threshold. */
    method FillStrategyDefaults()
      modifies this
      ensures Snapshot() == old(Snapshot()).(
                expander := OrDefault(old(expander), "random"),
                scaleDownUtilizationThreshold := OrDefault(old(scaleDownUtilizationThreshold), "0.5"))
    {
      if expander.None? {
        expander := Some("random");
      }
      if scaleDownUtilizationThreshold.None? {
        scaleDownUtilizationThreshold := Some("0.5");
      }
    }

    /** The defaults of the options about which nodes and groups to consider. */
    method FillNodeDefaults()
      modifies this
      ensures Snapshot() == old(Snapshot()).(
                skipNodesWithLocalStorage := OrDefault(old(skipNodesWithLocalStorage), true),
                skipNodesWithSystemPods := OrDefault(old(skipNodesWithSystemPods), true),
                balanceSimilarNodeGroups := OrDefault(old(balanceSimilarNodeGroups), false),
                awsUseStaticInstanceList := OrDefault(old(awsUseStaticInstanceList), false))
    {
      if skipNodesWithLocalStorage.None? {
        skipNodesWithLocalStorage := Some(true);
      }
      if skipNodesWithSystemPods.None? {
        skipNodesWithSystemPods := Some(true);
      }
      if balanceSimilarNodeGroups.None? {
        balanceSimilarNodeGroups := Some(false);
      }
      if awsUseStaticInstanceList.None? {
        awsUseStaticInstanceList := Some(false);
      }
    }

    /** The defaults of the scale-up and scale-down delays. */
    method FillDelayDefaults()
      modifies this
      ensures Snapshot() == old(Snapshot()).(
                newPodScaleUpDelay := OrDefault(old(newPodScaleUpDelay), "0s"),
                scaleDownDelayAfterAdd := OrDefault(old(scaleDownDelayAfterAdd), "10m0s"),
                scaleDownUnneededTime := OrDefault(old(scaleDownUnneededTime), "10m0s"),
                scaleDownUnreadyTime := OrDefault(old(scaleDownUnreadyTime), "20m0s"))
    {
      if newPodScaleUpDelay.None? {
        newPodScaleUpDelay := Some("0s");
      }
      if scaleDownDelayAfterAdd.None? {
        scaleDownDelayAfterAdd := Some("10m0s");
      }
      if scaleDownUnneededTime.None? {
        scaleDownUnneededTime := Some("10m0s");
      }
      if scaleDownUnreadyTime.None? {
        scaleDownUnreadyTime := Some("20m0s");
      }
    }

    /** The defaults of the provisioning timeout and of auto-discovery. */
    method FillProvisioningDefaults()
      modifies this
      ensures Snapshot() == old(Snapshot()).(
                maxNodeProvisionTime := if old(maxNodeProvisionTime) == "" then "15m0s" else old(maxNodeProvisionTime),
                autoDiscovery := OrDefault(old(autoDiscovery), false))
    {
      if maxNodeProvisionTime == "" {
        maxNodeProvisionTime := "15m0s";
      }
      if autoDiscovery.None? {
        autoDiscovery := Some(false);
      }
    }
  }

  /** The part of a cluster spec the builder reads. */
  class ClusterSpec {
    var kubernetesVersion: string
    var clusterAutoscaler: ClusterAutoscalerConfig?

    constructor(version: string, cas: ClusterAutoscalerConfig?)
      ensures kubernetesVersion == version && clusterAutoscaler == cas
    {
      kubernetesVersion := version;
      clusterAutoscaler := cas;
    }
  }

  /**
    `ClusterAutoscalerOptionsBuilder.BuildOptions`, given the minor version Kubernetes
    version parsing reads from a version string (`None` where it fails). It never fails.
  */
  method BuildOptions(spec: ClusterSpec, minorOf: string -> Option<nat>)
    modifies spec.clusterAutoscaler
    ensures spec.clusterAutoscaler == old(spec.clusterAutoscaler)
    ensures spec.clusterAutoscaler != null ==>
              spec.clusterAutoscaler.Snapshot()
              == Defaulted(old(spec.clusterAutoscaler.Snapshot()), minorOf(spec.kubernetesVersion))
  {
    var cas := spec.clusterAutoscaler;
    if cas == null || !cas.enabled.GetOr(false) {
      return;
    }
    cas.FillImage(minorOf(spec.kubernetesVersion));
    cas.FillStrategyDefaults();
    cas.FillNodeDefaults();
    cas.FillDelayDefaults();
    cas.FillProvisioningDefaults();
  }
}
