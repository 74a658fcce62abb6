/** `ClusterOptionsHelper.CreateClusterOptions`: the cluster id is the given
    prefix followed by the deployment-slot name the hosting platform puts in
    the environment, or by "single-slot". The operating system and the two
    environment variables are passed in. */
module ClusterOptionsHelper {
  import opened Wrappers
  import opened Text

  /** What `OperatingSystem.IsWindows()` / `IsLinux()` report. */
  datatype OsPlatform = Windows | Linux | OtherOs

  /** Orleans' `ClusterOptions`, reduced to the two properties set here. */
  datatype ClusterOptions = ClusterOptions(clusterId: string, serviceId: string)

  const SingleSlotSuffix: string := "single-slot"

  /** `websiteDeploymentId` is `WEBSITE_DEPLOYMENT_ID` and `websiteSiteName`
      is `WEBSITE_SITE_NAME`; `None` when unset. */
  function CreateClusterOptions(clusterIdPrefix: string, serviceId: string, os: OsPlatform,
                                websiteDeploymentId: Option<string>,
                                websiteSiteName: Option<string>): (r: ClusterOptions)
    ensures r.serviceId == serviceId
    ensures StartsWith(r.clusterId, clusterIdPrefix)
  {
    var clusterId :=
      if os == Windows && !IsNullOrEmpty(websiteDeploymentId) then
        clusterIdPrefix + websiteDeploymentId.value
      else if os == Linux && !IsNullOrEmpty(websiteSiteName) then
        clusterIdPrefix + websiteSiteName.value
      else
        clusterIdPrefix + SingleSlotSuffix;
    ClusterOptions(clusterId, serviceId)
  }

  /** The part of the cluster id after the prefix. */
  function SlotName(clusterIdPrefix: string, r: ClusterOptions): string
    requires StartsWith(r.clusterId, clusterIdPrefix)
  {
    r.clusterId[|clusterIdPrefix|..]
  }

  /** On Windows a non-empty deployment id names the slot, whatever the
      Linux variable holds. */
  lemma WindowsUsesDeploymentId(prefix: string, serviceId: string, id: string, siteName: Option<string>)
    requires id != []
    ensures CreateClusterOptions(prefix, serviceId, Windows, Some(id), siteName).clusterId == prefix + id
  {
  }

  /** On Linux a non-empty site name names the slot, whatever the Windows
      variable holds. */
  lemma LinuxUsesSiteName(prefix: string, serviceId: string, deploymentId: Option<string>, name: string)
    requires name != []
    ensures CreateClusterOptions(prefix, serviceId, Linux, deploymentId, Some(name)).clusterId == prefix + name
  {
  }

  /** The cluster id falls back to "single-slot" when the platform's own
      variable is unset or empty; an empty value counts as unset.
      `SlotNameChoice` states the exact choice. */
  lemma SingleSlotFallback(prefix: string, serviceId: string, os: OsPlatform,
                           deploymentId: Option<string>, siteName: Option<string>)
    ensures var r := CreateClusterOptions(prefix, serviceId, os, deploymentId, siteName);
      SlotName(prefix, r) == SingleSlotSuffix
      <== (os == Windows && IsNullOrEmpty(deploymentId))
          || (os == Linux && IsNullOrEmpty(siteName))
          || os == OtherOs
    ensures CreateClusterOptions(prefix, serviceId, os, Some([]), siteName)
         == CreateClusterOptions(prefix, serviceId, os, None, siteName)
    ensures CreateClusterOptions(prefix, serviceId, os, deploymentId, Some([]))
         == CreateClusterOptions(prefix, serviceId, os, deploymentId, None)
  {
  }

  /** Each platform reads only its own variable. */
  lemma OtherPlatformVariableIgnored(prefix: string, serviceId: string,
                                     d1: Option<string>, d2: Option<string>,
                                     s1: Option<string>, s2: Option<string>)
    ensures CreateClusterOptions(prefix, serviceId, Windows, d1, s1)
         == CreateClusterOptions(prefix, serviceId, Windows, d1, s2)
    ensures CreateClusterOptions(prefix, serviceId, Linux, d1, s1)
         == CreateClusterOptions(prefix, serviceId, Linux, d2, s1)
    ensures CreateClusterOptions(prefix, serviceId, OtherOs, d1, s1)
         == CreateClusterOptions(prefix, serviceId, OtherOs, d2, s2)
  {
  }

  /** The slot name is the platform variable's value when that is set and
      non-empty, and "single-slot" otherwise. */
  lemma SlotNameChoice(prefix: string, serviceId: string, os: OsPlatform,
                       deploymentId: Option<string>, siteName: Option<string>)
    ensures var r := CreateClusterOptions(prefix, serviceId, os, deploymentId, siteName);
      SlotName(prefix, r) ==
        if os == Windows && !IsNullOrEmpty(deploymentId) then deploymentId.value
        else if os == Linux && !IsNullOrEmpty(siteName) then siteName.value
        else SingleSlotSuffix
  {
    var r := CreateClusterOptions(prefix, serviceId, os, deploymentId, siteName);
    if os == Windows && !IsNullOrEmpty(deploymentId) {
      assert r.clusterId == prefix + deploymentId.value;
    } else if os == Linux && !IsNullOrEmpty(siteName) {
      assert r.clusterId == prefix + siteName.value;
    } else {
      assert r.clusterId == prefix + SingleSlotSuffix;
    }
  }
}
