/** The broker's startup compatibility gate (broker/startup_checks.go): before serving, the
    Cloud Foundry API and the BOSH Director must be recent enough, and no plan that still has
    service instances may have disappeared from the catalogue. What the remote clients and the
    semver library answer is part of the broker value the checks read. */
module StartupChecks {
  import opened Wrappers
  import opened Errors
  import Format

  /** A semantic version: numeric parts and pre-release tag (build metadata plays no part in
      ordering and is not kept). */
  datatype SemVer = SemVer(major: nat, minor: nat, patch: nat, preRelease: string)

  /** The lowest Cloud Foundry API version the broker works with (CF v238). */
  const MinimumCFAPIVersion: SemVer := SemVer(2, 57, 0, "")

  /** What the BOSH Director's version supports. */
  datatype DirectorVersion = DirectorVersion(supportsODB: bool, supportsLifecycleErrands: bool)

  datatype ServiceOffering = ServiceOffering(planIDs: set<string>, hasLifecycleErrands: bool)

  /** The broker as the startup checks see it. */
  datatype Broker = Broker(
    serviceOffering: ServiceOffering,
    cfAPIVersion: Result<string, Error>,                    // cfClient.GetAPIVersion
    instanceCountByPlanID: Result<map<string, int>, Error>, // cfClient.CountInstancesOfServiceOffering
    directorVersion: Result<DirectorVersion, Error>,        // boshClient.GetDirectorVersion
    parseSemver: string -> Option<SemVer>,                  // semver.NewVersion
    lifecycleErrandsMinimumMajor: int)                      // boshdirector.MinimumMajorSemverDirectorVersionForLifecycleErrands

  const CFRequirementSuffix: string := ". ODB requires CF v238+."
  const BoshRequirementSuffix: string := ". ODB requires BOSH v257+."
  const CFInsufficientMessage: string := "Cloud Foundry API version is insufficient, ODB requires CF v238+."
  const BoshInsufficientMessage: string := "API version is insufficient, ODB requires BOSH v257+."
  const PlanIDChangedMessage: string := "You cannot change the plan_id of a plan that has existing service instances"

  function CFParseErrorMessage(raw: string): string
  {
    "Cloud Foundry API version couldn't be parsed. Expected a semver, got: " + raw + "."
  }

  function BoshErrandsInsufficientMessage(minimumMajor: int): string
  {
    "API version is insufficient, one or more plans are configured with lifecycle_errands which require BOSH v"
    + Format.IntToDecimal(minimumMajor) + "+."
  }

  // ---------------------------------------------------------------------------------------
  // Semantic version precedence

  function Parts(v: SemVer): (s: seq<nat>)
    ensures |s| == 3
  {
    [v.major, v.minor, v.patch]
  }

  /** The semver library's comparison of numeric parts, most significant first. */
  function CompareParts(a: seq<nat>, b: seq<nat>): (c: int)
    requires |a| == |b|
    ensures -1 <= c <= 1
  {
    if |a| == 0 then 0
    else if a[0] > b[0] then 1
    else if a[0] < b[0] then -1
    else CompareParts(a[1..], b[1..])
  }

  /** CompareParts is lexicographic order: `a` is smaller exactly when, after a common
      prefix, its first differing part is smaller. */
  lemma {:induction false} ComparePartsLess(a: seq<nat>, b: seq<nat>)
    requires |a| == |b|
    ensures CompareParts(a, b) < 0 <==> exists k :: 0 <= k < |a| && a[..k] == b[..k] && a[k] < b[k]
  {
    if |a| > 0 {
      ComparePartsLess(a[1..], b[1..]);
      if CompareParts(a, b) < 0 && a[0] == b[0] {
        var k :| 0 <= k < |a| - 1 && a[1..][..k] == b[1..][..k] && a[1..][k] < b[1..][k];
        assert a[..k + 1] == [a[0]] + a[1..][..k];
        assert b[..k + 1] == [b[0]] + b[1..][..k];
      }
      if exists k :: 0 <= k < |a| && a[..k] == b[..k] && a[k] < b[k] {
        var k :| 0 <= k < |a| && a[..k] == b[..k] && a[k] < b[k];
        if k > 0 {
          assert a[0] == a[..k][0] == b[..k][0] == b[0];
          assert a[1..][..k - 1] == a[..k][1..] == b[..k][1..] == b[1..][..k - 1];
        }
      }
    }
  }

  /** `v.LessThan(m)` where `m` is a release (no pre-release tag), as the semver library
      orders versions: by numeric parts, and with equal parts a pre-release comes first. */
  predicate LessThanRelease(v: SemVer, m: SemVer)
    requires m.preRelease == ""
  {
    var c := CompareParts(Parts(v), Parts(m));
    c < 0 || (c == 0 && v.preRelease != "")
  }

  /** Reference statement of "at least 2.57.0", written out as tuple comparison. */
  predicate MeetsCFMinimum(v: SemVer)
  {
    v.major > 2
    || (v.major == 2 && v.minor > 57)
    || (v.major == 2 && v.minor == 57 && (v.patch > 0 || v.preRelease == ""))
  }

  /** CompareParts reports equality exactly for equal parts. */
  lemma {:induction false} ComparePartsEqual(a: seq<nat>, b: seq<nat>)
    requires |a| == |b|
    ensures CompareParts(a, b) == 0 <==> a == b
  {
    if |a| > 0 {
      ComparePartsEqual(a[1..], b[1..]);
      if a[0] == b[0] && a[1..] == b[1..] {
        assert a == [a[0]] + a[1..] && b == [b[0]] + b[1..];
      }
    }
  }

  lemma NotLessThanMinimumIffMeets(v: SemVer)
    ensures !LessThanRelease(v, MinimumCFAPIVersion) <==> MeetsCFMinimum(v)
  {
    var a, b := Parts(v), Parts(MinimumCFAPIVersion);
    ComparePartsLess(a, b);
    ComparePartsEqual(a, b);
    if CompareParts(a, b) < 0 {
      var k :| 0 <= k < 3 && a[..k] == b[..k] && a[k] < b[k];
      if k >= 1 { assert a[0] == a[..k][0]; }
      assert !MeetsCFMinimum(v);
    } else if !MeetsCFMinimum(v) {
      assert a == b;
    }
  }

  // ---------------------------------------------------------------------------------------
  // The checks

  /** checkCFAPIVersion: a failed lookup is reported with the CF requirement; an
      unparseable version is reported with the raw text; otherwise the version must be at
      least 2.57.0 by semver precedence. */
  function CheckCFAPIVersion(b: Broker): (r: Option<Error>)
    ensures b.cfAPIVersion.Failure? ==>
      r == Some(Plain(Message(b.cfAPIVersion.error) + CFRequirementSuffix))
    ensures b.cfAPIVersion.Success? && b.parseSemver(b.cfAPIVersion.value).None? ==>
      r == Some(Plain(CFParseErrorMessage(b.cfAPIVersion.value)))
    ensures b.cfAPIVersion.Success? && b.parseSemver(b.cfAPIVersion.value).Some? ==>
      (r.None? <==> MeetsCFMinimum(b.parseSemver(b.cfAPIVersion.value).value))
      && (r.Some? ==> r == Some(Plain(CFInsufficientMessage)))
  {
    match b.cfAPIVersion
    case Failure(err) => Some(Plain(Message(err) + CFRequirementSuffix))
    case Success(raw) =>
      match b.parseSemver(raw)
      case None => Some(Plain(CFParseErrorMessage(raw)))
      case Some(version) =>
        NotLessThanMinimumIffMeets(version);
        if LessThanRelease(version, MinimumCFAPIVersion) then Some(Plain(CFInsufficientMessage))
        else None
  }

  /** checkBoshDirectorVersion: a failed lookup is reported with the BOSH requirement; the
      director must support on-demand brokers, and also lifecycle errands when the offering
      configures any. */
  function CheckBoshDirectorVersion(b: Broker): (r: Option<Error>)
    ensures b.directorVersion.Failure? ==>
      r == Some(Plain(Message(b.directorVersion.error) + BoshRequirementSuffix))
    ensures b.directorVersion.Success? && !b.directorVersion.value.supportsODB ==>
      r == Some(Plain(BoshInsufficientMessage))
    ensures b.directorVersion.Success? && b.directorVersion.value.supportsODB
            && b.serviceOffering.hasLifecycleErrands && !b.directorVersion.value.supportsLifecycleErrands ==>
      r == Some(Plain(BoshErrandsInsufficientMessage(b.lifecycleErrandsMinimumMajor)))
    ensures r.None? <==>
      b.directorVersion.Success? && b.directorVersion.value.supportsODB
      && (b.serviceOffering.hasLifecycleErrands ==> b.directorVersion.value.supportsLifecycleErrands)
  {
    match b.directorVersion
    case Failure(err) => Some(Plain(Message(err) + BoshRequirementSuffix))
    case Success(directorVersion) =>
      if !directorVersion.supportsODB then Some(Plain(BoshInsufficientMessage))
      else if b.serviceOffering.hasLifecycleErrands && !directorVersion.supportsLifecycleErrands then
        Some(Plain(BoshErrandsInsufficientMessage(b.lifecycleErrandsMinimumMajor)))
      else None
  }

  /** checkAPIVersions: runs both checks and reports every failure, each labelled with the
      API it concerns, CF first, separated by one space. */
  function CheckAPIVersions(b: Broker): (r: Option<Error>)
    ensures r.None? <==> CheckCFAPIVersion(b).None? && CheckBoshDirectorVersion(b).None?
    ensures CheckCFAPIVersion(b).Some? && CheckBoshDirectorVersion(b).None? ==>
      r == Some(Plain("CF API error: " + Message(CheckCFAPIVersion(b).value)))
    ensures CheckCFAPIVersion(b).None? && CheckBoshDirectorVersion(b).Some? ==>
      r == Some(Plain("BOSH Director error: " + Message(CheckBoshDirectorVersion(b).value)))
    ensures CheckCFAPIVersion(b).Some? && CheckBoshDirectorVersion(b).Some? ==>
      r == Some(Plain(("CF API error: " + Message(CheckCFAPIVersion(b).value)) + " "
                      + ("BOSH Director error: " + Message(CheckBoshDirectorVersion(b).value))))
  {
    var cfMessages := match CheckCFAPIVersion(b)
      case Some(err) => ["CF API error: " + Message(err)]
      case None => [];
    var apiErrorMessages := match CheckBoshDirectorVersion(b)
      case Some(err) => cfMessages + ["BOSH Director error: " + Message(err)]
      case None => cfMessages;
    if |apiErrorMessages| > 0 then
      assert |apiErrorMessages| == 2 ==> apiErrorMessages[1..] == [apiErrorMessages[1]];
      Some(Plain(Format.Join(apiErrorMessages, " ")))
    else None
  }

  /** Reference statement of what the two API checks demand together. */
  predicate CompatibleAPIs(b: Broker)
  {
    b.cfAPIVersion.Success?
    && b.parseSemver(b.cfAPIVersion.value).Some?
    && MeetsCFMinimum(b.parseSemver(b.cfAPIVersion.value).value)
    && b.directorVersion.Success?
    && b.directorVersion.value.supportsODB
    && (b.serviceOffering.hasLifecycleErrands ==> b.directorVersion.value.supportsLifecycleErrands)
  }

  lemma APIVersionsAcceptIffCompatible(b: Broker)
    ensures CheckAPIVersions(b).None? <==> CompatibleAPIs(b)
  {
  }

  /** A plan ID that still has instances but is missing from the catalogue. */
  predicate OrphanedPlanID(counts: map<string, int>, planIDs: set<string>, id: string)
  {
    id in counts && id !in planIDs && counts[id] > 0
  }

  predicate HasOrphanedPlanID(counts: map<string, int>, planIDs: set<string>)
  {
    exists id | id in counts :: OrphanedPlanID(counts, planIDs, id)
  }

  /** verifyExistingInstancePlanIDsUnchanged: a failure to count instances is passed on
      unchanged; otherwise the check fails exactly when some plan ID with instances is no
      longer configured. Plan IDs with no instances may disappear. The count map is visited
      in no particular order. */
  method VerifyExistingInstancePlanIDsUnchanged(b: Broker) returns (err: Option<Error>)
    ensures b.instanceCountByPlanID.Failure? ==> err == Some(b.instanceCountByPlanID.error)
    ensures b.instanceCountByPlanID.Success? ==>
      (err.None? <==> !HasOrphanedPlanID(b.instanceCountByPlanID.value, b.serviceOffering.planIDs))
      && (err.Some? ==> err == Some(Plain(PlanIDChangedMessage)))
  {
    match b.instanceCountByPlanID
    case Failure(countErr) =>
      return Some(countErr);
    case Success(instanceCountByPlanID) =>
      var planIDs := b.serviceOffering.planIDs;
      var unvisited := instanceCountByPlanID.Keys;
      while unvisited != {}
        invariant unvisited <= instanceCountByPlanID.Keys
        invariant forall id :: id in instanceCountByPlanID && id !in unvisited ==>
          !OrphanedPlanID(instanceCountByPlanID, planIDs, id)
        decreases unvisited
      {
        var planID :| planID in unvisited;
        var found := planID in planIDs;
        if !found && instanceCountByPlanID[planID] > 0 {
          return Some(Plain(PlanIDChangedMessage));
        }
        unvisited := unvisited - {planID};
      }
      return None;
  }

  /** startupChecks: the API checks first; only when they pass is the plan-ID check run, and
      the broker starts only when both pass. */
  method RunStartupChecks(b: Broker) returns (err: Option<Error>)
    ensures CheckAPIVersions(b).Some? ==> err == CheckAPIVersions(b)
    ensures CheckAPIVersions(b).None? && b.instanceCountByPlanID.Failure? ==>
      err == Some(b.instanceCountByPlanID.error)
    ensures CheckAPIVersions(b).None? && b.instanceCountByPlanID.Success? && err.Some? ==>
      err == Some(Plain(PlanIDChangedMessage))
    ensures err.None? <==>
      CompatibleAPIs(b)
      && b.instanceCountByPlanID.Success?
      && !HasOrphanedPlanID(b.instanceCountByPlanID.value, b.serviceOffering.planIDs)
  {
    APIVersionsAcceptIffCompatible(b);
    var apiErr := CheckAPIVersions(b);
    if apiErr.Some? {
      return apiErr;
    }
    var planErr := VerifyExistingInstancePlanIDsUnchanged(b);
    if planErr.Some? {
      return planErr;
    }
    return None;
  }
}
