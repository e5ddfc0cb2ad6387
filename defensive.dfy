/**
 * The defensive research framework: vulnerability research and security
 * assessments of a fixed set of laboratory targets, gated on a lab-environment
 * flag and the target allow-list, plus the derivations of risk levels,
 * recommendations, per-type counts, security gaps and the final report.
 */
module DefensiveResearch {
  import opened Wrappers
  import opened Counting

  datatype ResearchScope = LabOnly | AuthorizedTargets | DefensiveAnalysis | VulnerabilityResearch

  datatype SecurityLevel = Unclassified | Restricted | Confidential {
    function Value(): string {
      match this
      case Unclassified => "unclassified"
      case Restricted => "restricted"
      case Confidential => "confidential"
    }
  }

  /** The `ValueError` both research operations raise. */
  datatype ResearchError = ValueError(message: string)

  datatype VulnerabilityReport = VulnerabilityReport(
    vulnerabilityId: string,
    targetSystem: string,
    vulnerabilityType: string,
    severity: string,
    description: string,
    discoveryDate: Timestamp,
    labEnvironment: bool,
    authorizedResearch: bool,
    defensiveApplication: string,
    remediationRecommendations: seq<string>)

  /**
   * A finding dictionary. The risk level and the recommendations are read
   * with `get` / `in`, so either may be missing.
   */
  datatype Finding = Finding(
    area: string,
    status: string,
    findings: string,
    riskLevel: Option<string>,
    recommendations: Option<seq<string>>)

  datatype SecurityAssessment = SecurityAssessment(
    assessmentId: string,
    targetSystem: string,
    assessmentType: string,
    findings: seq<Finding>,
    riskLevel: string,
    recommendations: seq<string>,
    assessmentDate: Timestamp,
    authorizedBy: string)

  const LabTargets: set<string> :=
    {"lab_test_system_1", "lab_test_system_2", "lab_bridge_node_1", "lab_relay_node_1", "lab_directory_authority_1"}

  const ResearchAreas: seq<string> :=
    ["authentication_mechanisms", "encryption_implementation", "network_protocols", "access_controls",
     "session_management"]

  const AssessmentAreas: seq<string> :=
    ["network_security", "application_security", "data_protection", "access_controls", "monitoring_and_logging"]

  // ---------------------------------------------------------------------------
  // Vulnerability research report builders. `stamp` is `str(int(time.time()))`.

  function NewReport(prefix: string, target: string, stamp: string, now: Timestamp, vulnerabilityType: string,
                     severity: string, description: string, application: string,
                     recommendations: seq<string>): VulnerabilityReport
  {
    VulnerabilityReport(prefix + "_" + target + "_" + stamp, target, vulnerabilityType, severity, description, now,
                        true, true, application, recommendations)
  }

  function ResearchAuthVulnerabilities(target: string, stamp: string, now: Timestamp): VulnerabilityReport {
    NewReport("AUTH", target, stamp, now, "authentication_weakness", "medium",
              "Research finding for authentication mechanism improvement", "Improve authentication systems",
              ["Implement multi-factor authentication", "Strengthen password policies",
               "Add rate limiting for authentication attempts"])
  }

  function ResearchEncryptionVulnerabilities(target: string, stamp: string, now: Timestamp): VulnerabilityReport {
    NewReport("ENC", target, stamp, now, "encryption_weakness", "high",
              "Research finding for encryption implementation improvement", "Improve encryption systems",
              ["Upgrade to stronger encryption algorithms", "Implement proper key management",
               "Add encryption integrity checks"])
  }

  function ResearchNetworkVulnerabilities(target: string, stamp: string, now: Timestamp): VulnerabilityReport {
    NewReport("NET", target, stamp, now, "network_protocol_weakness", "medium",
              "Research finding for network protocol improvement", "Improve network security",
              ["Implement network segmentation", "Add intrusion detection systems", "Strengthen network monitoring"])
  }

  function ResearchAccessControlVulnerabilities(target: string, stamp: string, now: Timestamp): VulnerabilityReport {
    NewReport("ACL", target, stamp, now, "access_control_weakness", "high",
              "Research finding for access control improvement", "Improve access control systems",
              ["Implement role-based access control", "Add access logging and monitoring",
               "Strengthen privilege escalation controls"])
  }

  function ResearchSessionVulnerabilities(target: string, stamp: string, now: Timestamp): VulnerabilityReport {
    NewReport("SESS", target, stamp, now, "session_management_weakness", "medium",
              "Research finding for session management improvement", "Improve session management",
              ["Implement secure session tokens", "Add session timeout controls", "Strengthen session validation"])
  }

  /** Dispatch on the research area; an area with no researcher yields nothing. */
  function ResearchVulnerabilityArea(target: string, area: string, stamp: string, now: Timestamp)
    : (r: Option<VulnerabilityReport>)
    ensures r.Some? <==> area in ResearchAreas
    ensures r.Some? ==> r.value.targetSystem == target && r.value.discoveryDate == now
                        && r.value.labEnvironment && r.value.authorizedResearch
  {
    if area == "authentication_mechanisms" then Some(ResearchAuthVulnerabilities(target, stamp, now))
    else if area == "encryption_implementation" then Some(ResearchEncryptionVulnerabilities(target, stamp, now))
    else if area == "network_protocols" then Some(ResearchNetworkVulnerabilities(target, stamp, now))
    else if area == "access_controls" then Some(ResearchAccessControlVulnerabilities(target, stamp, now))
    else if area == "session_management" then Some(ResearchSessionVulnerabilities(target, stamp, now))
    else None
  }

  /** The five reports, one per research area, in the order of `ResearchAreas`. */
  function VulnerabilitySuite(target: string, stamp: string, now: Timestamp): seq<VulnerabilityReport> {
    [ResearchAuthVulnerabilities(target, stamp, now), ResearchEncryptionVulnerabilities(target, stamp, now),
     ResearchNetworkVulnerabilities(target, stamp, now), ResearchAccessControlVulnerabilities(target, stamp, now),
     ResearchSessionVulnerabilities(target, stamp, now)]
  }

  /** Every research area has a researcher, and they run in the listed order. */
  lemma ResearchAreasCovered(target: string, stamp: string, now: Timestamp)
    ensures forall k :: 0 <= k < |ResearchAreas| ==>
              ResearchVulnerabilityArea(target, ResearchAreas[k], stamp, now)
              == Some(VulnerabilitySuite(target, stamp, now)[k])
  {
    var suite := VulnerabilitySuite(target, stamp, now);
    assert ResearchVulnerabilityArea(target, ResearchAreas[0], stamp, now) == Some(suite[0]);
    assert ResearchVulnerabilityArea(target, ResearchAreas[1], stamp, now) == Some(suite[1]);
    assert ResearchVulnerabilityArea(target, ResearchAreas[2], stamp, now) == Some(suite[2]);
    assert ResearchVulnerabilityArea(target, ResearchAreas[3], stamp, now) == Some(suite[3]);
    assert ResearchVulnerabilityArea(target, ResearchAreas[4], stamp, now) == Some(suite[4]);
  }

  /** Five reports on `target`: types and severities in order, all lab-authorized. */
  lemma VulnerabilitySuiteShape(target: string, stamp: string, now: Timestamp)
    ensures var suite := VulnerabilitySuite(target, stamp, now);
      && |suite| == 5
      && VulnerabilityTypes(suite) ==
           ["authentication_weakness", "encryption_weakness", "network_protocol_weakness",
            "access_control_weakness", "session_management_weakness"]
      && Severities(suite) == ["medium", "high", "medium", "high", "medium"]
      && (forall i :: 0 <= i < 5 ==>
            suite[i].targetSystem == target && suite[i].discoveryDate == now
            && suite[i].labEnvironment && suite[i].authorizedResearch)
  {
  }

  function VulnerabilityTypes(reports: seq<VulnerabilityReport>): (r: seq<string>)
    ensures |r| == |reports| && forall i :: 0 <= i < |r| ==> r[i] == reports[i].vulnerabilityType
  {
    seq(|reports|, i requires 0 <= i < |reports| => reports[i].vulnerabilityType)
  }

  function Severities(reports: seq<VulnerabilityReport>): (r: seq<string>)
    ensures |r| == |reports| && forall i :: 0 <= i < |r| ==> r[i] == reports[i].severity
  {
    seq(|reports|, i requires 0 <= i < |reports| => reports[i].severity)
  }

  // ---------------------------------------------------------------------------
  // Security assessment

  function AssessSecurityArea(target: string, area: string): (r: Finding)
    ensures r.area == area && r.riskLevel == Some("medium")
    ensures r.recommendations.Some? && |r.recommendations.value| == 3
  {
    Finding(area, "assessed", "Assessment findings for " + area + " on " + target, Some("medium"),
            Some(["Improve " + area + " security controls", "Implement " + area + " monitoring",
                  "Strengthen " + area + " protection measures"]))
  }

  /** One finding per assessment area, in order (a finding dictionary is never empty). */
  method ConductAssessmentFindings(target: string) returns (findings: seq<Finding>)
    ensures |findings| == |AssessmentAreas|
    ensures forall i :: 0 <= i < |findings| ==> findings[i] == AssessSecurityArea(target, AssessmentAreas[i])
  {
    findings := [];
    for i := 0 to |AssessmentAreas|
      invariant |findings| == i
      invariant forall j :: 0 <= j < i ==> findings[j] == AssessSecurityArea(target, AssessmentAreas[j])
    {
      var finding := AssessSecurityArea(target, AssessmentAreas[i]);
      findings := findings + [finding];
    }
  }

  /** How many findings carry risk level `level`. */
  function CountRisk(findings: seq<Finding>, level: string): (r: nat)
    ensures r <= |findings|
    ensures r > 0 <==> exists i :: 0 <= i < |findings| && findings[i].riskLevel == Some(level)
    ensures r == |findings| <==> forall i :: 0 <= i < |findings| ==> findings[i].riskLevel == Some(level)
  {
    if findings == [] then 0
    else (if findings[0].riskLevel == Some(level) then 1 else 0) + CountRisk(findings[1..], level)
  }

  lemma {:induction false} CountRiskAppend(a: seq<Finding>, b: seq<Finding>, level: string)
    ensures CountRisk(a + b, level) == CountRisk(a, level) + CountRisk(b, level)
  {
    if a != [] {
      assert (a + b)[0] == a[0];
      assert (a + b)[1..] == a[1..] + b;
      CountRiskAppend(a[1..], b, level);
    } else {
      assert a + b == b;
    }
  }

  /**
   * Overall risk: 'high' if any finding is high, else 'medium' if more than two
   * are medium, else 'low'. (The count of 'low' findings is computed by the
   * source and never used.)
   */
  function CalculateRiskLevel(findings: seq<Finding>): (r: string)
    ensures r == "high" <==> exists i :: 0 <= i < |findings| && findings[i].riskLevel == Some("high")
    ensures r == "medium" <==> CountRisk(findings, "high") == 0 && CountRisk(findings, "medium") > 2
    ensures r == "low" <==> CountRisk(findings, "high") == 0 && CountRisk(findings, "medium") <= 2
  {
    if CountRisk(findings, "high") > 0 then "high"
    else if CountRisk(findings, "medium") > 2 then "medium"
    else "low"
  }

  /** A finding whose risk level is missing or neither 'high' nor 'medium' never changes the verdict. */
  lemma RiskLevelIgnoresOtherFindings(findings: seq<Finding>, k: nat, f: Finding)
    requires k <= |findings|
    requires f.riskLevel != Some("high") && f.riskLevel != Some("medium")
    ensures CalculateRiskLevel(findings[..k] + [f] + findings[k..]) == CalculateRiskLevel(findings)
  {
    var a, b := findings[..k], findings[k..];
    assert findings == a + b;
    forall level | level == "high" || level == "medium"
      ensures CountRisk(a + [f] + b, level) == CountRisk(findings, level)
    {
      CountRiskAppend(a + [f], b, level);
      CountRiskAppend(a, [f], level);
      CountRiskAppend(a, b, level);
    }
  }

  /** More than two findings, all 'medium', always give 'medium'. */
  lemma AllMediumIsMedium(findings: seq<Finding>)
    requires |findings| > 2
    requires forall i :: 0 <= i < |findings| ==> findings[i].riskLevel == Some("medium")
    ensures CalculateRiskLevel(findings) == "medium"
  {
    assert CountRisk(findings, "medium") == |findings|;
    assert forall i :: 0 <= i < |findings| ==> findings[i].riskLevel != Some("high");
  }

  /** The recommendations a finding contributes (none when the key is absent). */
  function Recommendations(f: Finding): seq<string> {
    match f.recommendations
    case None => []
    case Some(rs) => rs
  }

  /** The recommendations of `findings`, concatenated in order, duplicates kept. */
  function CollectedRecommendations(findings: seq<Finding>): seq<string>
    decreases |findings|
  {
    if findings == [] then []
    else CollectedRecommendations(findings[..|findings| - 1]) + Recommendations(findings[|findings| - 1])
  }

  lemma {:induction false} CollectedRecommendationsMembership(findings: seq<Finding>, x: string)
    ensures x in CollectedRecommendations(findings) <==>
              exists i :: 0 <= i < |findings| && x in Recommendations(findings[i])
    decreases |findings|
  {
    if findings != [] {
      var front := findings[..|findings| - 1];
      CollectedRecommendationsMembership(front, x);
      assert forall i :: 0 <= i < |front| ==> front[i] == findings[i];
    }
  }

  /**
   * The distinct recommendations of all findings that have a 'recommendations'
   * entry. The source turns a set into a list, so the order is unspecified:
   * it is chosen arbitrarily here too.
   */
  method GenerateRecommendations(findings: seq<Finding>) returns (r: seq<string>)
    ensures forall i, j :: 0 <= i < j < |r| ==> r[i] != r[j]
    ensures forall x :: x in r <==> exists i :: 0 <= i < |findings| && x in Recommendations(findings[i])
  {
    var recommendations := [];
    for i := 0 to |findings|
      invariant recommendations == CollectedRecommendations(findings[..i])
    {
      assert findings[..i + 1][..i] == findings[..i];
      recommendations := recommendations + Recommendations(findings[i]);
    }
    assert findings[..|findings|] == findings;
    var pool := set x | x in recommendations;
    r := [];
    while pool != {}
      invariant forall i, j :: 0 <= i < j < |r| ==> r[i] != r[j]
      invariant forall x :: x in r ==> x !in pool
      invariant forall x :: x in recommendations <==> x in r || x in pool
      decreases pool
    {
      var x :| x in pool;
      r := r + [x];
      pool := pool - {x};
    }
    forall x ensures x in r <==> exists i :: 0 <= i < |findings| && x in Recommendations(findings[i]) {
      CollectedRecommendationsMembership(findings, x);
    }
  }

  // ---------------------------------------------------------------------------
  // Pattern analysis

  datatype VulnerabilityPatterns = VulnerabilityPatterns(
    commonVulnerabilities: seq<string>,
    vulnerabilityDistribution: map<string, nat>,
    trends: seq<string>,
    mitigationStrategies: seq<string>)

  datatype Gap = Gap(target: string, area: string, riskLevel: string, description: string)

  predicate IsGap(f: Finding) {
    f.riskLevel == Some("high") || f.riskLevel == Some("medium")
  }

  /** The gaps one assessment's findings give, in order. */
  function FindingGaps(target: string, findings: seq<Finding>): seq<Gap>
    decreases |findings|
  {
    if findings == [] then []
    else
      var f := findings[|findings| - 1];
      FindingGaps(target, findings[..|findings| - 1]) + (if IsGap(f) then [GapOf(target, f)] else [])
  }

  /**
   * One gap per high- or medium-risk finding and nothing else: each gap is
   * high or medium and carries the assessment's target.
   */
  lemma {:induction false} FindingGapsSound(target: string, findings: seq<Finding>)
    ensures |FindingGaps(target, findings)| == CountRisk(findings, "high") + CountRisk(findings, "medium")
    ensures forall g :: g in FindingGaps(target, findings) ==>
              g.target == target && (g.riskLevel == "high" || g.riskLevel == "medium")
    decreases |findings|
  {
    if findings != [] {
      var front, f := findings[..|findings| - 1], findings[|findings| - 1];
      assert findings == front + [f];
      FindingGapsSound(target, front);
      CountRiskAppend(front, [f], "high");
      CountRiskAppend(front, [f], "medium");
    }
  }

  function GapOf(target: string, f: Finding): Gap
    requires IsGap(f)
  {
    Gap(target, f.area, f.riskLevel.value, f.findings)
  }

  /** One more finding adds its gap, if it is one, at the end. */
  lemma GapsOfPrefix(target: string, findings: seq<Finding>, j: nat)
    requires j < |findings|
    ensures FindingGaps(target, findings[..j + 1]) ==
              FindingGaps(target, findings[..j]) + (if IsGap(findings[j]) then [GapOf(target, findings[j])] else [])
  {
    assert findings[..j + 1][..j] == findings[..j];
  }

  /** The gaps of all assessments, assessment by assessment. */
  function SecurityGaps(assessments: seq<SecurityAssessment>): seq<Gap>
    decreases |assessments|
  {
    if assessments == [] then []
    else
      var a := assessments[|assessments| - 1];
      SecurityGaps(assessments[..|assessments| - 1]) + FindingGaps(a.targetSystem, a.findings)
  }

  /** Every gap is high or medium risk and names the target of one of the assessments. */
  lemma {:induction false} SecurityGapsSound(assessments: seq<SecurityAssessment>)
    ensures forall g :: g in SecurityGaps(assessments) ==> g.riskLevel == "high" || g.riskLevel == "medium"
    ensures forall g :: g in SecurityGaps(assessments) ==>
              exists i :: 0 <= i < |assessments| && g.target == assessments[i].targetSystem
    decreases |assessments|
  {
    if assessments != [] {
      var front, a := assessments[..|assessments| - 1], assessments[|assessments| - 1];
      SecurityGapsSound(front);
      FindingGapsSound(a.targetSystem, a.findings);
      assert forall i :: 0 <= i < |front| ==> front[i] == assessments[i];
    }
  }

  /** The number of gaps is the number of high- and medium-risk findings. */
  lemma {:induction false} SecurityGapsCount(assessments: seq<SecurityAssessment>)
    ensures |SecurityGaps(assessments)| == RiskyFindings(assessments)
    decreases |assessments|
  {
    if assessments != [] {
      var a := assessments[|assessments| - 1];
      SecurityGapsCount(assessments[..|assessments| - 1]);
      FindingGapsSound(a.targetSystem, a.findings);
    }
  }

  function RiskyFindings(assessments: seq<SecurityAssessment>): nat
    decreases |assessments|
  {
    if assessments == [] then 0
    else
      var a := assessments[|assessments| - 1];
      RiskyFindings(assessments[..|assessments| - 1])
      + CountRisk(a.findings, "high") + CountRisk(a.findings, "medium")
  }

  datatype Opportunity = Opportunity(
    target: string,
    vulnerabilityType: string,
    defensiveApplication: string,
    recommendations: seq<string>)

  function OpportunityOf(report: VulnerabilityReport): Opportunity {
    Opportunity(report.targetSystem, report.vulnerabilityType, report.defensiveApplication,
                report.remediationRecommendations)
  }

  function GenerateDefensiveRecommendations(): (r: seq<string>)
    ensures |r| == 8
  {
    ["Implement comprehensive security monitoring",
     "Strengthen authentication and access controls",
     "Enhance encryption and data protection",
     "Improve network security and segmentation",
     "Add intrusion detection and prevention systems",
     "Implement security awareness training",
     "Regular security assessments and penetration testing",
     "Incident response planning and procedures"]
  }

  datatype DefensivePatterns = DefensivePatterns(
    vulnerabilityPatterns: VulnerabilityPatterns,
    securityGaps: seq<Gap>,
    improvementOpportunities: seq<Opportunity>,
    defensiveRecommendations: seq<string>)

  datatype ExecutiveSummary = ExecutiveSummary(
    totalVulnerabilities: nat,
    totalAssessments: nat,
    overallRiskLevel: string,
    keyFindings: seq<string>,
    recommendations: seq<string>)

  datatype RecommendationPlan = RecommendationPlan(
    immediateActions: seq<string>,
    shortTermImprovements: seq<string>,
    longTermStrategies: seq<string>)

  /** The report; the serialised records are the records themselves. */
  datatype DefensiveReport = DefensiveReport(
    reportId: string,
    generationDate: Timestamp,
    labEnvironment: bool,
    authorizedResearch: bool,
    securityLevel: string,
    executiveSummary: ExecutiveSummary,
    vulnerabilityReports: seq<VulnerabilityReport>,
    patterns: VulnerabilityPatterns,
    assessments: seq<SecurityAssessment>,
    gaps: seq<Gap>,
    defensiveAnalysis: DefensivePatterns,
    recommendations: RecommendationPlan)

  /** Marks the report encrypted; it leaves every field as it is. */
  function EncryptSensitiveData(report: DefensiveReport): DefensiveReport {
    report
  }

  class DefensiveResearchFramework {
    var labEnvironment: bool
    var authorizedTargets: set<string>
    var researchScope: ResearchScope
    var securityLevel: SecurityLevel
    var vulnerabilityReports: seq<VulnerabilityReport>
    var securityAssessments: seq<SecurityAssessment>

    constructor (labEnvironment: bool)
      ensures this.labEnvironment == labEnvironment && authorizedTargets == LabTargets
      ensures researchScope == LabOnly && securityLevel == Restricted
      ensures vulnerabilityReports == [] && securityAssessments == []
    {
      this.labEnvironment := labEnvironment;
      researchScope := LabOnly;
      securityLevel := Restricted;
      vulnerabilityReports := [];
      securityAssessments := [];
      authorizedTargets := LabTargets;
    }

    /**
     * Five reports (authentication, encryption, network, access control,
     * session), appended to `vulnerabilityReports`; a non-lab framework or an
     * unlisted target is refused and nothing changes.
     */
    method ResearchVulnerabilities(target: string, stamp: string, now: Timestamp)
      returns (r: Result<seq<VulnerabilityReport>, ResearchError>)
      modifies this`vulnerabilityReports
      ensures !labEnvironment ==> r == Failure(ValueError("Research must be conducted in lab environment"))
      ensures labEnvironment && target !in authorizedTargets ==>
                r == Failure(ValueError("Target " + target + " not authorized for research"))
      ensures r.Success? <==> labEnvironment && target in authorizedTargets
      ensures r.Failure? ==> vulnerabilityReports == old(vulnerabilityReports)
      ensures r.Success? ==>
                && r.value == VulnerabilitySuite(target, stamp, now)
                && vulnerabilityReports == old(vulnerabilityReports) + r.value
    {
      if !labEnvironment {
        return Failure(ValueError("Research must be conducted in lab environment"));
      }
      if target !in authorizedTargets {
        return Failure(ValueError("Target " + target + " not authorized for research"));
      }
      ResearchAreasCovered(target, stamp, now);
      ghost var suite := VulnerabilitySuite(target, stamp, now);
      var vulnerabilities := [];
      for i := 0 to |ResearchAreas|
        invariant vulnerabilities == suite[..i]
      {
        var vulnerability := ResearchVulnerabilityArea(target, ResearchAreas[i], stamp, now);
        assert vulnerability == Some(suite[i]);
        if vulnerability.Some? {
          vulnerabilities := vulnerabilities + [vulnerability.value];
        }
        assert suite[..i + 1] == suite[..i] + [suite[i]];
      }
      assert suite[..|ResearchAreas|] == suite;
      vulnerabilityReports := vulnerabilityReports + vulnerabilities;
      return Success(vulnerabilities);
    }

    /**
     * One assessment of the five areas, appended to `securityAssessments`;
     * every finding is 'medium', so the overall risk is 'medium'.
     */
    method ConductSecurityAssessment(target: string, stamp: string, now: Timestamp)
      returns (r: Result<SecurityAssessment, ResearchError>)
      modifies this`securityAssessments
      ensures !labEnvironment ==> r == Failure(ValueError("Assessment must be conducted in lab environment"))
      ensures labEnvironment && target !in authorizedTargets ==>
                r == Failure(ValueError("Target " + target + " not authorized for assessment"))
      ensures r.Success? <==> labEnvironment && target in authorizedTargets
      ensures r.Failure? ==> securityAssessments == old(securityAssessments)
      ensures r.Success? ==>
                && r.value.targetSystem == target
                && r.value.assessmentId == "ASSESS_" + target + "_" + stamp
                && r.value.assessmentType == "comprehensive_security_assessment"
                && r.value.authorizedBy == "DEFENSIVE_RESEARCH_PROGRAM"
                && r.value.assessmentDate == now
                && |r.value.findings| == 5
                && (forall i :: 0 <= i < 5 ==> r.value.findings[i] == AssessSecurityArea(target, AssessmentAreas[i]))
                && (forall i :: 0 <= i < 5 ==>
                      r.value.findings[i].area == AssessmentAreas[i] && r.value.findings[i].riskLevel == Some("medium"))
                && r.value.riskLevel == "medium"
                && (forall i, j :: 0 <= i < j < |r.value.recommendations| ==>
                      r.value.recommendations[i] != r.value.recommendations[j])
                && (forall x :: x in r.value.recommendations <==>
                      exists i :: 0 <= i < 5 && x in Recommendations(r.value.findings[i]))
                && securityAssessments == old(securityAssessments) + [r.value]
    {
      if !labEnvironment {
        return Failure(ValueError("Assessment must be conducted in lab environment"));
      }
      if target !in authorizedTargets {
        return Failure(ValueError("Target " + target + " not authorized for assessment"));
      }
      var findings := ConductAssessmentFindings(target);
      AllMediumIsMedium(findings);
      var recommendations := GenerateRecommendations(findings);
      var assessment := SecurityAssessment("ASSESS_" + target + "_" + stamp, target,
                                           "comprehensive_security_assessment", findings,
                                           CalculateRiskLevel(findings), recommendations, now,
                                           "DEFENSIVE_RESEARCH_PROGRAM");
      securityAssessments := securityAssessments + [assessment];
      return Success(assessment);
    }

    /** Counts the reports per vulnerability type. */
    method AnalyzeVulnerabilityPatterns() returns (p: VulnerabilityPatterns)
      ensures p.vulnerabilityDistribution == Tally(VulnerabilityTypes(vulnerabilityReports))
      ensures MapSum(p.vulnerabilityDistribution) == |vulnerabilityReports|
      ensures forall t :: t in p.vulnerabilityDistribution ==> p.vulnerabilityDistribution[t] >= 1
      ensures p.commonVulnerabilities == [] && p.trends == [] && p.mitigationStrategies == []
    {
      var types := VulnerabilityTypes(vulnerabilityReports);
      var distribution: map<string, nat> := map[];
      for i := 0 to |vulnerabilityReports|
        invariant distribution == Tally(types[..i])
      {
        var vulnType := vulnerabilityReports[i].vulnerabilityType;
        distribution := Increment(distribution, vulnType);
        assert types[..i + 1] == types[..i] + [vulnType];
        TallySnoc(types[..i], vulnType);
      }
      assert types[..|types|] == types;
      TallySum(types);
      TallyCounts(types);
      p := VulnerabilityPatterns([], distribution, [], []);
    }

    /** One gap per high- or medium-risk finding, assessment by assessment. */
    method AnalyzeSecurityGaps() returns (gaps: seq<Gap>)
      ensures gaps == SecurityGaps(securityAssessments)
      ensures |gaps| == RiskyFindings(securityAssessments)
    {
      gaps := [];
      for i := 0 to |securityAssessments|
        invariant gaps == SecurityGaps(securityAssessments[..i])
      {
        var assessment := securityAssessments[i];
        ghost var done := gaps;
        for j := 0 to |assessment.findings|
          invariant gaps == done + FindingGaps(assessment.targetSystem, assessment.findings[..j])
        {
          var finding := assessment.findings[j];
          ghost var before := gaps;
          if finding.riskLevel == Some("high") || finding.riskLevel == Some("medium") {
            gaps := gaps + [Gap(assessment.targetSystem, finding.area, finding.riskLevel.value, finding.findings)];
          }
          GapsOfPrefix(assessment.targetSystem, assessment.findings, j);
          assert gaps == before + (if IsGap(finding) then [GapOf(assessment.targetSystem, finding)] else []);
        }
        assert assessment.findings[..|assessment.findings|] == assessment.findings;
        assert securityAssessments[..i + 1][..i] == securityAssessments[..i];
      }
      assert securityAssessments[..|securityAssessments|] == securityAssessments;
      SecurityGapsCount(securityAssessments);
    }

    /** One opportunity per vulnerability report, in order. */
    method AnalyzeImprovementOpportunities() returns (opportunities: seq<Opportunity>)
      ensures |opportunities| == |vulnerabilityReports|
      ensures forall i :: 0 <= i < |opportunities| ==> opportunities[i] == OpportunityOf(vulnerabilityReports[i])
    {
      opportunities := [];
      for i := 0 to |vulnerabilityReports|
        invariant |opportunities| == i
        invariant forall j :: 0 <= j < i ==> opportunities[j] == OpportunityOf(vulnerabilityReports[j])
      {
        opportunities := opportunities + [OpportunityOf(vulnerabilityReports[i])];
      }
    }

    method AnalyzeDefensivePatterns() returns (p: DefensivePatterns)
      ensures p.vulnerabilityPatterns.vulnerabilityDistribution == Tally(VulnerabilityTypes(vulnerabilityReports))
      ensures p.vulnerabilityPatterns.commonVulnerabilities == [] && p.vulnerabilityPatterns.trends == []
              && p.vulnerabilityPatterns.mitigationStrategies == []
      ensures p.securityGaps == SecurityGaps(securityAssessments)
      ensures |p.improvementOpportunities| == |vulnerabilityReports|
      ensures forall i :: 0 <= i < |p.improvementOpportunities| ==>
                p.improvementOpportunities[i] == OpportunityOf(vulnerabilityReports[i])
      ensures p.defensiveRecommendations == GenerateDefensiveRecommendations()
    {
      var patterns := AnalyzeVulnerabilityPatterns();
      var gaps := AnalyzeSecurityGaps();
      var opportunities := AnalyzeImprovementOpportunities();
      p := DefensivePatterns(patterns, gaps, opportunities, GenerateDefensiveRecommendations());
    }

    /**
     * The report: totals equal the lengths of the two lists, which it reads
     * but does not change (no `modifies`).
     */
    method GenerateDefensiveReport(stamp: string, now: Timestamp) returns (report: DefensiveReport)
      ensures report.executiveSummary.totalVulnerabilities == |vulnerabilityReports|
      ensures report.executiveSummary.totalAssessments == |securityAssessments|
      ensures report.executiveSummary.overallRiskLevel == "medium"
      ensures report.vulnerabilityReports == vulnerabilityReports && report.assessments == securityAssessments
      ensures report.patterns.vulnerabilityDistribution == Tally(VulnerabilityTypes(vulnerabilityReports))
      ensures MapSum(report.patterns.vulnerabilityDistribution) == |vulnerabilityReports|
      ensures report.gaps == SecurityGaps(securityAssessments)
      ensures report.reportId == "DEFENSIVE_REPORT_" + stamp && report.labEnvironment == labEnvironment
      ensures report.authorizedResearch && report.securityLevel == securityLevel.Value()
      ensures report.generationDate == now
      ensures report.executiveSummary.keyFindings == [] && report.executiveSummary.recommendations == []
      ensures report.patterns.commonVulnerabilities == [] && report.patterns.trends == []
              && report.patterns.mitigationStrategies == []
      ensures report.recommendations == RecommendationPlan([], [], [])
      ensures var a := report.defensiveAnalysis;
        && a.vulnerabilityPatterns.vulnerabilityDistribution == Tally(VulnerabilityTypes(vulnerabilityReports))
        && a.vulnerabilityPatterns.commonVulnerabilities == [] && a.vulnerabilityPatterns.trends == []
        && a.vulnerabilityPatterns.mitigationStrategies == []
        && a.securityGaps == SecurityGaps(securityAssessments)
        && |a.improvementOpportunities| == |vulnerabilityReports|
        && (forall i :: 0 <= i < |a.improvementOpportunities| ==>
              a.improvementOpportunities[i] == OpportunityOf(vulnerabilityReports[i]))
        && a.defensiveRecommendations == GenerateDefensiveRecommendations()
    {
      var patterns := AnalyzeVulnerabilityPatterns();
      var gaps := AnalyzeSecurityGaps();
      var analysis := AnalyzeDefensivePatterns();
      var summary := ExecutiveSummary(|vulnerabilityReports|, |securityAssessments|, "medium", [], []);
      report := DefensiveReport("DEFENSIVE_REPORT_" + stamp, now, labEnvironment, true, securityLevel.Value(),
                                summary, vulnerabilityReports, patterns, securityAssessments, gaps, analysis,
                                RecommendationPlan([], [], []));
      report := EncryptSensitiveData(report);
    }
  }
}
