/**
 * The authorized bridge enumeration engine: a compliance monitor that gates
 * every operation on a lab-environment flag and an allow-list and keeps two
 * append-only audit logs, the bridge discovery engine that enumerates
 * descriptors and encrypts their identifying fields, and the CAPTCHA research
 * framework whose operations pass through the same gate.
 */
module AuthorizedEnumeration {
  import opened Wrappers

  datatype AuthorizationLevel = LabOnly | AuthorizedResearch | DefensiveAnalysis

  /** The two exceptions the gate raises. */
  datatype EnumerationError =
    | ComplianceError(message: string)
    | UnauthorizedOperationError(message: string)

  datatype AuthorizationRecord = AuthorizationRecord(
    operation: string,
    authorizationLevel: AuthorizationLevel,
    timestamp: Timestamp,
    user: string,
    labEnvironment: bool,
    writtenAuthorization: string)

  /** An entry of the activity log (a dictionary in the source). */
  datatype ActivityRecord = ActivityRecord(
    activity: string,
    details: map<string, string>,
    timestamp: Timestamp,
    user: string,
    environment: string)

  datatype BridgeDescriptor = BridgeDescriptor(
    fingerprint: string,
    address: string,
    port: int,
    transport: string,
    lastSeen: Timestamp,
    source: string,
    authorized: bool)

  /** The identity every audit record is attributed to. */
  function CurrentUser(): string { "RESEARCH_USER" }

  const WrittenAuthorization: string := "AUTHORIZED_RESEARCH_PROGRAM"
  const NotInLab: string := "Operation must be performed in lab environment"

  function NotAuthorized(operation: string): string {
    "Operation " + operation + " not authorized"
  }

  /** The record a successful authorization check appends. */
  function AuthorizationEntry(operation: string, level: AuthorizationLevel, now: Timestamp): AuthorizationRecord {
    AuthorizationRecord(operation, level, now, CurrentUser(), true, WrittenAuthorization)
  }

  /** The record a gated operation logs before doing its work. */
  function ActivityEntry(operation: string, scope: string, now: Timestamp): ActivityRecord {
    ActivityRecord(operation, map["scope" := scope, "environment" := "lab_only"], now, CurrentUser(), "lab_only")
  }

  /** The exception, if any, that the gate raises for `operation`. */
  function GateFailure(labEnvironment: bool, authorizedOperations: set<string>, operation: string): (r: Option<EnumerationError>)
    ensures !labEnvironment ==> r == Some(ComplianceError(NotInLab))
    ensures labEnvironment ==> (r.None? <==> operation in authorizedOperations)
    ensures labEnvironment && operation !in authorizedOperations ==> r == Some(UnauthorizedOperationError(NotAuthorized(operation)))
  {
    if !labEnvironment then Some(ComplianceError(NotInLab))
    else if operation !in authorizedOperations then Some(UnauthorizedOperationError(NotAuthorized(operation)))
    else None
  }

  class ComplianceMonitor {
    var authorizationLog: seq<AuthorizationRecord>
    var activityLog: seq<ActivityRecord>
    var labEnvironment: bool
    var authorizedOperations: set<string>

    /** A fresh monitor is in the lab, has empty logs and allows nothing. */
    constructor ()
      ensures authorizationLog == [] && activityLog == []
      ensures labEnvironment && authorizedOperations == {}
    {
      authorizationLog := [];
      activityLog := [];
      labEnvironment := true;
      authorizedOperations := {};
    }

    /**
     * The gate: the environment is checked before the allow-list, and exactly
     * one authorization record is appended when, and only when, both pass.
     */
    method VerifyAuthorization(operation: string, level: AuthorizationLevel, now: Timestamp)
      returns (r: Outcome<EnumerationError>)
      modifies this`authorizationLog
      ensures r.Pass? <==> labEnvironment && operation in authorizedOperations
      ensures !labEnvironment ==> r == Fail(ComplianceError(NotInLab))
      ensures labEnvironment && operation !in authorizedOperations ==>
                r == Fail(UnauthorizedOperationError(NotAuthorized(operation)))
      ensures r.Pass? ==> authorizationLog == old(authorizationLog) + [AuthorizationEntry(operation, level, now)]
      ensures r.Fail? ==> authorizationLog == old(authorizationLog)
    {
      if !labEnvironment {
        return Fail(ComplianceError(NotInLab));
      }
      if operation !in authorizedOperations {
        return Fail(UnauthorizedOperationError(NotAuthorized(operation)));
      }
      LogAuthorizationCheck(operation, level, now);
      return Pass;
    }

    method LogAuthorizationCheck(operation: string, level: AuthorizationLevel, now: Timestamp)
      modifies this`authorizationLog
      ensures authorizationLog ==
                old(authorizationLog) + [AuthorizationRecord(operation, level, now, CurrentUser(), labEnvironment, WrittenAuthorization)]
    {
      var record := AuthorizationRecord(operation, level, now, CurrentUser(), labEnvironment, WrittenAuthorization);
      authorizationLog := authorizationLog + [record];
    }

    method LogActivity(activity: string, details: map<string, string>, now: Timestamp)
      modifies this`activityLog
      ensures activityLog == old(activityLog) + [ActivityRecord(activity, details, now, CurrentUser(), "lab_only")]
    {
      activityLog := activityLog + [ActivityRecord(activity, details, now, CurrentUser(), "lab_only")];
    }

    /**
     * The gate followed by the activity log entry, the opening of every public
     * operation of the engines below. On failure neither log changes.
     */
    method Admit(operation: string, level: AuthorizationLevel, scope: string, now: Timestamp)
      returns (r: Outcome<EnumerationError>)
      modifies this`authorizationLog, this`activityLog
      ensures r == (match GateFailure(labEnvironment, authorizedOperations, operation)
                    case None => Pass
                    case Some(e) => Fail(e))
      ensures r.Pass? ==> authorizationLog == old(authorizationLog) + [AuthorizationEntry(operation, level, now)]
      ensures r.Pass? ==> activityLog == old(activityLog) + [ActivityEntry(operation, scope, now)]
      ensures r.Fail? ==> authorizationLog == old(authorizationLog) && activityLog == old(activityLog)
    {
      r := VerifyAuthorization(operation, level, now);
      if r.Pass? {
        LogActivity(operation, map["scope" := scope, "environment" := "lab_only"], now);
      }
    }
  }

  /** A fresh monitor rejects every operation, whatever the level. */
  method FreshMonitorRejects(operation: string, level: AuthorizationLevel, now: Timestamp)
    returns (r: Outcome<EnumerationError>)
    ensures r == Fail(UnauthorizedOperationError(NotAuthorized(operation)))
  {
    var monitor := new ComplianceMonitor();
    r := monitor.VerifyAuthorization(operation, level, now);
  }

  /**
   * The symmetric cipher of one engine, keyed when the engine is built. It is
   * a foreign library: only its round trip is relied on, and decrypting a
   * token the key did not produce fails (`None`).
   */
  datatype Cipher = Cipher(encrypt: string -> string, decrypt: string -> Option<string>)

  ghost predicate RoundTrips(c: Cipher) {
    forall s: string :: c.decrypt(c.encrypt(s)) == Some(s)
  }

  const PublicTorDirectories: string := "public_tor_directories"
  const AuthorizedResearchSources: string := "authorized_research_sources"
  const LabTestDataSource: string := "lab_test_data"

  const EnumerateOperation: string := "enumerate_public_bridges"
  const AnalyzePatternsOperation: string := "analyze_bridge_patterns"

  /** The fixed laboratory descriptor set. */
  function LabTestData(now: Timestamp): (r: seq<BridgeDescriptor>)
    ensures |r| == 1
    ensures r[0].port == 443 && r[0].transport == "obfs4"
    ensures r[0].source == LabTestDataSource && r[0].authorized
  {
    [BridgeDescriptor("TEST_FINGERPRINT_001", "192.168.1.100", 443, "obfs4", now, LabTestDataSource, true)]
  }

  /**
   * What the enumeration gathers from the sources in `sources` that it knows
   * by name; any other name contributes nothing.
   */
  function Contribution(sources: set<string>, fromDirectories: seq<BridgeDescriptor>,
                        fromResearch: seq<BridgeDescriptor>, fromLab: seq<BridgeDescriptor>): multiset<BridgeDescriptor>
  {
    (if PublicTorDirectories in sources then multiset(fromDirectories) else multiset{})
    + (if AuthorizedResearchSources in sources then multiset(fromResearch) else multiset{})
    + (if LabTestDataSource in sources then multiset(fromLab) else multiset{})
  }

  /** The descriptor with its fingerprint and address replaced by ciphertext. */
  function EncryptFields(c: Cipher, d: BridgeDescriptor): BridgeDescriptor {
    d.(fingerprint := c.encrypt(d.fingerprint), address := c.encrypt(d.address))
  }

  /** Decrypting the two protected fields gives the plaintext descriptor back. */
  function DecryptFields(c: Cipher, d: BridgeDescriptor): Option<BridgeDescriptor> {
    match (c.decrypt(d.fingerprint), c.decrypt(d.address))
    case (Some(fingerprint), Some(address)) => Some(d.(fingerprint := fingerprint, address := address))
    case _ => None
  }

  lemma DecryptEncryptFields(c: Cipher, d: BridgeDescriptor)
    requires RoundTrips(c)
    ensures DecryptFields(c, EncryptFields(c, d)) == Some(d)
  {
    assert c.decrypt(c.encrypt(d.fingerprint)) == Some(d.fingerprint);
    assert c.decrypt(c.encrypt(d.address)) == Some(d.address);
  }

  /** The (empty) distributions `analyze_bridge_patterns` returns. */
  datatype BridgePatterns = BridgePatterns(
    transportDistribution: map<string, nat>,
    geographicDistribution: map<string, nat>,
    temporalPatterns: map<string, nat>,
    fingerprintPatterns: map<string, nat>)

  class AuthorizedBridgeDiscovery {
    const complianceMonitor: ComplianceMonitor
    var authorizedSources: set<string>
    var discoveredBridges: seq<BridgeDescriptor>
    const cipherSuite: Cipher

    constructor (monitor: ComplianceMonitor, cipher: Cipher)
      requires RoundTrips(cipher)
      ensures complianceMonitor == monitor && cipherSuite == cipher
      ensures authorizedSources == {PublicTorDirectories, AuthorizedResearchSources, LabTestDataSource}
      ensures discoveredBridges == []
      ensures Valid()
    {
      complianceMonitor := monitor;
      authorizedSources := {PublicTorDirectories, AuthorizedResearchSources, LabTestDataSource};
      discoveredBridges := [];
      cipherSuite := cipher;
    }

    /** The engine's key is a Fernet key: what it encrypts it can decrypt. */
    ghost predicate Valid() {
      RoundTrips(cipherSuite)
    }

    function EncryptData(data: string): string {
      cipherSuite.encrypt(data)
    }

    function DecryptData(token: string): Option<string> {
      cipherSuite.decrypt(token)
    }

    /** Under one engine's key, decryption undoes encryption. */
    lemma DecryptEncrypt(data: string)
      requires Valid()
      ensures DecryptData(EncryptData(data)) == Some(data)
    {
    }

    /**
     * Visits the allowed sources in the set's (unspecified) order and
     * concatenates what each yields. The two HTTP sources are I/O: their
     * results are parameters.
     */
    method AuthorizedEnumeration(fromDirectories: seq<BridgeDescriptor>, fromResearch: seq<BridgeDescriptor>,
                                 now: Timestamp)
      returns (bridges: seq<BridgeDescriptor>)
      ensures multiset(bridges) == Contribution(authorizedSources, fromDirectories, fromResearch, LabTestData(now))
    {
      bridges := [];
      var remaining := authorizedSources;
      while remaining != {}
        invariant remaining <= authorizedSources
        invariant multiset(bridges) ==
                    Contribution(authorizedSources - remaining, fromDirectories, fromResearch, LabTestData(now))
        decreases remaining
      {
        var source :| source in remaining;
        if source == PublicTorDirectories {
          bridges := bridges + fromDirectories;
        } else if source == AuthorizedResearchSources {
          bridges := bridges + fromResearch;
        } else if source == LabTestDataSource {
          bridges := bridges + LabTestData(now);
        }
        remaining := remaining - {source};
      }
      assert authorizedSources - remaining == authorizedSources;
    }

    /**
     * Gate, then activity log, then enumeration; each descriptor gets its
     * fingerprint and address encrypted in place and the results are
     * appended to `discoveredBridges`. `raw` is the enumeration before
     * encryption.
     */
    method EnumeratePublicBridges(fromDirectories: seq<BridgeDescriptor>, fromResearch: seq<BridgeDescriptor>,
                                  now: Timestamp)
      returns (r: Result<seq<BridgeDescriptor>, EnumerationError>, ghost raw: seq<BridgeDescriptor>)
      modifies complianceMonitor`authorizationLog, complianceMonitor`activityLog, this`discoveredBridges
      ensures r.Success? <==> GateFailure(complianceMonitor.labEnvironment, complianceMonitor.authorizedOperations,
                                          EnumerateOperation).None?
      ensures r.Failure? ==>
                Some(r.error) == GateFailure(complianceMonitor.labEnvironment, complianceMonitor.authorizedOperations,
                                             EnumerateOperation)
                && complianceMonitor.authorizationLog == old(complianceMonitor.authorizationLog)
                && complianceMonitor.activityLog == old(complianceMonitor.activityLog)
                && discoveredBridges == old(discoveredBridges)
      ensures r.Success? ==>
                && complianceMonitor.authorizationLog ==
                     old(complianceMonitor.authorizationLog) + [AuthorizationEntry(EnumerateOperation, AuthorizedResearch, now)]
                && complianceMonitor.activityLog ==
                     old(complianceMonitor.activityLog) + [ActivityEntry(EnumerateOperation, "public_sources_only", now)]
                && multiset(raw) == Contribution(authorizedSources, fromDirectories, fromResearch, LabTestData(now))
                && |r.value| == |raw|
                && (forall i :: 0 <= i < |raw| ==> r.value[i] == EncryptFields(cipherSuite, raw[i]))
                && discoveredBridges == old(discoveredBridges) + r.value
    {
      raw := [];
      var admitted := complianceMonitor.Admit(EnumerateOperation, AuthorizedResearch, "public_sources_only", now);
      if admitted.Fail? {
        return Failure(admitted.error), raw;
      }
      var bridges := AuthorizedEnumeration(fromDirectories, fromResearch, now);
      raw := bridges;
      var i := 0;
      while i < |bridges|
        invariant 0 <= i <= |bridges| && |bridges| == |raw|
        invariant forall j :: 0 <= j < i ==> bridges[j] == EncryptFields(cipherSuite, raw[j])
        invariant forall j :: i <= j < |bridges| ==> bridges[j] == raw[j]
      {
        var bridge := bridges[i];
        bridge := bridge.(fingerprint := EncryptData(bridge.fingerprint));
        bridge := bridge.(address := EncryptData(bridge.address));
        bridges := bridges[i := bridge];
        i := i + 1;
      }
      discoveredBridges := discoveredBridges + bridges;
      return Success(bridges), raw;
    }

    /** Gated; the loop over the discovered bridges records nothing. */
    method AnalyzeBridgePatterns(now: Timestamp) returns (r: Result<BridgePatterns, EnumerationError>)
      modifies complianceMonitor`authorizationLog, complianceMonitor`activityLog
      ensures r.Success? <==> GateFailure(complianceMonitor.labEnvironment, complianceMonitor.authorizedOperations,
                                          AnalyzePatternsOperation).None?
      ensures r.Failure? ==>
                Some(r.error) == GateFailure(complianceMonitor.labEnvironment, complianceMonitor.authorizedOperations,
                                             AnalyzePatternsOperation)
                && complianceMonitor.authorizationLog == old(complianceMonitor.authorizationLog)
                && complianceMonitor.activityLog == old(complianceMonitor.activityLog)
      ensures r.Success? ==>
                && complianceMonitor.authorizationLog ==
                     old(complianceMonitor.authorizationLog) + [AuthorizationEntry(AnalyzePatternsOperation, DefensiveAnalysis, now)]
                && complianceMonitor.activityLog ==
                     old(complianceMonitor.activityLog) + [ActivityEntry(AnalyzePatternsOperation, "defensive_research", now)]
                && r.value == BridgePatterns(map[], map[], map[], map[])
    {
      var admitted := complianceMonitor.Admit(AnalyzePatternsOperation, DefensiveAnalysis, "defensive_research", now);
      if admitted.Fail? {
        return Failure(admitted.error);
      }
      return Success(BridgePatterns(map[], map[], map[], map[]));
    }
  }

  const AnalyzeCaptchaOperation: string := "analyze_captcha_mechanisms"
  const TestDefensiveOperation: string := "test_defensive_measures"

  /** The (empty) result lists of `analyze_captcha_mechanisms`. */
  datatype CaptchaAnalysis = CaptchaAnalysis(
    captchaTypes: seq<string>,
    vulnerabilityPatterns: seq<string>,
    defensiveMeasures: seq<string>,
    improvementRecommendations: seq<string>)

  /** The (empty) result of `test_defensive_measures`. */
  datatype DefensiveTestResults = DefensiveTestResults(
    defensiveEffectiveness: map<string, nat>,
    falsePositiveRates: map<string, nat>,
    performanceImpact: map<string, nat>,
    recommendations: seq<string>)

  class CaptchaResearchFramework {
    const complianceMonitor: ComplianceMonitor
    var authorizedOnly: bool
    var testEnvironment: string

    constructor (monitor: ComplianceMonitor)
      ensures complianceMonitor == monitor && authorizedOnly && testEnvironment == "lab_only"
    {
      complianceMonitor := monitor;
      authorizedOnly := true;
      testEnvironment := "lab_only";
    }

    /** Refused outright when `authorizedOnly` is off; otherwise gated. */
    method AnalyzeCaptchaMechanisms(now: Timestamp) returns (r: Result<CaptchaAnalysis, EnumerationError>)
      modifies complianceMonitor`authorizationLog, complianceMonitor`activityLog
      ensures !authorizedOnly ==> r == Failure(UnauthorizedOperationError("Authorization required"))
      ensures authorizedOnly ==>
                (r.Success? <==> GateFailure(complianceMonitor.labEnvironment, complianceMonitor.authorizedOperations,
                                             AnalyzeCaptchaOperation).None?)
      ensures authorizedOnly && r.Failure? ==>
                Some(r.error) == GateFailure(complianceMonitor.labEnvironment, complianceMonitor.authorizedOperations,
                                             AnalyzeCaptchaOperation)
      ensures r.Failure? ==>
                complianceMonitor.authorizationLog == old(complianceMonitor.authorizationLog)
                && complianceMonitor.activityLog == old(complianceMonitor.activityLog)
      ensures r.Success? ==>
                && complianceMonitor.authorizationLog ==
                     old(complianceMonitor.authorizationLog) + [AuthorizationEntry(AnalyzeCaptchaOperation, AuthorizedResearch, now)]
                && complianceMonitor.activityLog ==
                     old(complianceMonitor.activityLog) + [ActivityEntry(AnalyzeCaptchaOperation, "defensive_research", now)]
                && r.value == CaptchaAnalysis([], [], [], [])
    {
      if !authorizedOnly {
        return Failure(UnauthorizedOperationError("Authorization required"));
      }
      var admitted := complianceMonitor.Admit(AnalyzeCaptchaOperation, AuthorizedResearch, "defensive_research", now);
      if admitted.Fail? {
        return Failure(admitted.error);
      }
      return Success(CaptchaAnalysis([], [], [], []));
    }

    method TestDefensiveMeasures(now: Timestamp) returns (r: Result<DefensiveTestResults, EnumerationError>)
      modifies complianceMonitor`authorizationLog, complianceMonitor`activityLog
      ensures r.Success? <==> GateFailure(complianceMonitor.labEnvironment, complianceMonitor.authorizedOperations,
                                          TestDefensiveOperation).None?
      ensures r.Failure? ==>
                Some(r.error) == GateFailure(complianceMonitor.labEnvironment, complianceMonitor.authorizedOperations,
                                             TestDefensiveOperation)
                && complianceMonitor.authorizationLog == old(complianceMonitor.authorizationLog)
                && complianceMonitor.activityLog == old(complianceMonitor.activityLog)
      ensures r.Success? ==>
                && complianceMonitor.authorizationLog ==
                     old(complianceMonitor.authorizationLog) + [AuthorizationEntry(TestDefensiveOperation, LabOnly, now)]
                && complianceMonitor.activityLog ==
                     old(complianceMonitor.activityLog) + [ActivityEntry(TestDefensiveOperation, "defensive_testing", now)]
                && r.value == DefensiveTestResults(map[], map[], map[], [])
    {
      var admitted := complianceMonitor.Admit(TestDefensiveOperation, LabOnly, "defensive_testing", now);
      if admitted.Fail? {
        return Failure(admitted.error);
      }
      return Success(DefensiveTestResults(map[], map[], map[], []));
    }
  }
}
